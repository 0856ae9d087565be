/**
 * CameraSessionManager: the session's idempotent start/stop guards, the torch toggle with its
 * failure paths, the flash setting of a still capture, frame forwarding, and the photo
 * delegate's mapping from a finished photo to the completion's argument.
 *
 * AVFoundation is foreign. The back camera is a value the manager holds; whether
 * `lockForConfiguration` or `setTorchModeOn(level:)` throws is a parameter of the toggle; the
 * blocks that `startSession`/`stopSession` hand to a global dispatch queue are kept in
 * `dispatched` until a caller runs them, in any order, with `RunDispatched`.
 */
module CameraSession {
  import opened Wrappers
  import opened DocumentProcessor

  datatype TorchMode = TorchOff | TorchOn

  datatype FlashMode = FlashOff | FlashOn

  /** The AVCapturePhotoSettings of one still capture. */
  datatype PhotoSettings = PhotoSettings(flashMode: FlashMode)

  /** The back wide-angle camera's torch-related state. */
  datatype CaptureDevice = CaptureDevice(hasTorch: bool, torchMode: TorchMode, torchLevel: real, lockedForConfiguration: bool)

  /** A block dispatched to the global queue by `startSession` or `stopSession`. */
  datatype SessionCommand = StartRunning | StopRunning

  /** An opaque CMSampleBuffer. */
  datatype SampleBuffer = SampleBuffer(token: nat)

  /** An opaque capture error. */
  datatype CaptureError = CaptureError(code: int)

  /** The argument of a capture's completion: `.success(data)` or `.failure(error)`. */
  datatype PhotoResult = PhotoSuccess(data: Data) | PhotoFailure(error: CaptureError)

  /** The flash mode of a capture requested while the torch flag is `torchOn`. */
  function FlashModeFor(torchOn: bool): (mode: FlashMode)
    ensures mode == FlashOn <==> torchOn
  {
    if torchOn then FlashOn else FlashOff
  }

  /**
   * `PhotoCaptureProcessor.photoOutput(_:didFinishProcessingPhoto:error:)`: the completion's
   * argument, or None when the completion is never called (no error and no file data).
   */
  function PhotoCompletion(error: Option<CaptureError>, fileData: Option<Data>): Option<PhotoResult> {
    if error.Some? then Some(PhotoFailure(error.value))
    else if fileData.Some? then Some(PhotoSuccess(fileData.value))
    else None
  }

  /** An error wins over data; data without an error succeeds; with neither the completion is never invoked. */
  lemma PhotoCompletionCases(error: Option<CaptureError>, fileData: Option<Data>)
    ensures PhotoCompletion(error, fileData).Some? <==> (error.Some? || fileData.Some?)
    ensures error.Some? ==> PhotoCompletion(error, fileData) == Some(PhotoFailure(error.value))
    ensures error.None? && fileData.Some? ==> PhotoCompletion(error, fileData) == Some(PhotoSuccess(fileData.value))
  {
  }

  predicate HasTorch(camera: Option<CaptureDevice>) {
    camera.Some? && camera.value.hasTorch
  }

  /** The manager's torch flag and the camera after one `toggleTorch()`. */
  datatype TorchState = TorchState(isTorchOn: bool, camera: Option<CaptureDevice>)

  function ToggledTorch(s: TorchState, lockThrows: bool, setTorchOnThrows: bool): TorchState {
    if !HasTorch(s.camera) || lockThrows then s
    else
      var device := s.camera.value;
      if s.isTorchOn then
        TorchState(false, Some(device.(torchMode := TorchOff, lockedForConfiguration := false)))
      else if setTorchOnThrows then
        // the throw skips unlockForConfiguration(): the device stays locked
        TorchState(s.isTorchOn, Some(device.(lockedForConfiguration := true)))
      else
        TorchState(true, Some(device.(torchMode := TorchOn, torchLevel := 1.0, lockedForConfiguration := false)))
  }

  /** Without a back camera that has a torch, the toggle changes nothing. */
  lemma ToggleWithoutTorchIsNoOp(s: TorchState, lockThrows: bool, setTorchOnThrows: bool)
    requires !HasTorch(s.camera)
    ensures ToggledTorch(s, lockThrows, setTorchOnThrows) == s
  {
  }

  /** A configuration that goes through negates the flag, on to off and off to on, and unlocks the device. */
  lemma ToggleNegatesWhenConfigured(s: TorchState, lockThrows: bool, setTorchOnThrows: bool)
    requires HasTorch(s.camera) && !lockThrows && (s.isTorchOn || !setTorchOnThrows)
    ensures ToggledTorch(s, lockThrows, setTorchOnThrows).isTorchOn == !s.isTorchOn
    ensures ToggledTorch(s, lockThrows, setTorchOnThrows).camera.value.torchMode == (if s.isTorchOn then TorchOff else TorchOn)
    ensures !ToggledTorch(s, lockThrows, setTorchOnThrows).camera.value.lockedForConfiguration
  {
  }

  /** A throw keeps the flag; only `setTorchModeOn` throwing leaves the device locked. */
  lemma ToggleKeepsFlagOnThrow(s: TorchState, lockThrows: bool, setTorchOnThrows: bool)
    requires HasTorch(s.camera) && (lockThrows || (!s.isTorchOn && setTorchOnThrows))
    ensures ToggledTorch(s, lockThrows, setTorchOnThrows).isTorchOn == s.isTorchOn
    ensures lockThrows ==> ToggledTorch(s, lockThrows, setTorchOnThrows) == s
    ensures !lockThrows ==> ToggledTorch(s, lockThrows, setTorchOnThrows).camera.value.lockedForConfiguration
    ensures ToggledTorch(s, lockThrows, setTorchOnThrows).camera.value.torchMode == s.camera.value.torchMode
  {
  }

  class CameraSessionManager {
    var isRunning: bool                      // session.isRunning
    var dispatched: seq<SessionCommand>      // start/stop blocks waiting on the global queue
    var isTorchOn: bool
    var backCamera: Option<CaptureDevice>    // AVCaptureDevice.default(.builtInWideAngleCamera, for: .video, position: .back)
    var photoRequests: seq<PhotoSettings>    // every photoOutput.capturePhoto(with:delegate:)
    var framesSent: seq<SampleBuffer>        // everything framePublisher has sent

    constructor (backCamera: Option<CaptureDevice>)
      ensures !isRunning && dispatched == [] && !isTorchOn
      ensures this.backCamera == backCamera && photoRequests == [] && framesSent == []
    {
      isRunning := false;
      dispatched := [];
      isTorchOn := false;
      this.backCamera := backCamera;
      photoRequests := [];
      framesSent := [];
    }

    /** A new session is started in the background only when it is not already running. */
    method StartSession()
      modifies this
      ensures dispatched == if old(isRunning) then old(dispatched) else old(dispatched) + [StartRunning]
      ensures isRunning == old(isRunning) && isTorchOn == old(isTorchOn) && backCamera == old(backCamera)
      ensures photoRequests == old(photoRequests) && framesSent == old(framesSent)
    {
      if isRunning {
        return;
      }
      dispatched := dispatched + [StartRunning];
    }

    /** A running session is stopped in the background; a stopped one is left alone. */
    method StopSession()
      modifies this
      ensures dispatched == if old(isRunning) then old(dispatched) + [StopRunning] else old(dispatched)
      ensures isRunning == old(isRunning) && isTorchOn == old(isTorchOn) && backCamera == old(backCamera)
      ensures photoRequests == old(photoRequests) && framesSent == old(framesSent)
    {
      if !isRunning {
        return;
      }
      dispatched := dispatched + [StopRunning];
    }

    /** The global queue runs one pending block (blocks may run in any order). */
    method RunDispatched(k: nat)
      requires k < |dispatched|
      modifies this
      ensures dispatched == old(dispatched)[..k] + old(dispatched)[k + 1..]
      ensures isRunning == (old(dispatched)[k] == StartRunning)
      ensures isTorchOn == old(isTorchOn) && backCamera == old(backCamera)
      ensures photoRequests == old(photoRequests) && framesSent == old(framesSent)
    {
      var command := dispatched[k];
      dispatched := dispatched[..k] + dispatched[k + 1..];
      isRunning := command == StartRunning;
    }

    /** `toggleTorch()`: guard on the torch, lock, switch off or on, unlock; any throw lands in the empty catch. */
    method ToggleTorch(lockThrows: bool, setTorchOnThrows: bool)
      modifies this
      ensures TorchState(isTorchOn, backCamera) == ToggledTorch(TorchState(old(isTorchOn), old(backCamera)), lockThrows, setTorchOnThrows)
      ensures isRunning == old(isRunning) && dispatched == old(dispatched)
      ensures photoRequests == old(photoRequests) && framesSent == old(framesSent)
    {
      if backCamera.None? || !backCamera.value.hasTorch {
        return;
      }
      var device := backCamera.value;
      // try device.lockForConfiguration()
      if lockThrows {
        return;
      }
      device := device.(lockedForConfiguration := true);
      if isTorchOn {
        device := device.(torchMode := TorchOff);
        isTorchOn := false;
      } else {
        // try device.setTorchModeOn(level: 1.0)
        if setTorchOnThrows {
          backCamera := Some(device);
          return;
        }
        device := device.(torchMode := TorchOn, torchLevel := 1.0);
        isTorchOn := true;
      }
      device := device.(lockedForConfiguration := false);
      backCamera := Some(device);
    }

    /** `capturePhoto(completion:)`: one request whose flash is on exactly when the torch flag is. */
    method CapturePhoto()
      modifies this
      ensures photoRequests == old(photoRequests) + [PhotoSettings(FlashModeFor(isTorchOn))]
      ensures isRunning == old(isRunning) && dispatched == old(dispatched)
      ensures isTorchOn == old(isTorchOn) && backCamera == old(backCamera) && framesSent == old(framesSent)
    {
      var settings := PhotoSettings(if isTorchOn then FlashOn else FlashOff);
      photoRequests := photoRequests + [settings];
    }

    /** The video delegate forwards every frame, unchanged and once, to `framePublisher`. */
    method CaptureOutput(sampleBuffer: SampleBuffer)
      modifies this
      ensures framesSent == old(framesSent) + [sampleBuffer]
      ensures isRunning == old(isRunning) && dispatched == old(dispatched)
      ensures isTorchOn == old(isTorchOn) && backCamera == old(backCamera) && photoRequests == old(photoRequests)
    {
      framesSent := framesSent + [sampleBuffer];
    }
  }

  /**
   * The start guard reads `isRunning`, which only the background block changes: two starts issued
   * before that block runs dispatch two `startRunning` calls; once it has run, a third start is a no-op.
   */
  method StartGuardScenario() returns (beforeRun: seq<SessionCommand>, running: bool, afterRun: seq<SessionCommand>)
    ensures beforeRun == [StartRunning, StartRunning]
    ensures running && afterRun == [StartRunning]
  {
    var manager := new CameraSessionManager(None);
    manager.StartSession();
    manager.StartSession();
    beforeRun := manager.dispatched;
    manager.RunDispatched(0);
    running := manager.isRunning;
    manager.StartSession();
    afterRun := manager.dispatched;
  }
}
