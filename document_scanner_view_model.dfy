/**
 * DocumentScannerViewModel: the capture state machine.
 *
 * The asynchronous callbacks become event methods a caller may invoke in any order:
 * `OnDetection` is a rectangle request's completion arriving on the main queue, and
 * `OnPhotoOutput` is the photo delegate finishing the capture that `CaptureDocument` requested.
 * The completion closure `CaptureDocument` hands to the camera, with its captured
 * `cornersToUse`, is held in `pending` until the delegate finishes.
 */
module ScannerViewModel {
  import opened Wrappers
  import opened Geometry
  import opened DocumentProcessor
  import opened CameraSession

  /** The completion closure of the capture in flight, with the corners it froze. */
  datatype PendingCapture = NoCapture | Awaiting(cornersToUse: Option<seq<Point>>)

  /** What a successful capture publishes: the corrected image when 4 corners were frozen, else the raw decode. */
  function ScannedImage(ci: CoreImage, cornersToUse: Option<seq<Point>>, data: Data): Option<UIImage>
    requires cornersToUse.Some? ==> |cornersToUse.value| == 4
  {
    if cornersToUse.Some? && |cornersToUse.value| == 4 then PerspectiveCorrection(ci, data, cornersToUse.value)
    else ci.decode(data)
  }

  /** Perspective correction is used exactly when the frozen corners are present; otherwise the decoded still. */
  lemma ScannedImageChoice(ci: CoreImage, cornersToUse: Option<seq<Point>>, data: Data)
    requires cornersToUse.Some? ==> |cornersToUse.value| == 4
    ensures cornersToUse.Some? ==> ScannedImage(ci, cornersToUse, data) == PerspectiveCorrection(ci, data, cornersToUse.value)
    ensures cornersToUse.None? ==> ScannedImage(ci, cornersToUse, data) == ci.decode(data)
  {
  }

  predicate IsQuadOrAbsent(corners: Option<seq<Point>>) {
    corners.Some? ==> |corners.value| == 4
  }

  class DocumentScannerViewModel {
    const cameraManager: CameraSessionManager
    const imaging: CoreImage                      // the frameworks the processor calls

    var detectedCorners: Option<seq<Point>>
    var isTorchOn: bool
    var isCapturing: bool
    var finalScannedImage: Option<UIImage>
    var pending: PendingCapture

    /** Detections are always absent or four corners, and a pending capture keeps the busy flag raised. */
    ghost predicate Valid()
      reads this
    {
      && IsQuadOrAbsent(detectedCorners)
      && (pending.Awaiting? ==> isCapturing && IsQuadOrAbsent(pending.cornersToUse))
    }

    constructor (backCamera: Option<CaptureDevice>, imaging: CoreImage)
      ensures Valid() && fresh(cameraManager)
      ensures detectedCorners.None? && !isTorchOn && !isCapturing && finalScannedImage.None? && pending == NoCapture
      ensures !cameraManager.isTorchOn && cameraManager.photoRequests == []
      ensures !cameraManager.isRunning && cameraManager.dispatched == [] && cameraManager.framesSent == []
      ensures cameraManager.backCamera == backCamera
      ensures this.imaging == imaging
    {
      cameraManager := new CameraSessionManager(backCamera);
      this.imaging := imaging;
      detectedCorners := None;
      isTorchOn := false;
      isCapturing := false;
      finalScannedImage := None;
      pending := NoCapture;
    }

    /** A detection result, absent or not, replaces `detectedCorners` outright; nothing else changes. */
    method OnDetection(failed: bool, results: Option<seq<RectangleObservation>>)
      requires Valid()
      modifies this
      ensures Valid()
      ensures detectedCorners == DetectedCorners(failed, results)
      ensures isTorchOn == old(isTorchOn) && isCapturing == old(isCapturing)
      ensures finalScannedImage == old(finalScannedImage) && pending == old(pending)
    {
      detectedCorners := DetectedCorners(failed, results);
    }

    method StartSession()
      modifies cameraManager
      ensures cameraManager.dispatched ==
        if old(cameraManager.isRunning) then old(cameraManager.dispatched) else old(cameraManager.dispatched) + [StartRunning]
      ensures cameraManager.isRunning == old(cameraManager.isRunning) && cameraManager.isTorchOn == old(cameraManager.isTorchOn)
      ensures cameraManager.backCamera == old(cameraManager.backCamera)
      ensures cameraManager.photoRequests == old(cameraManager.photoRequests) && cameraManager.framesSent == old(cameraManager.framesSent)
    {
      cameraManager.StartSession();
    }

    method StopSession()
      modifies cameraManager
      ensures cameraManager.dispatched ==
        if old(cameraManager.isRunning) then old(cameraManager.dispatched) + [StopRunning] else old(cameraManager.dispatched)
      ensures cameraManager.isRunning == old(cameraManager.isRunning) && cameraManager.isTorchOn == old(cameraManager.isTorchOn)
      ensures cameraManager.backCamera == old(cameraManager.backCamera)
      ensures cameraManager.photoRequests == old(cameraManager.photoRequests) && cameraManager.framesSent == old(cameraManager.framesSent)
    {
      cameraManager.StopSession();
    }

    /**
     * The view model's flag is always negated, even when the manager's toggle changes nothing,
     * so the two flags can disagree.
     */
    method ToggleTorch(lockThrows: bool, setTorchOnThrows: bool)
      requires Valid()
      modifies this, cameraManager
      ensures Valid()
      ensures isTorchOn == !old(isTorchOn)
      ensures TorchState(cameraManager.isTorchOn, cameraManager.backCamera) ==
        ToggledTorch(TorchState(old(cameraManager.isTorchOn), old(cameraManager.backCamera)), lockThrows, setTorchOnThrows)
      ensures cameraManager.isRunning == old(cameraManager.isRunning) && cameraManager.dispatched == old(cameraManager.dispatched)
      ensures cameraManager.photoRequests == old(cameraManager.photoRequests) && cameraManager.framesSent == old(cameraManager.framesSent)
      ensures detectedCorners == old(detectedCorners) && isCapturing == old(isCapturing)
      ensures finalScannedImage == old(finalScannedImage) && pending == old(pending)
    {
      isTorchOn := !isTorchOn;
      cameraManager.ToggleTorch(lockThrows, setTorchOnThrows);
    }

    /**
     * The shutter. While a capture is in flight it returns at once and changes nothing.
     * Otherwise it raises the busy flag, freezes the current corners, and issues exactly one
     * photo request whose flash follows the manager's torch flag.
     */
    method CaptureDocument()
      requires Valid()
      modifies this, cameraManager
      ensures Valid()
      ensures old(isCapturing) ==>
        && detectedCorners == old(detectedCorners) && isTorchOn == old(isTorchOn) && isCapturing
        && finalScannedImage == old(finalScannedImage) && pending == old(pending)
        && cameraManager.photoRequests == old(cameraManager.photoRequests)
      ensures !old(isCapturing) ==>
        && isCapturing && pending == Awaiting(old(detectedCorners))
        && detectedCorners == old(detectedCorners) && isTorchOn == old(isTorchOn)
        && finalScannedImage == old(finalScannedImage)
        && cameraManager.photoRequests == old(cameraManager.photoRequests) + [PhotoSettings(FlashModeFor(cameraManager.isTorchOn))]
      ensures cameraManager.isTorchOn == old(cameraManager.isTorchOn) && cameraManager.backCamera == old(cameraManager.backCamera)
      ensures cameraManager.isRunning == old(cameraManager.isRunning) && cameraManager.dispatched == old(cameraManager.dispatched)
      ensures cameraManager.framesSent == old(cameraManager.framesSent)
    {
      if isCapturing {
        return;
      }
      isCapturing := true;
      var cornersToUse := detectedCorners;
      cameraManager.CapturePhoto();
      pending := Awaiting(cornersToUse);
    }

    /**
     * The photo delegate finishes the capture in flight. A failure lowers the busy flag and keeps
     * the last image; a success publishes `ScannedImage` of the FROZEN corners and lowers the flag;
     * with neither error nor data the completion is never called and the flag stays raised.
     */
    method OnPhotoOutput(error: Option<CaptureError>, fileData: Option<Data>)
      requires Valid() && pending.Awaiting?
      modifies this
      ensures Valid() && pending == NoCapture
      ensures detectedCorners == old(detectedCorners) && isTorchOn == old(isTorchOn)
      ensures match PhotoCompletion(error, fileData)
        case None => isCapturing && finalScannedImage == old(finalScannedImage)
        case Some(PhotoFailure(_)) => !isCapturing && finalScannedImage == old(finalScannedImage)
        case Some(PhotoSuccess(data)) =>
          !isCapturing && finalScannedImage == ScannedImage(imaging, old(pending).cornersToUse, data)
    {
      var cornersToUse := pending.cornersToUse;
      pending := NoCapture;
      match PhotoCompletion(error, fileData)
      case None =>
      case Some(PhotoFailure(_)) =>
        isCapturing := false;
      case Some(PhotoSuccess(data)) =>
        var scannedImage: Option<UIImage>;
        if cornersToUse.Some? && |cornersToUse.value| == 4 {
          scannedImage := ApplyPerspectiveCorrection(imaging, data, cornersToUse.value);
        } else {
          scannedImage := imaging.decode(data);
        }
        finalScannedImage := scannedImage;
        isCapturing := false;
    }
  }

  /**
   * The freeze: a detection that arrives while the capture is in flight changes the published
   * corners but not the ones the capture uses.
   */
  method CaptureIgnoresLaterDetections(vm: DocumentScannerViewModel, failed: bool,
                                       results: Option<seq<RectangleObservation>>, data: Data)
    requires vm.Valid() && !vm.isCapturing
    modifies vm, vm.cameraManager
    ensures vm.Valid() && !vm.isCapturing
    ensures vm.detectedCorners == DetectedCorners(failed, results)
    ensures vm.finalScannedImage == ScannedImage(vm.imaging, old(vm.detectedCorners), data)
    ensures |vm.cameraManager.photoRequests| == |old(vm.cameraManager.photoRequests)| + 1
  {
    vm.CaptureDocument();
    vm.OnDetection(failed, results);
    vm.OnPhotoOutput(None, Some(data));
  }

  /** The busy guard: a second shutter press before the photo arrives issues no second request. */
  method SecondPressIsIgnored(vm: DocumentScannerViewModel)
    requires vm.Valid() && !vm.isCapturing
    modifies vm, vm.cameraManager
    ensures vm.Valid() && vm.isCapturing && vm.pending == Awaiting(old(vm.detectedCorners))
    ensures |vm.cameraManager.photoRequests| == |old(vm.cameraManager.photoRequests)| + 1
  {
    vm.CaptureDocument();
    vm.CaptureDocument();
  }

  /**
   * A photo with neither error nor data never calls the completion: the busy flag stays raised
   * and every later shutter press is ignored.
   */
  method LostCompletionBlocksShutter(vm: DocumentScannerViewModel)
    requires vm.Valid() && !vm.isCapturing
    modifies vm, vm.cameraManager
    ensures vm.Valid() && vm.isCapturing && vm.pending == NoCapture
    ensures |vm.cameraManager.photoRequests| == |old(vm.cameraManager.photoRequests)| + 1
  {
    vm.CaptureDocument();
    vm.OnPhotoOutput(None, None);
    vm.CaptureDocument();
  }
}
