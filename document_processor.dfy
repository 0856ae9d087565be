/**
 * DocumentProcessor: rectangle detection results and perspective correction.
 *
 * Vision's rectangle finder and Core Image's rendering are foreign: a detection is modelled by
 * what the request's completion handler receives, and the image stack by a `CoreImage` value
 * whose function fields stand for `UIImage(data:)`, `CIFilter.outputImage` and
 * `CIContext.createCGImage`.
 */
module DocumentProcessor {
  import opened Wrappers
  import opened Geometry

  /** Encoded image bytes (JPEG/HEIC data from the camera). */
  type Data = seq<bv8>

  datatype Orientation = Up | Down | Left | Right | UpMirrored | DownMirrored | LeftMirrored | RightMirrored

  /** A decoded bitmap; `pixels` is an opaque token for its content. */
  datatype CGImage = CGImage(width: nat, height: nat, pixels: nat)

  /** A UIImage: possibly backed by a bitmap, with display scale and orientation metadata. */
  datatype UIImage = UIImage(cgImage: Option<CGImage>, scale: real, orientation: Orientation)

  /** A Core Image recipe: either wraps a bitmap or is the opaque output of a filter. */
  datatype CIImage = FromCGImage(source: CGImage) | FilterOutput(token: nat)

  /** A VNRectangleObservation's four normalized corners. */
  datatype RectangleObservation = RectangleObservation(
    topLeft: Point, topRight: Point, bottomRight: Point, bottomLeft: Point)

  /**
   * The completion of one rectangle request. `failed` is a non-nil `error`; `results` is None when
   * `request.results` is nil or does not cast to `[VNRectangleObservation]`.
   * Present corners are always the FIRST observation's, in the order top-left, top-right,
   * bottom-right, bottom-left; an error or an empty result is reported as absence.
   */
  function DetectedCorners(failed: bool, results: Option<seq<RectangleObservation>>): (corners: Option<seq<Point>>)
    ensures corners.None? <==> (failed || results.None? || |results.value| == 0)
    ensures corners.Some? ==> |corners.value| == 4
    ensures corners.Some? ==>
      var first := results.value[0];
      corners.value == [first.topLeft, first.topRight, first.bottomRight, first.bottomLeft]
  {
    if failed || results.None? || |results.value| == 0 then None
    else
      var rect := results.value[0];
      Some([rect.topLeft, rect.topRight, rect.bottomRight, rect.bottomLeft])
  }

  /** Only the first observation matters: whatever follows it is ignored. */
  lemma OnlyFirstObservationCounts(first: RectangleObservation, rest1: seq<RectangleObservation>, rest2: seq<RectangleObservation>)
    ensures DetectedCorners(false, Some([first] + rest1)) == DetectedCorners(false, Some([first] + rest2))
  {
  }

  /** The filter parameters of CIPerspectiveCorrection that the source sets. */
  datatype FilterKey = InputImage | InputTopLeft | InputTopRight | InputBottomRight | InputBottomLeft

  datatype FilterValue = ImageValue(image: CIImage) | VectorValue(point: Point)

  /** A CIFilter instance: its parameter dictionary, filled in by `setValue(_:forKey:)`. */
  class PerspectiveFilter {
    var values: map<FilterKey, FilterValue>

    constructor ()
      ensures values == map[]
    {
      values := map[];
    }

    method SetValue(value: FilterValue, key: FilterKey)
      modifies this
      ensures values == old(values)[key := value]
    {
      values := values[key := value];
    }
  }

  /** The foreign image stack the processor calls. */
  datatype CoreImage = CoreImage(
    decode: Data -> Option<UIImage>,                                // UIImage(data:)
    hasPerspectiveFilter: bool,                                     // CIFilter(name: "CIPerspectiveCorrection") != nil
    outputImage: map<FilterKey, FilterValue> -> Option<CIImage>,    // filter.outputImage, a function of its parameters
    createCGImage: CIImage -> Option<CGImage>)                      // CIContext().createCGImage(_:from: extent)

  /** The bitmap to correct, when the data decodes to an image backed by one. */
  function DecodedBitmap(ci: CoreImage, imageData: Data): Option<CGImage> {
    match ci.decode(imageData)
    case None => None
    case Some(image) => image.cgImage
  }

  /** Whether the correction reaches the corner assignments (where corners 0..3 are indexed). */
  predicate ReachesCornerAssignment(ci: CoreImage, imageData: Data) {
    DecodedBitmap(ci, imageData).Some? && ci.hasPerspectiveFilter
  }

  /** The parameters the filter holds once the source has set them: the image and pixel corners 0..3. */
  function PerspectiveSettings(image: CGImage, pixelCorners: seq<Point>): map<FilterKey, FilterValue>
    requires |pixelCorners| >= 4
  {
    map[InputImage := ImageValue(FromCGImage(image)),
        InputTopLeft := VectorValue(pixelCorners[0]),
        InputTopRight := VectorValue(pixelCorners[1]),
        InputBottomRight := VectorValue(pixelCorners[2]),
        InputBottomLeft := VectorValue(pixelCorners[3])]
  }

  /** The pixel corners of a normalized quadrilateral on a bitmap: `(x * width, (1 - y) * height)`. */
  function PixelCorners(image: CGImage, corners: seq<Point>): seq<Point> {
    DenormalizeAll(corners, image.width as real, image.height as real)
  }

  /** What `applyPerspectiveCorrection(to:with:)` returns, stated on values. */
  function PerspectiveCorrection(ci: CoreImage, imageData: Data, corners: seq<Point>): Option<UIImage>
    requires ReachesCornerAssignment(ci, imageData) ==> |corners| >= 4
  {
    match ci.decode(imageData)
    case None => None
    case Some(image) =>
      match image.cgImage
      case None => None
      case Some(bitmap) =>
        if !ci.hasPerspectiveFilter then None
        else
          match ci.outputImage(PerspectiveSettings(bitmap, PixelCorners(bitmap, corners)))
          case None => None
          case Some(output) =>
            match ci.createCGImage(output)
            case None => None
            case Some(rendered) => Some(UIImage(Some(rendered), image.scale, image.orientation))
  }

  /**
   * The source's method: decode, map the corners to pixels, build the filter with successive
   * `setValue` calls, render. Swift traps on `pixelCorners[3]` when fewer than four corners reach
   * the assignments, hence the precondition.
   */
  method ApplyPerspectiveCorrection(ci: CoreImage, imageData: Data, corners: seq<Point>) returns (result: Option<UIImage>)
    requires ReachesCornerAssignment(ci, imageData) ==> |corners| >= 4
    ensures result == PerspectiveCorrection(ci, imageData, corners)
  {
    var uiImage := ci.decode(imageData);
    if uiImage.None? || uiImage.value.cgImage.None? {
      return None;
    }
    var cgImage := uiImage.value.cgImage.value;
    var width := cgImage.width as real;
    var height := cgImage.height as real;
    var pixelCorners := DenormalizeAll(corners, width, height);
    var ciImage := FromCGImage(cgImage);
    if !ci.hasPerspectiveFilter {
      return None;
    }
    var filter := new PerspectiveFilter();
    filter.SetValue(ImageValue(ciImage), InputImage);
    filter.SetValue(VectorValue(pixelCorners[0]), InputTopLeft);
    filter.SetValue(VectorValue(pixelCorners[1]), InputTopRight);
    filter.SetValue(VectorValue(pixelCorners[2]), InputBottomRight);
    filter.SetValue(VectorValue(pixelCorners[3]), InputBottomLeft);
    assert filter.values == PerspectiveSettings(cgImage, pixelCorners);
    var outputCI := ci.outputImage(filter.values);
    if outputCI.None? {
      return None;
    }
    var outputCG := ci.createCGImage(outputCI.value);
    if outputCG.Some? {
      return Some(UIImage(Some(outputCG.value), uiImage.value.scale, uiImage.value.orientation));
    }
    return None;
  }

  /** Every way the correction yields nil: undecodable data, no bitmap, no filter, no output image, no render. */
  lemma CorrectionFailsExactly(ci: CoreImage, imageData: Data, corners: seq<Point>)
    requires ReachesCornerAssignment(ci, imageData) ==> |corners| >= 4
    ensures PerspectiveCorrection(ci, imageData, corners).None? <==>
      (ci.decode(imageData).None? || ci.decode(imageData).value.cgImage.None? || !ci.hasPerspectiveFilter
       || ci.outputImage(PerspectiveSettings(DecodedBitmap(ci, imageData).value,
                                             PixelCorners(DecodedBitmap(ci, imageData).value, corners))).None?
       || ci.createCGImage(ci.outputImage(PerspectiveSettings(DecodedBitmap(ci, imageData).value,
                                             PixelCorners(DecodedBitmap(ci, imageData).value, corners))).value).None?)
  {
  }

  /** A corrected image keeps the captured image's scale and orientation, and is backed by a bitmap. */
  lemma CorrectionKeepsScaleAndOrientation(ci: CoreImage, imageData: Data, corners: seq<Point>)
    requires ReachesCornerAssignment(ci, imageData) ==> |corners| >= 4
    requires PerspectiveCorrection(ci, imageData, corners).Some?
    ensures ci.decode(imageData).Some?
    ensures PerspectiveCorrection(ci, imageData, corners).value.scale == ci.decode(imageData).value.scale
    ensures PerspectiveCorrection(ci, imageData, corners).value.orientation == ci.decode(imageData).value.orientation
    ensures PerspectiveCorrection(ci, imageData, corners).value.cgImage.Some?
  {
  }

  /**
   * The filter receives the bitmap and pixel corners 0, 1, 2, 3 as top-left, top-right,
   * bottom-right and bottom-left, each `(x * width, (1 - y) * height)`.
   */
  lemma {:induction false} SettingsAssignCornersInOrder(image: CGImage, corners: seq<Point>)
    requires |corners| >= 4
    ensures var w, h := image.width as real, image.height as real;
      var s := PerspectiveSettings(image, PixelCorners(image, corners));
      && s[InputImage] == ImageValue(FromCGImage(image))
      && s[InputTopLeft] == VectorValue(Point(corners[0].x * w, (1.0 - corners[0].y) * h))
      && s[InputTopRight] == VectorValue(Point(corners[1].x * w, (1.0 - corners[1].y) * h))
      && s[InputBottomRight] == VectorValue(Point(corners[2].x * w, (1.0 - corners[2].y) * h))
      && s[InputBottomLeft] == VectorValue(Point(corners[3].x * w, (1.0 - corners[3].y) * h))
  {
  }

  /** Corners past the fourth are never used: two lists that agree on 0..3 correct identically. */
  lemma {:induction false} OnlyFirstFourCornersMatter(ci: CoreImage, imageData: Data, c1: seq<Point>, c2: seq<Point>)
    requires |c1| >= 4 && |c2| >= 4 && c1[..4] == c2[..4]
    ensures PerspectiveCorrection(ci, imageData, c1) == PerspectiveCorrection(ci, imageData, c2)
  {
    match DecodedBitmap(ci, imageData)
    case None =>
    case Some(bitmap) =>
      var w, h := bitmap.width as real, bitmap.height as real;
      forall i | 0 <= i < 4 ensures PixelCorners(bitmap, c1)[i] == PixelCorners(bitmap, c2)[i] {
        assert c1[i] == c1[..4][i] == c2[..4][i] == c2[i];
      }
      assert PerspectiveSettings(bitmap, PixelCorners(bitmap, c1)) == PerspectiveSettings(bitmap, PixelCorners(bitmap, c2));
  }
}
