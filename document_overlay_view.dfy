/**
 * DocumentOverlayView: the live outline drawn over the camera preview.
 *
 * Nothing is drawn unless there are exactly four corners. Both the stroked outline and its
 * filled mask are built from the same view points, `(x * W, (1 - y) * H)` for a W x H view.
 */
module DocumentOverlay {
  import opened Wrappers
  import opened Geometry

  /** The GeometryReader's size. */
  datatype Size = Size(width: real, height: real)

  /** The two paths of the body: the stroked outline and the mask of the filled background. */
  datatype OverlayLayers = OverlayLayers(stroke: seq<PathElement>, mask: seq<PathElement>)

  /** The view points of the corners. */
  function ViewPoints(corners: seq<Point>, size: Size): seq<Point> {
    DenormalizeAll(corners, size.width, size.height)
  }

  /** The body: nothing unless 4 corners, otherwise the same outline of the view points twice. */
  function Body(corners: seq<Point>, size: Size): (layers: Option<OverlayLayers>)
    ensures layers.Some? <==> |corners| == 4
    ensures layers.Some? ==> layers.value.stroke == layers.value.mask
    ensures layers.Some? ==>
      var p := ViewPoints(corners, size);
      Trace(layers.value.stroke) == [p[0], p[1], p[2], p[3], p[0]]
  {
    if |corners| == 4 then
      var pts := ViewPoints(corners, size);
      QuadOutlineTrace(pts);
      Some(OverlayLayers(QuadOutline(pts), QuadOutline(pts)))
    else None
  }

  /** The outline visits view point i = (x_i * W, (1 - y_i) * H) for i = 0, 1, 2, 3, then point 0 again. */
  lemma {:induction false} OutlineVertices(corners: seq<Point>, size: Size)
    requires |corners| == 4
    ensures var w, h := size.width, size.height;
      Trace(Body(corners, size).value.stroke) ==
        [Denormalize(corners[0], w, h), Denormalize(corners[1], w, h), Denormalize(corners[2], w, h),
         Denormalize(corners[3], w, h), Denormalize(corners[0], w, h)]
  {
    var p := ViewPoints(corners, size);
    assert Trace(Body(corners, size).value.stroke) == [p[0], p[1], p[2], p[3], p[0]];
  }

  /** Corners inside the unit square give an outline inside the view. */
  lemma {:induction false} OutlineInsideView(corners: seq<Point>, size: Size)
    requires |corners| == 4 && forall i :: 0 <= i < 4 ==> InUnitSquare(corners[i])
    requires size.width >= 0.0 && size.height >= 0.0
    ensures forall q :: q in Trace(Body(corners, size).value.stroke) ==> InRect(q, size.width, size.height)
  {
    DenormalizeAllBounds(corners, size.width, size.height);
  }
}
