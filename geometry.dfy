/**
 * Points, the normalized-to-raster mapping and the four-corner outline path.
 *
 * CGFloat is modelled as an exact `real`, so nothing here says anything about rounding.
 * Both the perspective correction (to image pixels) and the live overlay (to view points)
 * use the same mapping, `Denormalize`.
 */
module Geometry {

  /** A CGPoint. */
  datatype Point = Point(x: real, y: real)

  /** The unit square of Vision's normalized coordinates. */
  predicate InUnitSquare(p: Point) {
    0.0 <= p.x <= 1.0 && 0.0 <= p.y <= 1.0
  }

  /** The rectangle [0, width] x [0, height]. */
  predicate InRect(p: Point, width: real, height: real) {
    0.0 <= p.x <= width && 0.0 <= p.y <= height
  }

  /** Mirrors a normalized point vertically: y becomes 1 - y. */
  function FlipY(p: Point): Point {
    Point(p.x, 1.0 - p.y)
  }

  /** A normalized point (origin bottom-left) placed on a width x height raster (origin top-left). */
  function Denormalize(p: Point, width: real, height: real): Point {
    Point(p.x * width, (1.0 - p.y) * height)
  }

  /** The inverse mapping, from a width x height raster back to normalized coordinates. */
  function Normalize(q: Point, width: real, height: real): Point
    requires width != 0.0 && height != 0.0
  {
    Point(q.x / width, 1.0 - q.y / height)
  }

  /** `corners.map(Denormalize)`: same length, same order, point i mapped from corner i. */
  function DenormalizeAll(corners: seq<Point>, width: real, height: real): (points: seq<Point>)
    ensures |points| == |corners|
    ensures forall i :: 0 <= i < |corners| ==> points[i] == Denormalize(corners[i], width, height)
  {
    if corners == [] then []
    else [Denormalize(corners[0], width, height)] + DenormalizeAll(corners[1..], width, height)
  }

  /** The flip is an involution. */
  lemma FlipYInvolution(p: Point)
    ensures FlipY(FlipY(p)) == p
  {
  }

  /** Denormalizing is scaling the flipped point. */
  lemma DenormalizeIsScaledFlip(p: Point, width: real, height: real)
    ensures Denormalize(p, width, height) == Point(FlipY(p).x * width, FlipY(p).y * height)
  {
  }

  /** A point of the unit square lands inside the raster. */
  lemma DenormalizeBounds(p: Point, width: real, height: real)
    requires InUnitSquare(p) && width >= 0.0 && height >= 0.0
    ensures InRect(Denormalize(p, width, height), width, height)
  {
    var q := Denormalize(p, width, height);
    assert 0.0 <= q.x by { MulNonNegative(p.x, width); }
    assert q.x <= width by { MulNonNegative(1.0 - p.x, width); }
    assert 0.0 <= q.y by { MulNonNegative(1.0 - p.y, height); }
    assert q.y <= height by { MulNonNegative(p.y, height); }
  }

  lemma MulNonNegative(a: real, b: real)
    requires a >= 0.0 && b >= 0.0
    ensures a * b >= 0.0
  {
  }

  /** For a non-degenerate raster, Normalize undoes Denormalize ... */
  lemma NormalizeDenormalize(p: Point, width: real, height: real)
    requires width != 0.0 && height != 0.0
    ensures Normalize(Denormalize(p, width, height), width, height) == p
  {
  }

  /** ... and Denormalize undoes Normalize. */
  lemma DenormalizeNormalize(q: Point, width: real, height: real)
    requires width != 0.0 && height != 0.0
    ensures Denormalize(Normalize(q, width, height), width, height) == q
  {
  }

  /** Every corner of the unit square lands inside the raster, in order. */
  lemma {:induction false} DenormalizeAllBounds(corners: seq<Point>, width: real, height: real)
    requires forall i :: 0 <= i < |corners| ==> InUnitSquare(corners[i])
    requires width >= 0.0 && height >= 0.0
    ensures forall i :: 0 <= i < |corners| ==> InRect(DenormalizeAll(corners, width, height)[i], width, height)
  {
    forall i | 0 <= i < |corners|
      ensures InRect(DenormalizeAll(corners, width, height)[i], width, height)
    {
      DenormalizeBounds(corners[i], width, height);
    }
  }

  /** One CGPath drawing command. */
  datatype PathElement = MoveTo(to: Point) | AddLine(to: Point) | CloseSubpath

  /** `move(to: p0); addLine(to: p1); addLine(to: p2); addLine(to: p3); closeSubpath()`. */
  function QuadOutline(points: seq<Point>): seq<PathElement>
    requires |points| == 4
  {
    [MoveTo(points[0]), AddLine(points[1]), AddLine(points[2]), AddLine(points[3]), CloseSubpath]
  }

  /**
   * The vertices a path visits, in drawing order: a move starts a subpath at its point, a line
   * goes to its point, and closing a subpath goes back to where the subpath started.
   */
  function Trace(path: seq<PathElement>): seq<Point> {
    TraceFrom(path, NoSubpath)
  }

  /** Where the current subpath started, if one has been started. */
  datatype SubpathStart = NoSubpath | StartedAt(p: Point)

  function TraceFrom(path: seq<PathElement>, start: SubpathStart): seq<Point> {
    if path == [] then []
    else match path[0]
      case MoveTo(p) => [p] + TraceFrom(path[1..], StartedAt(p))
      case AddLine(p) => [p] + TraceFrom(path[1..], start)
      case CloseSubpath =>
        (if start.StartedAt? then [start.p] else []) + TraceFrom(path[1..], start)
  }

  /** The outline visits points 0, 1, 2, 3 in that order and closes back at point 0. */
  lemma {:induction false} QuadOutlineTrace(points: seq<Point>)
    requires |points| == 4
    ensures Trace(QuadOutline(points)) == [points[0], points[1], points[2], points[3], points[0]]
  {
    var path := QuadOutline(points);
    var s := StartedAt(points[0]);
    assert TraceFrom(path[4..], s) == [points[0]] + TraceFrom([], s);
    assert TraceFrom(path[3..], s) == [points[3]] + TraceFrom(path[4..], s);
    assert TraceFrom(path[2..], s) == [points[2]] + TraceFrom(path[3..], s);
    assert TraceFrom(path[1..], s) == [points[1]] + TraceFrom(path[2..], s);
  }
}
