/**
 * CornerEditorView: manual adjustment of a quadrilateral before correction.
 *
 * `adjustedCorners` starts as the initial corners; a drag of handle i overwrites entry i with
 * the drag location exactly as delivered (no clamping to the image, no conversion between the
 * displayed image and its pixels); Save hands the current corners to `onSave`, Cancel calls
 * `onCancel` with nothing. The callbacks' arguments are the methods' results.
 */
module CornerEditor {
  import opened Wrappers
  import opened Geometry
  import opened DocumentProcessor

  /** One `DragGesture().onChanged` delivery on handle `index`. */
  datatype DragEvent = DragEvent(index: nat, location: Point)

  /** What the editor hands back: `onSave(corners)` or `onCancel()`. */
  datatype EditorOutcome = Saved(corners: seq<Point>) | Cancelled

  /** A drag handle: the corner index it edits and where it is drawn. */
  datatype Handle = Handle(index: nat, position: Point)

  predicate DragsInRange(drags: seq<DragEvent>, count: nat) {
    forall k :: 0 <= k < |drags| ==> drags[k].index < count
  }

  /** The corners after a series of drags, each overwriting one entry. */
  function ApplyDrags(corners: seq<Point>, drags: seq<DragEvent>): (result: seq<Point>)
    requires DragsInRange(drags, |corners|)
    ensures |result| == |corners|
    decreases |drags|
  {
    if drags == [] then corners
    else ApplyDrags(corners[drags[0].index := drags[0].location], drags[1..])
  }

  /** The location of the last drag of handle j, if there was one. */
  function LastDragOf(drags: seq<DragEvent>, j: nat): Option<Point> {
    if drags == [] then None
    else if drags[|drags| - 1].index == j then Some(drags[|drags| - 1].location)
    else LastDragOf(drags[..|drags| - 1], j)
  }

  lemma {:induction false} ApplyDragsSnoc(corners: seq<Point>, drags: seq<DragEvent>, d: DragEvent)
    requires DragsInRange(drags + [d], |corners|)
    ensures DragsInRange(drags, |corners|) && d.index < |corners|
    ensures ApplyDrags(corners, drags + [d]) == ApplyDrags(corners, drags)[d.index := d.location]
    decreases |drags|
  {
    assert DragsInRange(drags, |corners|) by {
      forall k | 0 <= k < |drags| ensures drags[k].index < |corners| {
        assert drags[k] == (drags + [d])[k];
      }
    }
    assert d == (drags + [d])[|drags|];
    if drags == [] {
      assert [d][1..] == [];
    } else {
      var c' := corners[drags[0].index := drags[0].location];
      assert (drags + [d])[1..] == drags[1..] + [d];
      ApplyDragsSnoc(c', drags[1..], d);
    }
  }

  /**
   * After any series of drags, entry j is the location of the last drag of handle j, or the
   * initial corner j if that handle was never dragged. Locations are stored as delivered.
   */
  lemma {:induction false} ApplyDragsAt(corners: seq<Point>, drags: seq<DragEvent>, j: nat)
    requires DragsInRange(drags, |corners|) && j < |corners|
    ensures ApplyDrags(corners, drags)[j] ==
      match LastDragOf(drags, j)
      case Some(location) => location
      case None => corners[j]
    decreases |drags|
  {
    if drags != [] {
      var init, last := drags[..|drags| - 1], drags[|drags| - 1];
      assert drags == init + [last];
      ApplyDragsSnoc(corners, init, last);
      if last.index != j {
        ApplyDragsAt(corners, init, j);
      }
    }
  }

  class CornerEditorView {
    const originalImage: UIImage
    const initialCorners: seq<Point>
    var adjustedCorners: seq<Point>
    ghost var drags: seq<DragEvent>

    /** The corners are always the initial corners with the drags so far applied. */
    ghost predicate Valid()
      reads this
    {
      DragsInRange(drags, |initialCorners|) && adjustedCorners == ApplyDrags(initialCorners, drags)
    }

    constructor (originalImage: UIImage, initialCorners: seq<Point>)
      ensures Valid() && drags == []
      ensures this.originalImage == originalImage && this.initialCorners == initialCorners
      ensures adjustedCorners == initialCorners
    {
      this.originalImage := originalImage;
      this.initialCorners := initialCorners;
      adjustedCorners := initialCorners;
      drags := [];
    }

    /** One handle per corner index, drawn at that corner. */
    function Handles(): (handles: seq<Handle>)
      reads this
      ensures |handles| == |adjustedCorners|
      ensures forall i :: 0 <= i < |handles| ==> handles[i].index == i && handles[i].position == adjustedCorners[i]
    {
      seq(|adjustedCorners|, i requires 0 <= i < |adjustedCorners| reads this => Handle(i, adjustedCorners[i]))
    }

    /** The yellow outline: empty unless there are 4 corners, then 0, 1, 2, 3 and back to 0. */
    function Outline(): (path: seq<PathElement>)
      reads this
      ensures |adjustedCorners| != 4 ==> path == []
      ensures |adjustedCorners| == 4 ==>
        Trace(path) == [adjustedCorners[0], adjustedCorners[1], adjustedCorners[2], adjustedCorners[3], adjustedCorners[0]]
    {
      if |adjustedCorners| != 4 then []
      else
        QuadOutlineTrace(adjustedCorners);
        QuadOutline(adjustedCorners)
    }

    /** Dragging handle i stores the location in entry i; the length and every other entry stay. */
    method Drag(i: nat, location: Point)
      requires Valid() && i < |adjustedCorners|
      modifies this
      ensures Valid() && drags == old(drags) + [DragEvent(i, location)]
      ensures adjustedCorners == old(adjustedCorners)[i := location]
      ensures |adjustedCorners| == |old(adjustedCorners)| && adjustedCorners[i] == location
      ensures forall j :: 0 <= j < |adjustedCorners| && j != i ==> adjustedCorners[j] == old(adjustedCorners)[j]
    {
      ApplyDragsSnoc(initialCorners, drags, DragEvent(i, location));
      adjustedCorners := adjustedCorners[i := location];
      drags := drags + [DragEvent(i, location)];
    }

    /** "Save Scan": the current corners, unchanged, each the last drag of its handle or the initial corner. */
    method Save() returns (outcome: EditorOutcome)
      requires Valid()
      ensures outcome == Saved(adjustedCorners)
      ensures |outcome.corners| == |initialCorners|
      ensures forall j :: 0 <= j < |initialCorners| ==>
        outcome.corners[j] == match LastDragOf(drags, j)
          case Some(location) => location
          case None => initialCorners[j]
    {
      forall j | 0 <= j < |initialCorners|
        ensures adjustedCorners[j] == match LastDragOf(drags, j)
          case Some(location) => location
          case None => initialCorners[j]
      {
        ApplyDragsAt(initialCorners, drags, j);
      }
      outcome := Saved(adjustedCorners);
    }

    /** "Cancel": no corners. */
    method Cancel() returns (outcome: EditorOutcome)
      ensures outcome == Cancelled
    {
      outcome := Cancelled;
    }
  }

  /** Nothing clamps a drag: a location outside the unit square and the image is stored as it is. */
  method DragOutsideIsKept(editor: CornerEditorView)
    requires editor.Valid() && |editor.adjustedCorners| == 4
    modifies editor
    ensures editor.Valid() && editor.adjustedCorners[2] == Point(-5.0, 1000.0)
  {
    editor.Drag(2, Point(-5.0, 1000.0));
  }
}
