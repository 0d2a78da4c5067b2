/**
 * The box-labelling tool drawn over a block's video (`BboxLabelView` in
 * vgridjs/src/spatial/bbox.tsx). Holding Shift and pressing the mouse starts a
 * box at that point, moving the mouse drags its other corner, and releasing
 * the mouse adds an instant interval holding the box to the block's new
 * intervals. Points are kept as fractions of the view's width and height.
 */
module BboxLabel {
  import opened Js
  import opened Intervals
  import VData
  import Timeline
  import LS = LabelState

  datatype Point = Point(x: real, y: real)

  /** `make_interval`: an instant at the play time, with the box spanned from
      the press point to the current point as they are (`x1` is the press
      point's `x` even when it lies right of the current point), labelled as
      a box with no metadata. `id` is the identity of the new object. */
  function MakeInterval(id: nat, t: real, start: Point, end: Point): (iv: Interval<VData.Payload>)
    ensures iv.id == id && iv.bounds.t1 == t && iv.bounds.t2 == t
    ensures iv.bounds.bbox.x1 == start.x && iv.bounds.bbox.x2 == end.x
    ensures iv.bounds.bbox.y1 == start.y && iv.bounds.bbox.y2 == end.y
    ensures iv.data == VData.BoxPayload
  {
    Interval(id, Bounds(t, t, BoundingBox(start.x, end.x, start.y, end.y)), VData.BoxPayload)
  }

  /** A box dragged up and to the left is stored with its corners swapped:
      its left edge is right of its right edge. */
  lemma DraggedBackwardsIsInverted(id: nat, t: real, start: Point, end: Point)
    requires end.x < start.x
    ensures MakeInterval(id, t, start, end).bounds.bbox.x1 > MakeInterval(id, t, start, end).bounds.bbox.x2
  {
  }

  class BboxLabelView {
    const labels: LS.LabelState
    const block: int
    const time: Timeline.TimeState
    const width: real
    const height: real

    var shiftHeld: bool
    var mousedownPoint: Option<Point>
    var mousemovePoint: Option<Point>

    /** A press point is never without a current point, and the other way
        round. */
    predicate Valid()
      reads this
    {
      mousedownPoint.Some? <==> mousemovePoint.Some?
    }

    constructor (labels: LS.LabelState, block: int, time: Timeline.TimeState, width: real, height: real)
      ensures this.labels == labels && this.block == block && this.time == time
      ensures this.width == width && this.height == height
      ensures Valid() && !shiftHeld && mousedownPoint == None && mousemovePoint == None
    {
      this.labels := labels;
      this.block := block;
      this.time := time;
      this.width := width;
      this.height := height;
      shiftHeld := false;
      mousedownPoint := None;
      mousemovePoint := None;
    }

    /** `onKeyDown`: Shift arms the tool; other keys change nothing. */
    method OnKeyDown(key: string)
      modifies this
      ensures shiftHeld == (key == "Shift" || old(shiftHeld))
      ensures mousedownPoint == old(mousedownPoint) && mousemovePoint == old(mousemovePoint)
    {
      if key == "Shift" {
        shiftHeld := true;
      }
    }

    /** `onKeyUp`: releasing Shift disarms it; other keys change nothing. */
    method OnKeyUp(key: string)
      modifies this
      ensures shiftHeld == (key != "Shift" && old(shiftHeld))
      ensures mousedownPoint == old(mousedownPoint) && mousemovePoint == old(mousemovePoint)
    {
      if key == "Shift" {
        shiftHeld := false;
      }
    }

    /** `reset_state`, which is also all `onMouseLeave` does. */
    method ResetState()
      modifies this
      ensures Valid() && !shiftHeld && mousedownPoint == None && mousemovePoint == None
    {
      shiftHeld := false;
      mousedownPoint := None;
      mousemovePoint := None;
    }

    /** `onMouseDown`: with Shift held, the press point, as a fraction of the
        view, becomes both the press point and the current point. */
    method OnMouseDown(x: real, y: real)
      requires Valid() && width != 0.0 && height != 0.0
      modifies this
      ensures Valid() && shiftHeld == old(shiftHeld)
      ensures old(shiftHeld) ==>
                mousedownPoint == Some(Point(x / width, y / height)) && mousemovePoint == mousedownPoint
      ensures !old(shiftHeld) ==> mousedownPoint == old(mousedownPoint) && mousemovePoint == old(mousemovePoint)
    {
      if shiftHeld {
        var p := Point(x / width, y / height);
        mousedownPoint := Some(p);
        mousemovePoint := Some(p);
      }
    }

    /** `onMouseMove`: the current point follows the mouse while a box is
        being drawn. */
    method OnMouseMove(x: real, y: real)
      requires Valid() && width != 0.0 && height != 0.0
      modifies this
      ensures Valid() && shiftHeld == old(shiftHeld) && mousedownPoint == old(mousedownPoint)
      ensures old(mousedownPoint).Some? ==> mousemovePoint == Some(Point(x / width, y / height))
      ensures old(mousedownPoint).None? ==> mousemovePoint == old(mousemovePoint)
    {
      if mousedownPoint.Some? {
        mousemovePoint := Some(Point(x / width, y / height));
      }
    }

    /** `onMouseUp`: a box being drawn is added, as one interval, straight to
        the block's new intervals (not through the undo stack), and the tool
        is reset; with no box it does nothing. */
    method OnMouseUp(id: nat)
      requires Valid()
      modifies this, labels
      ensures Valid()
      ensures old(mousedownPoint).Some? ==>
                && labels.blockLabels == Timeline.AddNew(old(labels.blockLabels), block,
                                           MakeInterval(id, time.time, old(mousedownPoint).value, old(mousemovePoint).value))
                && !shiftHeld && mousedownPoint == None && mousemovePoint == None
      ensures old(mousedownPoint).None? ==>
                && labels.blockLabels == old(labels.blockLabels)
                && shiftHeld == old(shiftHeld) && mousedownPoint == None && mousemovePoint == None
      ensures labels.blocksSelected == old(labels.blocksSelected)
    {
      if mousedownPoint.Some? {
        var iv := MakeInterval(id, time.time, mousedownPoint.value, mousemovePoint.value);
        labels.blockLabels := Timeline.AddNew(labels.blockLabels, block, iv);
        ResetState();
      }
    }
  }

  /** A finished box adds exactly one interval to its block's new
      intervals, at the end, and leaves every other block alone. */
  lemma MouseUpAddsOne(labels: Timeline.Labels, b: int, iv: Interval<VData.Payload>)
    requires Get(labels, b).Some?
    ensures var after := Timeline.AddNew(labels, b, iv);
            && Get(after, b).Some?
            && Get(after, b).value.newIntervals == Get(labels, b).value.newIntervals + [iv]
            && (forall k :: k != b ==> Get(after, k) == Get(labels, k))
            && Keys(after) == Keys(labels)
  {
  }
}
