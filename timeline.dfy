/**
 * A block's timeline (vgridjs/src/timeline_track.tsx): the window bounds it
 * shares with its controls and navigator, and the `Timeline` component that
 * pans on shift-drag, moves the play time on a click and creates new
 * intervals with the `i` key.
 *
 * The component's props are the objects it shares with the rest of the grid:
 * the bounds, the play time, the grid's label state (of which it edits the
 * new intervals of its own block) and the grid's undo stack. Each is a field
 * here, fixed when the component is built.
 */
module Timeline {
  import opened Js
  import opened Viewport
  import opened Intervals
  import Undo
  import Keyboard
  import LS = LabelState
  import VData

  /** The per-block label states, the state every undoable action works on. */
  type Labels = seq<(int, LS.BlockLabelState)>

  /** The play time shared by a block's video and its timeline. */
  class TimeState {
    var time: real

    constructor (time: real)
      ensures this.time == time
    {
      this.time := time;
    }
  }

  /** `TimelineBounds`: the window the timeline shows. */
  class TimelineBounds {
    var start: real
    var end: real

    constructor ()
      ensures start == 0.0 && end == 0.0
    {
      start := 0.0;
      end := 0.0;
    }

    function Window(): Viewport.Window
      reads this
    {
      Viewport.Window(start, end)
    }

    method SetBounds(w: Viewport.Window)
      modifies this
      ensures Window() == w
    {
      start := w.start;
      end := w.end;
    }
  }

  /** `TimelineTrack`: the window starts out as the whole video. */
  class TimelineTrack {
    const bounds: TimelineBounds

    constructor (numFrames: real, fps: real)
      requires fps != 0.0
      ensures fresh(bounds) && bounds.Window() == Viewport.Window(0.0, numFrames / fps)
    {
      var b := new TimelineBounds();
      b.SetBounds(Viewport.Window(0.0, numFrames / fps));
      bounds := b;
    }
  }

  /** `TimelineControls`: the zoom and pan buttons, which move the shared window. */
  class TimelineControls {
    const time: TimeState
    const bounds: TimelineBounds
    const duration: real

    constructor (time: TimeState, bounds: TimelineBounds, duration: real)
      ensures this.time == time && this.bounds == bounds && this.duration == duration
    {
      this.time := time;
      this.bounds := bounds;
      this.duration := duration;
    }

    method ZoomIn()
      modifies bounds
      ensures bounds.Window() == Viewport.ZoomIn(old(bounds.Window()), time.time)
    {
      bounds.SetBounds(Viewport.ZoomIn(bounds.Window(), time.time));
    }

    method ZoomOut()
      modifies bounds
      ensures bounds.Window() == Viewport.ZoomOut(old(bounds.Window()), duration)
    {
      bounds.SetBounds(Viewport.ZoomOut(bounds.Window(), duration));
    }

    method ShiftEarlier()
      modifies bounds
      ensures bounds.Window() == Viewport.ShiftEarlier(old(bounds.Window()))
    {
      if bounds.start > 0.0 {
        bounds.SetBounds(Viewport.ShiftEarlier(bounds.Window()));
      }
    }

    method ShiftLater()
      modifies bounds
      ensures bounds.Window() == Viewport.ShiftLater(old(bounds.Window()), duration)
    {
      if bounds.end < duration {
        bounds.SetBounds(Viewport.ShiftLater(bounds.Window(), duration));
      }
    }
  }

  /** `TimelineNavigator`: the slider under the timeline. */
  class TimelineNavigator {
    const bounds: TimelineBounds
    const width: real
    const duration: real

    constructor (bounds: TimelineBounds, width: real, duration: real)
      ensures this.bounds == bounds && this.width == width && this.duration == duration
    {
      this.bounds := bounds;
      this.width := width;
      this.duration := duration;
    }

    /** `handleChange`: the slider moved to `value`. */
    method HandleChange(value: real)
      requires width != 0.0
      modifies bounds
      ensures bounds.Window() == Navigate(value, width, duration, old(bounds.Window()).Span())
    {
      bounds.SetBounds(Navigate(value, width, duration, bounds.Window().Span()));
    }
  }

  // ---------------------------------------------------------------------------
  // The rows of the timeline.
  // ---------------------------------------------------------------------------

  /** Whether an interval reaches into the window, which `TimelineRow` asks
      with strict comparisons. */
  predicate ReachesInto(b: Bounds, w: Viewport.Window)
  {
    b.t2 > w.start && b.t1 < w.end
  }

  /** The rectangle `(x, width)` `TimelineRow.render_canvas` fills for an
      interval: from the pixel of its start, but not left of the canvas, to
      the pixel of its end, but at least one pixel wide. */
  function RowRect(b: Bounds, w: Viewport.Window, fullWidth: real): (r: Option<(real, real)>)
    requires w.Span() != 0.0
    ensures r.Some? <==> ReachesInto(b, w)
    ensures r.Some? ==> r.value.0 >= 0.0 && r.value.1 >= 1.0
    ensures r.Some? && TimeToX(b.t1, w, fullWidth) >= 0.0 ==> r.value.0 == TimeToX(b.t1, w, fullWidth)
    ensures r.Some? && TimeToX(b.t2, w, fullWidth) >= r.value.0 + 1.0 ==> r.value.0 + r.value.1 == TimeToX(b.t2, w, fullWidth)
  {
    if b.t2 > w.start && b.t1 < w.end then
      var x1 := (b.t1 - w.start) / w.Span() * fullWidth;
      var x := if x1 > 0.0 then x1 else 0.0;
      var x2 := (b.t2 - w.start) / w.Span() * fullWidth;
      Some((x, if x2 - x > 1.0 then x2 - x else 1.0))
    else None
  }

  /** The rectangles drawn for a set, in order: one for each interval that
      reaches into the window. */
  function RowRects<P>(s: IntervalSet<P>, w: Viewport.Window, fullWidth: real): (r: seq<(real, real)>)
    requires w.Span() != 0.0
    ensures |r| <= |s|
    ensures r == [] <==> forall i :: 0 <= i < |s| ==> !ReachesInto(s[i].bounds, w)
    ensures (forall i :: 0 <= i < |s| ==> ReachesInto(s[i].bounds, w)) ==> |r| == |s|
    ensures forall i :: 0 <= i < |r| ==> r[i].0 >= 0.0 && r[i].1 >= 1.0
  {
    if s == [] then []
    else
      var init := s[..|s| - 1];
      assert forall i :: 0 <= i < |init| ==> init[i] == s[i];
      var rects := RowRects(init, w, fullWidth);
      match RowRect(s[|s| - 1].bounds, w, fullWidth)
      case None => rects
      case Some(rect) => rects + [rect]
  }

  /** `TimelineRow.render_canvas`: the `forEach` over the set, filling one
      rectangle per interval that reaches into the window. */
  method DrawRow<P>(s: IntervalSet<P>, w: Viewport.Window, fullWidth: real) returns (rects: seq<(real, real)>)
    requires w.Span() != 0.0
    ensures rects == RowRects(s, w, fullWidth)
  {
    rects := [];
    for i := 0 to |s|
      invariant rects == RowRects(s[..i], w, fullWidth)
    {
      assert s[..i + 1][..i] == s[..i];
      var rect := RowRect(s[i].bounds, w, fullWidth);
      if rect.Some? {
        rects := rects + [rect.value];
      }
    }
    assert s[..|s|] == s;
  }

  // ---------------------------------------------------------------------------
  // The new intervals of one block, and the action that adds one.
  // ---------------------------------------------------------------------------

  /** Block `b`'s new intervals with `iv` added. */
  function AddNew(labels: Labels, b: int, iv: Interval<VData.Payload>): Labels
  {
    LS.UpdateNewIntervals(labels, b, s => Add(s, iv))
  }

  /** Block `b`'s new intervals without the interval `id`. */
  function RemoveNew(labels: Labels, b: int, id: nat): Labels
  {
    LS.UpdateNewIntervals(labels, b, s => Remove(s, id))
  }

  /** Block `b`'s new intervals with the interval `iv.id` taken out and `iv`
      put back at the end. */
  function Recycle(labels: Labels, b: int, iv: Interval<VData.Payload>): Labels
  {
    LS.UpdateNewIntervals(labels, b, s => Add(Remove(s, iv.id), iv))
  }

  /** The undoable action `create_interval` pushes. */
  function AddIntervalAction(b: int, iv: Interval<VData.Payload>): Undo.Action<Labels>
  {
    Undo.Action("add time interval", (w: Labels) => AddNew(w, b, iv), (w: Labels) => RemoveNew(w, b, iv.id))
  }

  /** The interval `create_interval` makes at time `t`: an instant, labelled
      as a box with no metadata. */
  function PointInterval(id: nat, t: real): (iv: Interval<VData.Payload>)
    ensures iv.id == id && iv.bounds.t1 == t && iv.bounds.t2 == t && iv.data == VData.BoxPayload
  {
    Interval(id, Instant(t), VData.BoxPayload)
  }

  /** Whether block `b` has a label state whose new intervals hold `id`. */
  predicate HoldsNew(labels: Labels, b: int, id: nat)
  {
    Get(labels, b).Some? && HasId(Get(labels, b).value.newIntervals, id)
  }

  /** The action's `undo` takes back its `do_` as long as the interval was not
      already one of the block's new intervals: a new object never is. */
  lemma AddIntervalUndoes(labels: Labels, b: int, iv: Interval<VData.Payload>)
    requires !HoldsNew(labels, b, iv.id)
    ensures Undo.UndoesAt(AddIntervalAction(b, iv), labels)
  {
    match Get(labels, b)
    case None =>
    case Some(s) =>
      var s1 := s.(newIntervals := Add(s.newIntervals, iv));
      var added := AddNew(labels, b, iv);
      assert added == Put(labels, b, s1);
      GetPut(labels, b, s1, b);
      RemoveAdded(s.newIntervals, iv);
      assert RemoveNew(added, b, iv.id) == Put(Put(labels, b, s1), b, s);
      PutPut(labels, b, s1, s);
      PutGet(labels, b);
  }

  /** Putting back an interval with the same identity keeps the block's set of
      identities: `componentDidUpdate` does not change which intervals are in
      the set, only where the stretched one sits. */
  lemma RecycleKeepsMembers(labels: Labels, b: int, iv: Interval<VData.Payload>, id: nat)
    requires HoldsNew(labels, b, iv.id)
    ensures HoldsNew(Recycle(labels, b, iv), b, id) <==> HoldsNew(labels, b, id)
    ensures Keys(Recycle(labels, b, iv)) == Keys(labels)
  {
    var s := Get(labels, b).value.newIntervals;
    assert Get(Recycle(labels, b, iv), b).value.newIntervals == Add(Remove(s, iv.id), iv);
    ReAddKeepsIds(s, iv, id);
  }

  lemma ReAddKeepsIds<P>(s: IntervalSet<P>, iv: Interval<P>, id: nat)
    ensures HasId(Add(Remove(s, iv.id), iv), id) <==> (HasId(s, id) || id == iv.id)
  {
    var r := Add(Remove(s, iv.id), iv);
    if id == iv.id {
      assert r[|r| - 1].id == id;
    } else if HasId(s, id) {
      var i :| 0 <= i < |s| && s[i].id == id;
      assert s[i] in Remove(s, iv.id);
      var j :| 0 <= j < |Remove(s, iv.id)| && Remove(s, iv.id)[j] == s[i];
      assert r[j].id == id;
    }
  }

  // ---------------------------------------------------------------------------
  // The component.
  // ---------------------------------------------------------------------------

  datatype Command = CreateIntervalKey

  /** `key_bindings`: `i` creates an interval in both modes. */
  const Bindings: seq<(Keyboard.KeyMode, seq<(string, Command)>)> :=
    [(Keyboard.Standalone, [("i", CreateIntervalKey)]), (Keyboard.Jupyter, [("i", CreateIntervalKey)])]

  class Timeline {
    const bounds: TimelineBounds
    const time: TimeState
    const labels: LS.LabelState
    const stack: Undo.ActionStack<Labels>
    const block: int
    const width: real
    const duration: real
    const mode: Keyboard.KeyMode

    var shiftHeld: bool
    var drag: Drag
    /** The interval being created, stretched to the play time as it moves. */
    var newInterval: Option<Interval<VData.Payload>>

    constructor (bounds: TimelineBounds, time: TimeState, labels: LS.LabelState, stack: Undo.ActionStack<Labels>,
                 block: int, width: real, duration: real, mode: Keyboard.KeyMode)
      ensures this.bounds == bounds && this.time == time && this.labels == labels && this.stack == stack
      ensures this.block == block && this.width == width && this.duration == duration && this.mode == mode
      ensures !shiftHeld && drag == NoDrag && newInterval == None
    {
      this.bounds := bounds;
      this.time := time;
      this.labels := labels;
      this.stack := stack;
      this.block := block;
      this.width := width;
      this.duration := duration;
      this.mode := mode;
      shiftHeld := false;
      drag := NoDrag;
      newInterval := None;
    }

    /** `create_interval`: with no interval in progress, push the action that
        adds an instant at the play time to the block's new intervals (running
        it) and remember the interval; otherwise stop creating. `id` is the
        identity of the new interval object. */
    method CreateInterval(id: nat)
      modifies this, labels, stack
      ensures old(newInterval).None? ==>
                var iv := PointInterval(id, time.time);
                && newInterval == Some(iv)
                && stack.Stacks() == Undo.History(old(stack.Stacks()).done + [AddIntervalAction(block, iv)], old(stack.Stacks()).undone)
                && labels.blockLabels == AddNew(old(labels.blockLabels), block, iv)
      ensures old(newInterval).Some? ==>
                newInterval == None && stack.Stacks() == old(stack.Stacks()) && labels.blockLabels == old(labels.blockLabels)
      ensures labels.blocksSelected == old(labels.blocksSelected)
      ensures shiftHeld == old(shiftHeld) && drag == old(drag)
    {
      if newInterval.None? {
        var iv := PointInterval(id, time.time);
        var w := stack.Push(AddIntervalAction(block, iv), labels.blockLabels);
        labels.blockLabels := w;
        newInterval := Some(iv);
      } else {
        newInterval := None;
      }
    }

    /** `componentDidUpdate`: while an interval is being created and the play
        time is past its start and not already its end, its end becomes the
        play time and it is cycled out of and back into the block's set. */
    method DidUpdate()
      modifies this, labels
      ensures var t := time.time;
              match old(newInterval)
              case None => newInterval == None && labels.blockLabels == old(labels.blockLabels)
              case Some(iv) =>
                if t > iv.bounds.t1 && t != iv.bounds.t2 then
                  var iv' := iv.(bounds := iv.bounds.(t2 := t));
                  newInterval == Some(iv') && labels.blockLabels == Recycle(old(labels.blockLabels), block, iv')
                else newInterval == old(newInterval) && labels.blockLabels == old(labels.blockLabels)
      ensures labels.blocksSelected == old(labels.blocksSelected)
      ensures shiftHeld == old(shiftHeld) && drag == old(drag)
    {
      var t := time.time;
      if newInterval.Some? {
        var iv := newInterval.value;
        if t > iv.bounds.t1 && t != iv.bounds.t2 {
          var iv' := iv.(bounds := iv.bounds.(t2 := t));
          newInterval := Some(iv');
          labels.blockLabels := Recycle(labels.blockLabels, block, iv');
        }
      }
    }

    method OnKeyDown(key: string)
      modifies this
      ensures shiftHeld == (old(shiftHeld) || key == "Shift")
      ensures drag == old(drag) && newInterval == old(newInterval)
    {
      if key == "Shift" {
        shiftHeld := true;
      }
    }

    /** `onKeyUp`: releasing Shift ends panning mode; the key's binding (only
        `i`, in either case) creates or finishes an interval. */
    method OnKeyUp(key: string, id: nat)
      modifies this, labels, stack
      ensures shiftHeld == (old(shiftHeld) && key != "Shift")
      ensures Keyboard.KeyDispatch(Bindings, mode, key) == Ok(None) ==>
                newInterval == old(newInterval) && labels.blockLabels == old(labels.blockLabels)
                && stack.Stacks() == old(stack.Stacks())
      ensures Keyboard.KeyDispatch(Bindings, mode, key) == Ok(Some(CreateIntervalKey)) && old(newInterval).None? ==>
                var iv := PointInterval(id, time.time);
                && newInterval == Some(iv)
                && stack.Stacks() == Undo.History(old(stack.Stacks()).done + [AddIntervalAction(block, iv)], old(stack.Stacks()).undone)
                && labels.blockLabels == AddNew(old(labels.blockLabels), block, iv)
      ensures Keyboard.KeyDispatch(Bindings, mode, key) == Ok(Some(CreateIntervalKey)) && old(newInterval).Some? ==>
                newInterval == None && stack.Stacks() == old(stack.Stacks()) && labels.blockLabels == old(labels.blockLabels)
      ensures labels.blocksSelected == old(labels.blocksSelected)
      ensures drag == old(drag)
    {
      if key == "Shift" {
        shiftHeld := false;
      }
      var bound := Keyboard.KeyDispatch(Bindings, mode, key);
      if bound == Ok(Some(CreateIntervalKey)) {
        CreateInterval(id);
      }
    }

    /** `onMouseLeave`: forget any drag and the Shift key. */
    method OnMouseLeave()
      modifies this
      ensures !shiftHeld && drag == old(drag).(dragging := false) && newInterval == old(newInterval)
    {
      drag := drag.(dragging := false);
      shiftHeld := false;
    }

    /** `onMouseDown`: with Shift held, a drag starts from the current window. */
    method OnMouseDown(x: real, y: real)
      requires width != 0.0
      modifies this
      ensures old(shiftHeld) ==>
                drag == Drag(true, x, y, XToTime(x, bounds.Window(), width), bounds.start, bounds.end)
      ensures !old(shiftHeld) ==> drag == old(drag)
      ensures shiftHeld == old(shiftHeld) && newInterval == old(newInterval)
    {
      if shiftHeld {
        drag := Drag(true, x, y, XToTime(x, bounds.Window(), width), bounds.start, bounds.end);
      }
    }

    /** `onMouseMove`: while dragging, the window follows the mouse unless it
        would leave the video. */
    method OnMouseMove(x: real, y: real)
      requires width != 0.0
      modifies bounds
      ensures drag.dragging && DragTo(drag, x, old(bounds.Window()), width, duration).Some? ==>
                bounds.Window() == DragTo(drag, x, old(bounds.Window()), width, duration).value
      ensures !(drag.dragging && DragTo(drag, x, old(bounds.Window()), width, duration).Some?) ==>
                bounds.Window() == old(bounds.Window())
    {
      if drag.dragging {
        var moved := DragTo(drag, x, bounds.Window(), width, duration);
        if moved.Some? {
          bounds.SetBounds(moved.value);
        }
      }
    }

    /** `onMouseUp`: a plain click moves the play time to the clicked time; the
        end of a drag only ends the drag. */
    method OnMouseUp(x: real, y: real)
      requires width != 0.0
      modifies this, time
      ensures !old(drag.dragging) ==> time.time == XToTime(x, bounds.Window(), width) && drag == old(drag)
      ensures old(drag.dragging) ==> time.time == old(time.time) && drag == old(drag).(dragging := false)
      ensures shiftHeld == old(shiftHeld) && newInterval == old(newInterval)
    {
      if !drag.dragging {
        time.time := XToTime(x, bounds.Window(), width);
      } else {
        drag := drag.(dragging := false);
      }
    }
  }

  /** The rows `render` draws: one per named set, in order, and a last row
      for the new intervals when there are any. */
  function RowKeys(names: seq<string>, newCount: nat): (keys: seq<string>)
    ensures |keys| == |names| + (if newCount > 0 then 1 else 0)
    ensures keys[..|names|] == names
    ensures newCount > 0 ==> keys[|names|] == "__new_intervals"
  {
    if newCount > 0 then names + ["__new_intervals"] else names
  }

  /** The set row `i` draws: the new intervals for any row keyed
      `'__new_intervals'`, so a named set of that name is hidden by them. */
  function RowSet<P>(keys: seq<string>, sets: seq<IntervalSet<P>>, newIntervals: IntervalSet<P>, i: nat): (r: Option<IntervalSet<P>>)
    requires i < |keys|
    ensures keys[i] == "__new_intervals" ==> r == Some(newIntervals)
    ensures keys[i] != "__new_intervals" && i < |sets| ==> r == Some(sets[i])
    ensures keys[i] != "__new_intervals" && i >= |sets| ==> r.None?
  {
    if keys[i] == "__new_intervals" then Some(newIntervals)
    else if i < |sets| then Some(sets[i])
    else None
  }
}
