/**
 * The older front end's timeline (src/timeline_track.tsx). Its window
 * arithmetic, zoom and pan buttons, drag handlers and tick labels are the
 * same code as the newer timeline's (modules `Viewport` and `Timeline`);
 * what differs is kept here: rows that redraw only when their props change
 * or their set is marked dirty, rows drawn on one wide canvas shifted left
 * by the window's start, and interval creation that pushes straight onto the
 * block's list instead of going through an undo stack.
 */
module LegacyTimeline {
  import opened Js
  import opened Viewport
  import opened LegacyInterval
  import Keyboard
  import Tl = Timeline

  /** `shallowCompare(obj1, obj2)`: as many keys in both, and every key of
      the first an own key of the second holding the identical value. */
  function ShallowCompare<V(==)>(obj1: seq<(string, V)>, obj2: seq<(string, V)>): (r: bool)
    ensures r <==> |obj1| == |obj2| && forall i :: 0 <= i < |obj1| ==> Get(obj2, obj1[i].0) == Some(obj1[i].1)
  {
    |obj1| == |obj2| && EveryKeyMatches(obj1, obj2)
  }

  function EveryKeyMatches<V(==)>(obj1: seq<(string, V)>, obj2: seq<(string, V)>): (r: bool)
    ensures r <==> forall i :: 0 <= i < |obj1| ==> Get(obj2, obj1[i].0) == Some(obj1[i].1)
  {
    if obj1 == [] then true
    else
      assert forall i :: 1 <= i < |obj1| ==> obj1[i] == obj1[1..][i - 1];
      Get(obj2, obj1[0].0) == Some(obj1[0].1) && EveryKeyMatches(obj1[1..], obj2)
  }

  /** Props compare equal to themselves; changing the value of one prop makes
      them differ. */
  lemma ShallowCompareFacts<V>(obj: seq<(string, V)>, k: string, v: V)
    requires DistinctKeys(obj) && HasKey(obj, k) && Get(obj, k) != Some(v)
    ensures ShallowCompare(obj, obj)
    ensures !ShallowCompare(obj, Put(obj, k, v))
  {
    forall i | 0 <= i < |obj| ensures Get(obj, obj[i].0) == Some(obj[i].1) {
      GetOfDistinct(obj, i);
    }
    PutKeepsDistinct(obj, k, v);
    var i :| 0 <= i < |obj| && obj[i].0 == k;
    GetOfDistinct(obj, i);
    GetPut(obj, k, v, k);
  }

  lemma {:induction false} GetOfDistinct<V>(d: seq<(string, V)>, i: nat)
    requires DistinctKeys(d) && i < |d|
    ensures Get(d, d[i].0) == Some(d[i].1)
  {
    if i > 0 {
      assert d[1..][i - 1] == d[i];
      GetOfDistinct(d[1..], i - 1);
    }
  }

  /** A block's list of new intervals, with the `dirty` mark the timeline
      sets when it changes the list behind the renderer's back. */
  class IntervalList<P> {
    var items: IntervalSet<P>
    var dirty: bool

    constructor (items: IntervalSet<P>)
      ensures this.items == items && !dirty
    {
      this.items := items;
      dirty := false;
    }
  }

  /** `TimelineRow.shouldComponentUpdate`: redraw when the props changed or the
      set is dirty. */
  function ShouldRowUpdate<V(==)>(props: seq<(string, V)>, next: seq<(string, V)>, dirty: bool): (r: bool)
    ensures r <==> dirty || !ShallowCompare(props, next)
  {
    !ShallowCompare(props, next) || dirty
  }

  /** The rectangle `TimelineRow.render` draws for an interval: its left edge
      and width on the full-video canvas; `None` where a time is undefined
      (a `NaN` coordinate). */
  function RowRect(b: Bounds, fullDuration: real, fullWidth: real): (r: Option<(real, real)>)
    requires fullDuration != 0.0
    ensures r.Some? <==> b.t1.Some? && b.t2.Some?
    ensures r.Some? ==> r.value.0 == b.t1.value / fullDuration * fullWidth
  {
    if b.t1.Some? && b.t2.Some? then
      Some((b.t1.value / fullDuration * fullWidth, (b.t2.value - b.t1.value) / fullDuration * fullWidth))
    else None
  }

  /** `TimelineRow.render`: the rectangles of the list, and the dirty mark
      cleared. */
  method RenderRow<P>(list: IntervalList<P>, fullDuration: real, fullWidth: real) returns (rects: seq<Option<(real, real)>>)
    requires fullDuration != 0.0
    modifies list
    ensures !list.dirty && list.items == old(list.items)
    ensures |rects| == |list.items|
    ensures forall i :: 0 <= i < |rects| ==> rects[i] == RowRect(list.items[i].bounds, fullDuration, fullWidth)
  {
    list.dirty := false;
    rects := [];
    var i := 0;
    while i < |list.items|
      invariant 0 <= i <= |list.items|
      invariant |rects| == i
      invariant forall j :: 0 <= j < i ==> rects[j] == RowRect(list.items[j].bounds, fullDuration, fullWidth)
    {
      rects := rects + [RowRect(list.items[i].bounds, fullDuration, fullWidth)];
      i := i + 1;
    }
  }

  /** The width of the canvas all rows share: the whole video at the window's
      scale. */
  function FullWidth(width: real, videoSpan: real, w: Window): real
    requires w.Span() != 0.0
  {
    width * videoSpan / w.Span()
  }

  /** The left offset of the shared canvas. */
  function CanvasLeft(videoSpan: real, fullWidth: real, w: Window): real
    requires videoSpan != 0.0
  {
    -(w.start / videoSpan) * fullWidth
  }

  /** An interval's rectangle, once the canvas is shifted into place, starts
      where the cursor for its start time would be drawn. */
  lemma RowsLineUpWithCursor(t1: real, width: real, videoSpan: real, w: Window)
    requires w.Span() != 0.0 && videoSpan != 0.0
    ensures var fw := FullWidth(width, videoSpan, w);
            t1 / videoSpan * fw + CanvasLeft(videoSpan, fw, w) == TimeToX(t1, w, width)
  {
    var fw := FullWidth(width, videoSpan, w);
    calc {
      t1 / videoSpan * fw + CanvasLeft(videoSpan, fw, w);
      t1 / videoSpan * fw - w.start / videoSpan * fw;
      (t1 - w.start) / videoSpan * fw;
      { assert (t1 - w.start) / videoSpan * (width * videoSpan / w.Span())
            == (t1 - w.start) * width / w.Span(); }
      (t1 - w.start) * width / w.Span();
      TimeToX(t1, w, width);
    }
  }

  /** The interval the `i` key pushes: `new Interval(new Bounds(time))`, whose
      bounds hold the play time as their domain and no times. */
  function CreatedInterval<P>(time: real): (iv: Interval<P>)
    ensures iv.bounds.t1 == None && iv.bounds.t2 == None && iv.bounds.domain == Some(Num(time))
    ensures iv.drawType == None && iv.metadata == None
  {
    Interval(NewBounds(Some(Num(time)), None, None, None), None, None)
  }

  datatype Command = CreateIntervalKey

  /** `key_bindings` of the older timeline, keyed by the numeric modes. */
  const Bindings: seq<(int, seq<(string, Command)>)> :=
    [(Keyboard.LegacyStandalone, [("i", CreateIntervalKey)]), (Keyboard.LegacyJupyter, [("i", CreateIntervalKey)])]

  class LegacyTimeline<P> {
    const time: Tl.TimeState
    const newIntervals: IntervalList<P>
    const mode: int

    var shiftHeld: bool
    var creating: bool
    var timeStart: real

    constructor (time: Tl.TimeState, newIntervals: IntervalList<P>, mode: int)
      ensures this.time == time && this.newIntervals == newIntervals && this.mode == mode
      ensures !shiftHeld && !creating && timeStart == 0.0
    {
      shiftHeld := false;
      this.time := time;
      this.newIntervals := newIntervals;
      this.mode := mode;
      creating := false;
      timeStart := 0.0;
    }

    /** `create_interval`: the first press appends a new interval to the end
        of the block's list, marks it dirty and remembers the play time; the
        second press only stops creating. */
    method CreateInterval()
      modifies this, newIntervals
      ensures shiftHeld == old(shiftHeld)
      ensures !old(creating) ==>
                && newIntervals.items == old(newIntervals.items) + [CreatedInterval(time.time)]
                && newIntervals.dirty && creating && timeStart == time.time
      ensures old(creating) ==>
                && newIntervals.items == old(newIntervals.items) && newIntervals.dirty == old(newIntervals.dirty)
                && !creating && timeStart == 0.0
    {
      if !creating {
        var t := time.time;
        newIntervals.items := newIntervals.items + [CreatedInterval(t)];
        newIntervals.dirty := true;
        creating := true;
        timeStart := t;
      } else {
        creating := false;
        timeStart := 0.0;
      }
    }

    /** `componentDidUpdate`: while creating, once the play time is past the
        time creation started and differs from the last interval's end, that
        end becomes the play time. The last interval's end is read only once
        the play time is past the start (`&&` stops early), so an empty list
        throws only then. */
    method DidUpdate() returns (r: Result<()>)
      modifies newIntervals
      ensures r.Err? <==> creating && old(newIntervals.items) == [] && time.time > timeStart
      ensures var items := old(newIntervals.items);
              if creating && items != [] && time.time > timeStart && items[|items| - 1].bounds.t2 != Some(time.time) then
                var last := items[|items| - 1];
                && newIntervals.items == items[..|items| - 1] + [last.(bounds := last.bounds.(t2 := Some(time.time)))]
                && newIntervals.dirty
              else newIntervals.items == items && newIntervals.dirty == old(newIntervals.dirty)
    {
      if creating {
        var items := newIntervals.items;
        if time.time > timeStart {
          if items == [] {
            return Err(TypeError("cannot read property 'bounds' of undefined"));
          }
          var last := items[|items| - 1];
          if last.bounds.t2 != Some(time.time) {
            newIntervals.items := items[..|items| - 1] + [last.(bounds := last.bounds.(t2 := Some(time.time)))];
            newIntervals.dirty := true;
          }
        }
      }
      return Ok(());
    }

    /** `onKeyDown`: holding Shift arms dragging. */
    method OnKeyDown(key: string)
      modifies this
      ensures shiftHeld == (key == "Shift" || old(shiftHeld))
      ensures creating == old(creating) && timeStart == old(timeStart)
    {
      if key == "Shift" {
        shiftHeld := true;
      }
    }

    /** `onKeyUp`: releasing Shift disarms dragging; the bound key creates or
        finishes an interval; a mode other than 1 or 2 has no table and
        throws. */
    method OnKeyUp(key: string) returns (r: Result<()>)
      modifies this, newIntervals
      ensures shiftHeld == (key != "Shift" && old(shiftHeld))
      ensures r.Err? <==> Keyboard.KeyDispatch(Bindings, mode, key).Err?
      ensures Keyboard.KeyDispatch(Bindings, mode, key) == Ok(Some(CreateIntervalKey)) ==> creating == !old(creating)
      ensures Keyboard.KeyDispatch(Bindings, mode, key) != Ok(Some(CreateIntervalKey)) ==>
                creating == old(creating) && newIntervals.items == old(newIntervals.items)
    {
      if key == "Shift" {
        shiftHeld := false;
      }
      var bound := Keyboard.KeyDispatch(Bindings, mode, key);
      if bound.Err? {
        return Err(bound.error);
      }
      if bound == Ok(Some(CreateIntervalKey)) {
        CreateInterval();
      }
      return Ok(());
    }
  }

  /** After the first press and a later play time, the created interval has
      an end but still no start: it cannot be drawn or queried by time. */
  lemma CreatedIntervalHasNoStart<P>(time: real, later: real)
    ensures var iv: Interval<P> := CreatedInterval(time);
            var stretched := iv.(bounds := iv.bounds.(t2 := Some(later)));
            stretched.bounds.t1 == None && !TimeOverlap(stretched.bounds, NewBounds(None, Some(later), None, None))
  {
  }
}
