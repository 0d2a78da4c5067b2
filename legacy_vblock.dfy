/**
 * A block of the older front end (src/vblock.tsx). It reads the first
 * interval of every set without checking that there is one, takes a set for
 * captions by the draw type of that interval, and queries the current
 * intervals with `new Bounds(time)`, which (see `LegacyInterval`) holds no
 * times at all.
 */
module LegacyVBlock {
  import opened Js
  import opened Drawable
  import opened LegacyInterval
  import Keyboard
  import VBlock
  import LS = LabelState

  type Sets = seq<(string, IntervalSet<DrawType>)>

  /** A JavaScript number the reduction can produce: a real, `Infinity`, or
      `NaN` (what `Math.min` gives when one argument is `undefined`). */
  datatype StartTime = At(t: real) | Infinity | NotANumber

  /** `Math.min(n, t1)`. */
  function Min(n: StartTime, t1: Option<real>): (r: StartTime)
    ensures t1.None? || n.NotANumber? ==> r == NotANumber
    ensures t1.Some? && n == Infinity ==> r == At(t1.value)
    ensures t1.Some? && n.At? ==> r.At? && r.t <= n.t && r.t <= t1.value && (r.t == n.t || r.t == t1.value)
  {
    match (n, t1)
    case (_, None) => NotANumber
    case (NotANumber, _) => NotANumber
    case (Infinity, Some(t)) => At(t)
    case (At(m), Some(t)) => At(if m <= t then m else t)
  }

  /** The constructor's `first_time`: the least start of the sets' first
      intervals, starting from `Infinity`; an empty set makes reading its
      first interval throw, and an interval without a start poisons the
      result with `NaN`. */
  function FirstTime(sets: Sets): (r: Result<StartTime>)
    ensures r.Err? <==> exists i :: 0 <= i < |sets| && sets[i].1 == []
    ensures r.Ok? ==> (r.value == Infinity <==> sets == [])
    ensures r.Ok? ==> (r.value == NotANumber <==> exists i :: 0 <= i < |sets| && sets[i].1[0].bounds.t1.None?)
    ensures r.Ok? && r.value.At? ==> forall i :: 0 <= i < |sets| ==> r.value.t <= sets[i].1[0].bounds.t1.value
    ensures r.Ok? && r.value.At? ==> exists i :: 0 <= i < |sets| && sets[i].1[0].bounds.t1 == Some(r.value.t)
  {
    if sets == [] then Ok(Infinity)
    else
      var init := sets[..|sets| - 1];
      var last := sets[|sets| - 1];
      assert forall i :: 0 <= i < |init| ==> init[i] == sets[i];
      match FirstTime(init)
      case Err(e) => Err(e)
      case Ok(n) =>
        if last.1 == [] then Err(TypeError("cannot read property 'bounds' of undefined"))
        else Ok(Min(n, last.1[0].bounds.t1))
  }

  /** The caption search as written: it reads `to_list()[0].data.draw_type`,
      but an interval of this front end stores its draw type itself and has
      no `data`, so the first set throws whether it is empty or not. Only a
      block without sets gets through, with no captions. */
  function CaptionsAsWritten(sets: Sets): (r: Result<Option<IntervalSet<DrawType>>>)
    ensures r.Err? <==> sets != []
    ensures r.Ok? ==> r.value.None?
  {
    if sets == [] then Ok(None)
    else if sets[0].1 == [] then Err(TypeError("cannot read property 'data' of undefined"))
    else Err(TypeError("cannot read property 'draw_type' of undefined"))
  }

  /** As intended, the first interval's own draw type is a caption. */
  predicate StartsWithCaption(s: IntervalSet<DrawType>)
    requires s != []
  {
    s[0].drawType.Some? && s[0].drawType.value.DrawCaption?
  }

  /** The constructor's caption search as intended, reading each first
      interval's own draw type: the last set whose first interval is drawn as
      a caption; reading the first interval of an empty set throws. */
  method FindCaptions(sets: Sets) returns (r: Result<Option<IntervalSet<DrawType>>>)
    ensures r.Err? <==> exists i :: 0 <= i < |sets| && sets[i].1 == []
    ensures r.Ok? && r.value.None? ==> forall i :: 0 <= i < |sets| ==> !StartsWithCaption(sets[i].1)
    ensures r.Ok? && r.value.Some? ==> exists i :: 0 <= i < |sets| && sets[i].1 == r.value.value && StartsWithCaption(sets[i].1)
                                                  && forall j :: i < j < |sets| ==> !StartsWithCaption(sets[j].1)
  {
    var captions: Option<IntervalSet<DrawType>> := None;
    ghost var at := 0;
    for n := 0 to |sets|
      invariant forall i :: 0 <= i < n ==> sets[i].1 != []
      invariant captions.None? ==> forall i :: 0 <= i < n ==> !StartsWithCaption(sets[i].1)
      invariant captions.Some? ==> 0 <= at < n && sets[at].1 == captions.value && StartsWithCaption(sets[at].1)
                                   && forall j :: at < j < n ==> !StartsWithCaption(sets[j].1)
    {
      var s := sets[n].1;
      if s == [] {
        return Err(TypeError("cannot read property 'data' of undefined"));
      }
      if s[0].drawType.Some? && s[0].drawType.value.DrawCaption? {
        captions := Some(s);
        at := n;
      }
    }
    return Ok(captions);
  }

  /** `current_intervals()`: each set queried with `new Bounds(time)`. That
      query holds no times, so every set comes back empty: the older block
      never shows an interval as current. */
  method CurrentIntervals(sets: Sets, time: real) returns (current: Sets)
    requires DistinctKeys(sets)
    ensures Keys(current) == Keys(sets)
    ensures forall k :: Get(current, k) == if HasKey(sets, k) then Some([]) else None
  {
    var bounds := NewBounds(Some(Num(time)), None, None, None);
    current := [];
    for n := 0 to |sets|
      invariant Keys(current) == Keys(sets[..n])
      invariant forall k :: Get(current, k) == if HasKey(sets[..n], k) then Some([]) else None
    {
      NoTimesNoOverlap(sets[n].1, bounds);
      VBlock.NewKeyAbsent(sets, n, current);
      VBlock.KeysAfterPut(current, sets[n].0, TimeOverlaps(sets[n].1, bounds));
      assert sets[..n + 1] == sets[..n] + [sets[n]];
      forall k ensures Get(Put(current, sets[n].0, []), k) == if HasKey(sets[..n + 1], k) then Some([]) else None {
        GetPut(current, sets[n].0, [], k);
        VBlock.PrefixHasKey(sets, n, k);
      }
      current := Put(current, sets[n].0, TimeOverlaps(sets[n].1, bounds));
    }
    assert sets[..|sets|] == sets;
  }

  /** The drawn size `(width, height)`: 100 pixels high at the video's aspect
      ratio, or, expanded, the video's own size. */
  function BlockSize(expand: bool, videoWidth: real, videoHeight: real): (wh: (real, real))
    requires videoHeight != 0.0
    ensures wh.0 * videoHeight == wh.1 * videoWidth
    ensures !expand ==> wh.1 == 100.0
    ensures expand ==> wh == (videoWidth, videoHeight)
  {
    if !expand then
      var height := 100.0;
      (videoWidth * (height / videoHeight), height)
    else (videoWidth, videoHeight)
  }

  /** `key_bindings`, keyed by the numeric modes; the table is the newer
      block's. */
  const Bindings: seq<(int, seq<(string, VBlock.Command)>)> :=
    [(Keyboard.LegacyStandalone, VBlock.StandaloneKeys), (Keyboard.LegacyJupyter, VBlock.JupyterKeys)]

  class Block {
    const intervals: Sets
    const firstTime: StartTime
    const captions: Option<IntervalSet<DrawType>>
    const mode: int
    var expand: bool

    constructor (intervals: Sets, firstTime: StartTime, captions: Option<IntervalSet<DrawType>>, mode: int)
      ensures this.intervals == intervals && this.firstTime == firstTime && this.captions == captions
      ensures this.mode == mode && !expand
    {
      this.intervals := intervals;
      this.firstTime := firstTime;
      this.captions := captions;
      this.mode := mode;
      expand := false;
    }

    /** `onKeyUp`: the bound key toggles the expanded view or asks the grid to
        select the block. */
    method OnKeyUp(key: string) returns (r: Result<Option<LS.SelectType>>)
      modifies this
      ensures var cmd := Keyboard.KeyDispatch(Bindings, mode, key);
              && (cmd.Err? <==> r.Err?)
              && (cmd == Ok(Some(VBlock.ToggleExpand)) ==> expand == !old(expand) && r == Ok(None))
              && (cmd.Ok? && cmd.value.Some? && cmd.value.value.Select? ==> expand == old(expand) && r == Ok(Some(cmd.value.value.t)))
              && (cmd == Ok(None) ==> expand == old(expand) && r == Ok(None))
    {
      var cmd := Keyboard.KeyDispatch(Bindings, mode, key);
      match cmd
      case Err(e) => r := Err(e);
      case Ok(None) => r := Ok(None);
      case Ok(Some(c)) =>
        if c.ToggleExpand? {
          expand := !expand;
          r := Ok(None);
        } else {
          r := Ok(Some(c.t));
        }
    }
  }

  /** The constructor as written: the start-time reduction throws on an
      empty set, and the caption search then throws on any set at all, so
      only a block without sets can be built. */
  method NewBlock(intervals: Sets, mode: int) returns (r: Result<Block>)
    ensures r.Err? <==> intervals != []
    ensures r.Err? && FirstTime(intervals).Err? ==> r.error == FirstTime(intervals).error
    ensures r.Ok? ==> fresh(r.value) && r.value.intervals == [] && r.value.mode == mode && !r.value.expand
    ensures r.Ok? ==> r.value.firstTime == Infinity && r.value.captions.None?
  {
    var firstTime := FirstTime(intervals);
    if firstTime.Err? {
      return Err(firstTime.error);
    }
    var captions := CaptionsAsWritten(intervals);
    if captions.Err? {
      return Err(captions.error);
    }
    var b := new Block(intervals, firstTime.value, captions.value, mode);
    return Ok(b);
  }

  /** The constructor as intended: both searches read every set's first
      interval, so exactly a block with an empty set cannot be built. */
  method NewBlockIntended(intervals: Sets, mode: int) returns (r: Result<Block>)
    ensures r.Err? <==> exists i :: 0 <= i < |intervals| && intervals[i].1 == []
    ensures r.Ok? ==> fresh(r.value) && r.value.intervals == intervals && r.value.mode == mode && !r.value.expand
    ensures r.Ok? ==> FirstTime(intervals) == Ok(r.value.firstTime)
    ensures r.Ok? ==> (r.value.captions.None? <==> forall i :: 0 <= i < |intervals| ==> !StartsWithCaption(intervals[i].1))
    ensures r.Ok? && r.value.captions.Some? ==> exists i :: 0 <= i < |intervals| && intervals[i].1 == r.value.captions.value
                                                           && StartsWithCaption(intervals[i].1)
                                                           && forall j :: i < j < |intervals| ==> !StartsWithCaption(intervals[j].1)
  {
    var firstTime := FirstTime(intervals);
    if firstTime.Err? {
      return Err(firstTime.error);
    }
    var captions := FindCaptions(intervals);
    assert captions.Ok?;
    var b := new Block(intervals, firstTime.value, captions.value, mode);
    return Ok(b);
  }
}
