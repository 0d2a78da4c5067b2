/**
 * One block of the grid: the interval sets of one video (vgridjs/src/vblock.tsx).
 * The block decides where its clock starts, which of its sets is shown as
 * captions, which intervals are current, how large it is drawn, and what its
 * keys do.
 */
module VBlock {
  import opened Js
  import opened Intervals
  import opened VData
  import Lodash
  import Text
  import Keyboard
  import LS = LabelState

  /** `IntervalBlock`: named interval sets and the video they belong to. */
  datatype IntervalBlock = IntervalBlock(intervalSets: seq<(string, IntervalSet<Payload>)>, videoId: Option<Json>)

  /** One element of the array `interval_blocks_from_json` maps over:
      destructuring `undefined` or `null` throws; `setFromJson` stands for the
      interval library's `IntervalSet.from_json` with `vdata_from_json`. */
  function BlockFromJson(item: Json, setFromJson: Json -> Result<IntervalSet<Payload>>): (r: Result<IntervalBlock>)
    ensures r.Ok? <==> item != Null && Lodash.MapValues(Lodash.Entries(Field(Some(item), "interval_dict")), setFromJson).Ok?
    ensures r.Ok? ==> r.value.videoId == Field(Some(item), "video_id")
    ensures r.Ok? ==> r.value.intervalSets == Lodash.MapValues(Lodash.Entries(Field(Some(item), "interval_dict")), setFromJson).value
  {
    if item == Null then Err(TypeError("cannot destructure null"))
    else
      match Lodash.MapValues(Lodash.Entries(Field(Some(item), "interval_dict")), setFromJson)
      case Err(e) => Err(e)
      case Ok(sets) => Ok(IntervalBlock(sets, Field(Some(item), "video_id")))
  }

  /** `interval_blocks_from_json(obj)`: only an array can be mapped over; each
      entry gives one block with its `video_id` and one decoded set per key of
      its `interval_dict`, in order. */
  function IntervalBlocksFromJson(obj: Option<Json>, setFromJson: Json -> Result<IntervalSet<Payload>>): (r: Result<seq<IntervalBlock>>)
    ensures obj.None? || !obj.value.Arr? ==> r.Err?
    ensures r.Ok? ==> obj.Some? && obj.value.Arr? && |r.value| == |obj.value.items|
    ensures r.Ok? ==> forall i :: 0 <= i < |r.value| ==>
                        && r.value[i].videoId == Field(Some(obj.value.items[i]), "video_id")
                        && Keys(r.value[i].intervalSets) == Keys(Lodash.Entries(Field(Some(obj.value.items[i]), "interval_dict")))
    ensures obj.Some? && obj.value.Arr? ==>
              (r.Ok? <==> forall i :: 0 <= i < |obj.value.items| ==> BlockFromJson(obj.value.items[i], setFromJson).Ok?)
  {
    if obj.Some? && obj.value.Arr? then BlocksFromJson(obj.value.items, setFromJson)
    else Err(TypeError("obj.map is not a function"))
  }

  function BlocksFromJson(items: seq<Json>, setFromJson: Json -> Result<IntervalSet<Payload>>): (r: Result<seq<IntervalBlock>>)
    ensures r.Ok? <==> forall i :: 0 <= i < |items| ==> BlockFromJson(items[i], setFromJson).Ok?
    ensures r.Ok? ==> |r.value| == |items| && forall i :: 0 <= i < |items| ==> BlockFromJson(items[i], setFromJson) == Ok(r.value[i])
  {
    if items == [] then Ok([])
    else
      assert forall i :: 1 <= i < |items| ==> items[i] == items[1..][i - 1];
      match BlockFromJson(items[0], setFromJson)
      case Err(e) => Err(e)
      case Ok(b) =>
        match BlocksFromJson(items[1..], setFromJson)
        case Err(e) => Err(e)
        case Ok(rest) => Ok([b] + rest)
  }

  /** `show_in_timeline(k)`: `k[0] != '_'`, where the empty key's `k[0]` is
      `undefined` and so is shown. */
  predicate ShowInTimeline(k: string)
  {
    !(|k| > 0 && k[0] == '_')
  }

  /** `_.pick(sets, _.keys(sets).filter(show_in_timeline))`: the shown sets,
      in order. */
  function TimelineSets(sets: seq<(string, IntervalSet<Payload>)>): (r: seq<(string, IntervalSet<Payload>)>)
    ensures forall i :: 0 <= i < |r| ==> r[i] in sets && ShowInTimeline(r[i].0)
    ensures forall i :: 0 <= i < |sets| && ShowInTimeline(sets[i].0) ==> sets[i] in r
  {
    if sets == [] then []
    else if ShowInTimeline(sets[0].0) then [sets[0]] + TimelineSets(sets[1..])
    else TimelineSets(sets[1..])
  }

  /** Hiding is by the first character only. */
  lemma ShowInTimelineIff(k: string)
    ensures !ShowInTimeline(k) <==> Text.StartsWith(k, "_")
  {
    if |k| > 0 && k[0] == '_' {
      assert k[..1] == "_";
    }
  }

  /** The start time a set offers: the start of its arbitrary interval, which
      the interval library gives as its first one; an empty set offers none. */
  predicate Offers(entry: (string, IntervalSet<Payload>))
  {
    ShowInTimeline(entry.0) && |entry.1| > 0
  }

  /** The constructor's `first_time`: the least start over the shown,
      non-empty sets; `None` stands for `Infinity` when there is none. */
  function FirstTime(sets: seq<(string, IntervalSet<Payload>)>): (r: Option<real>)
    ensures r.None? <==> forall i :: 0 <= i < |sets| ==> !Offers(sets[i])
    ensures r.Some? ==> exists i :: 0 <= i < |sets| && Offers(sets[i]) && sets[i].1[0].bounds.t1 == r.value
    ensures r.Some? ==> forall i :: 0 <= i < |sets| && Offers(sets[i]) ==> r.value <= sets[i].1[0].bounds.t1
  {
    if sets == [] then None
    else
      var n := FirstTime(sets[..|sets| - 1]);
      var last := sets[|sets| - 1];
      assert forall i :: 0 <= i < |sets| - 1 ==> sets[..|sets| - 1][i] == sets[i];
      if !Offers(last) then n
      else if n.None? then Some(last.1[0].bounds.t1)
      else Some(if n.value <= last.1[0].bounds.t1 then n.value else last.1[0].bounds.t1)
  }

  /** Sets hidden from the timeline do not move the start time. */
  lemma {:induction false} FirstTimeIgnoresHidden(sets: seq<(string, IntervalSet<Payload>)>, k: string, s: IntervalSet<Payload>)
    requires !ShowInTimeline(k)
    ensures FirstTime(sets + [(k, s)]) == FirstTime(sets)
  {
    assert (sets + [(k, s)])[..|sets|] == sets;
  }

  /** The payload test of the caption search: a non-empty set whose arbitrary
      (first) interval carries a caption spatial type. */
  predicate HoldsCaptions(s: IntervalSet<Payload>)
  {
    |s| > 0 && IsCaption(s[0].data)
  }

  /** The constructor's search for captions: the last set, in key order, that
      holds captions. */
  method FindCaptions(sets: seq<(string, IntervalSet<Payload>)>) returns (captions: Option<IntervalSet<Payload>>)
    ensures captions.None? <==> forall i :: 0 <= i < |sets| ==> !HoldsCaptions(sets[i].1)
    ensures captions.Some? ==> exists i :: 0 <= i < |sets| && sets[i].1 == captions.value && HoldsCaptions(sets[i].1)
                                           && forall j :: i < j < |sets| ==> !HoldsCaptions(sets[j].1)
  {
    captions := None;
    ghost var at := 0;
    for n := 0 to |sets|
      invariant captions.None? <==> forall i :: 0 <= i < n ==> !HoldsCaptions(sets[i].1)
      invariant captions.Some? ==> 0 <= at < n && sets[at].1 == captions.value && HoldsCaptions(sets[at].1)
                                   && forall j :: at < j < n ==> !HoldsCaptions(sets[j].1)
    {
      var s := sets[n].1;
      if |s| > 0 && IsCaption(s[0].data) {
        captions := Some(s);
        at := n;
      }
    }
  }

  /** A caption set decoded by `vdata_from_json` carries no `spatial_type`, so
      no set read from the back end is ever taken for captions. */
  lemma DecodedSetsHoldNoCaptions(sets: seq<(string, IntervalSet<Payload>)>)
    requires forall i, j :: 0 <= i < |sets| && 0 <= j < |sets[i].1| ==> sets[i].1[j].data.Decoded?
    ensures forall i :: 0 <= i < |sets| ==> !HoldsCaptions(sets[i].1)
  {
  }

  /** The key under which new intervals join the current ones. */
  const NewIntervalsKey := "__new_intervals"

  /** `current_intervals()`: every set of the block cut down to the intervals
      that meet the time, under the same key, and the label state's new
      intervals that meet it under `'__new_intervals'` when there are any. */
  method CurrentIntervals(sets: seq<(string, IntervalSet<Payload>)>, newIntervals: IntervalSet<Payload>, time: real)
    returns (current: seq<(string, IntervalSet<Payload>)>)
    requires DistinctKeys(sets)
    ensures var found := TimeOverlaps(newIntervals, Instant(time));
            Keys(current) == Keys(sets) + (if found != [] && !HasKey(sets, NewIntervalsKey) then [NewIntervalsKey] else [])
    ensures forall k :: k != NewIntervalsKey ==>
              Get(current, k) == if HasKey(sets, k) then Some(TimeOverlaps(Get(sets, k).value, Instant(time))) else None
    ensures var found := TimeOverlaps(newIntervals, Instant(time));
            found != [] ==> Get(current, NewIntervalsKey) == Some(found)
    ensures var found := TimeOverlaps(newIntervals, Instant(time));
            found == [] ==> Get(current, NewIntervalsKey) ==
                              if HasKey(sets, NewIntervalsKey) then Some(TimeOverlaps(Get(sets, NewIntervalsKey).value, Instant(time))) else None
  {
    var bounds := Instant(time);
    current := [];
    for n := 0 to |sets|
      invariant Keys(current) == Keys(sets[..n])
      invariant forall k :: Get(current, k) == if HasKey(sets[..n], k) then Some(TimeOverlaps(Get(sets, k).value, bounds)) else None
    {
      CurrentStep(sets, n, current, bounds);
      current := Put(current, sets[n].0, TimeOverlaps(sets[n].1, bounds));
    }
    assert sets[..|sets|] == sets;
    var found := TimeOverlaps(newIntervals, bounds);
    if found != [] {
      KeysAfterPut(current, NewIntervalsKey, found);
      forall k ensures Get(Put(current, NewIntervalsKey, found), k) == if k == NewIntervalsKey then Some(found) else Get(current, k) {
        GetPut(current, NewIntervalsKey, found, k);
      }
      current := Put(current, NewIntervalsKey, found);
    }
  }

  /** One round of the loop in `current_intervals`. */
  lemma CurrentStep(sets: seq<(string, IntervalSet<Payload>)>, n: nat, current: seq<(string, IntervalSet<Payload>)>, bounds: Bounds)
    requires DistinctKeys(sets) && n < |sets|
    requires Keys(current) == Keys(sets[..n])
    requires forall k :: Get(current, k) == if HasKey(sets[..n], k) then Some(TimeOverlaps(Get(sets, k).value, bounds)) else None
    ensures Keys(Put(current, sets[n].0, TimeOverlaps(sets[n].1, bounds))) == Keys(sets[..n + 1])
    ensures forall k :: Get(Put(current, sets[n].0, TimeOverlaps(sets[n].1, bounds)), k)
                        == if HasKey(sets[..n + 1], k) then Some(TimeOverlaps(Get(sets, k).value, bounds)) else None
  {
    var k0 := sets[n].0;
    var v := TimeOverlaps(sets[n].1, bounds);
    NewKeyAbsent(sets, n, current);
    KeysAfterPut(current, k0, v);
    assert Keys(sets[..n + 1]) == Keys(sets[..n]) + [k0] by {
      assert sets[..n + 1] == sets[..n] + [sets[n]];
    }
    GetOfDistinctAt(sets, n);
    forall k ensures Get(Put(current, k0, v), k) == if HasKey(sets[..n + 1], k) then Some(TimeOverlaps(Get(sets, k).value, bounds)) else None {
      GetPut(current, k0, v, k);
      PrefixHasKey(sets, n, k);
    }
  }

  lemma NewKeyAbsent<V, W>(sets: seq<(string, V)>, n: nat, current: seq<(string, W)>)
    requires DistinctKeys(sets) && n < |sets| && Keys(current) == Keys(sets[..n])
    ensures !HasKey(current, sets[n].0)
  {
    forall i | 0 <= i < |current| ensures current[i].0 != sets[n].0 {
      assert current[i].0 == Keys(current)[i] == Keys(sets[..n])[i] == sets[i].0;
    }
  }

  lemma PrefixHasKey<V>(sets: seq<(string, V)>, n: nat, k: string)
    requires n < |sets|
    ensures HasKey(sets[..n + 1], k) <==> HasKey(sets[..n], k) || k == sets[n].0
  {
    if HasKey(sets[..n + 1], k) && k != sets[n].0 {
      var i :| 0 <= i < n + 1 && sets[..n + 1][i].0 == k;
      assert sets[..n][i].0 == k;
    }
    if HasKey(sets[..n], k) {
      var i :| 0 <= i < n && sets[..n][i].0 == k;
      assert sets[..n + 1][i].0 == k;
    }
    if k == sets[n].0 {
      assert sets[..n + 1][n].0 == k;
    }
  }

  lemma {:induction false} GetOfDistinctAt<V>(d: seq<(string, V)>, i: nat)
    requires DistinctKeys(d) && i < |d|
    ensures Get(d, d[i].0) == Some(d[i].1)
  {
    if i > 0 {
      assert d[1..][i - 1] == d[i];
      GetOfDistinctAt(d[1..], i - 1);
    }
  }

  lemma KeysAfterPut<V>(d: seq<(string, V)>, k: string, v: V)
    ensures Keys(Put(d, k, v)) == Keys(d) + (if HasKey(d, k) then [] else [k])
  {
    if HasKey(d, k) {
      assert Keys(Put(d, k, v)) == Keys(d);
    } else {
      assert Keys(d + [(k, v)]) == Keys(d) + [k];
    }
  }

  /** What a key of the block does. */
  datatype Command = ToggleExpand | Select(t: LS.SelectType)

  /** The keys of the standalone page and of a notebook. */
  const StandaloneKeys: seq<(string, Command)> := [("f", ToggleExpand), ("s", Select(LS.Positive)), ("x", Select(LS.Negative))]
  const JupyterKeys: seq<(string, Command)> := [("=", ToggleExpand)]

  /** `key_bindings`. */
  const Bindings: seq<(Keyboard.KeyMode, seq<(string, Command)>)> :=
    [(Keyboard.Standalone, StandaloneKeys), (Keyboard.Jupyter, JupyterKeys)]

  /** The class that outlines a selected block. */
  function SelectClass(selected: Option<LS.SelectType>): (c: string)
    ensures selected == Some(LS.Positive) <==> c == "select-positive"
    ensures selected == Some(LS.Negative) <==> c == "select-negative"
    ensures selected == None <==> c == ""
  {
    match selected
    case None => ""
    case Some(t) => if t.Positive? then "select-positive" else "select-negative"
  }

  /** The block's drawn size `(width, height)`: 100 pixels high at the
      video's aspect ratio, or, expanded, as wide as the video but no wider
      than the container, at the same ratio. */
  function BlockSize(expand: bool, videoWidth: real, videoHeight: real, containerWidth: real): (wh: (real, real))
    requires videoWidth != 0.0 && videoHeight != 0.0
    ensures wh.0 * videoHeight == wh.1 * videoWidth
    ensures !expand ==> wh.1 == 100.0
    ensures expand ==> wh.0 == (if videoWidth <= containerWidth then videoWidth else containerWidth)
  {
    if !expand then
      var height := 100.0;
      (videoWidth * (height / videoHeight), height)
    else
      var width := if videoWidth <= containerWidth then videoWidth else containerWidth;
      (width, videoHeight * (width / videoWidth))
  }

  /** The component's own state: whether it is expanded, where its clock
      started, and the set it shows as captions. */
  class Block {
    const block: IntervalBlock
    const firstTime: Option<real>
    const captions: Option<IntervalSet<Payload>>
    const mode: Keyboard.KeyMode
    var expand: bool

    /** The constructor: the clock starts at the first time, and the caption
        set is looked up once. */
    constructor (block: IntervalBlock, mode: Keyboard.KeyMode)
      ensures this.block == block && this.mode == mode && !expand
      ensures firstTime == FirstTime(block.intervalSets)
      ensures captions.None? <==> forall i :: 0 <= i < |block.intervalSets| ==> !HoldsCaptions(block.intervalSets[i].1)
      ensures captions.Some? ==> exists i :: 0 <= i < |block.intervalSets| && block.intervalSets[i].1 == captions.value
                                             && HoldsCaptions(block.intervalSets[i].1)
                                             && forall j :: i < j < |block.intervalSets| ==> !HoldsCaptions(block.intervalSets[j].1)
    {
      this.block := block;
      this.mode := mode;
      firstTime := FirstTime(block.intervalSets);
      var c := FindCaptions(block.intervalSets);
      captions := c;
      expand := false;
    }

    /** `onKeyUp`: the bound key either toggles the expanded view or asks the
        grid to select the block with a type (the `on_select` callback, given
        back as the result). */
    method OnKeyUp(key: string) returns (r: Result<Option<LS.SelectType>>)
      modifies this
      ensures var cmd := Keyboard.KeyDispatch(Bindings, mode, key);
              && (cmd.Err? <==> r.Err?)
              && (cmd == Ok(Some(ToggleExpand)) ==> expand == !old(expand) && r == Ok(None))
              && (cmd.Ok? && cmd.value.Some? && cmd.value.value.Select? ==> expand == old(expand) && r == Ok(Some(cmd.value.value.t)))
              && (cmd == Ok(None) ==> expand == old(expand) && r == Ok(None))
    {
      var cmd := Keyboard.KeyDispatch(Bindings, mode, key);
      match cmd
      case Err(e) => r := Err(e);
      case Ok(None) => r := Ok(None);
      case Ok(Some(ToggleExpand)) =>
        expand := !expand;
        r := Ok(None);
      case Ok(Some(Select(t))) => r := Ok(Some(t));
    }
  }

  /** In the standalone page `f` toggles the view, `s` and `x` select
      positive and negative; in a notebook only `=` does anything. */
  lemma BindingsTable()
    ensures Keyboard.KeyDispatch(Bindings, Keyboard.Standalone, "f") == Ok(Some(ToggleExpand))
    ensures Keyboard.KeyDispatch(Bindings, Keyboard.Standalone, "s") == Ok(Some(Select(LS.Positive)))
    ensures Keyboard.KeyDispatch(Bindings, Keyboard.Standalone, "x") == Ok(Some(Select(LS.Negative)))
    ensures Keyboard.KeyDispatch(Bindings, Keyboard.Jupyter, "=") == Ok(Some(ToggleExpand))
    ensures Keyboard.KeyDispatch(Bindings, Keyboard.Jupyter, "s") == Ok(None)
  {
    assert Text.ToLower("f") == "f" && Text.ToLower("s") == "s" && Text.ToLower("x") == "x" && Text.ToLower("=") == "=";
    assert Get(Bindings, Keyboard.Jupyter) == Some(JupyterKeys);
    assert Get(JupyterKeys, "=") == Some(ToggleExpand);
  }
}
