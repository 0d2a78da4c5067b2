/**
 * The blocks the Python package hands to the widget
 * (vgridpy/vgrid/interval_block.py): an `IntervalBlock` is a video id and a
 * list of named interval sets, and a named interval set is written out with
 * each interval's payload converted by `_payload_to_json`.
 *
 * Python values are modelled by `Value`. A dict is an object (`PyDict`) whose
 * entries can be reassigned, because `_payload_to_json` inserts a key into the
 * caller's payload dict; every other value is immutable here. The rekall
 * library's interval sets are not part of this model: a set is its list of
 * intervals, and `set.to_json(f)` is taken to write, in order, each interval's
 * bounds and `f` of its payload, as rekall's `Interval.to_json` does.
 */
module PyIntervalBlock {
  import opened Js
  import PySpatialType
  import PyMetadata

  /** A JSON value that is not a dict: `None`, a boolean, a number, a string or
      a list. */
  type PlainJson = j: Json | !j.Obj? witness Null

  /** A Python value, as far as the package's serialisation looks at it. */
  datatype Value =
    | Plain(j: PlainJson)                          // not a dict and without `to_json`
    | Spatial(t: PySpatialType.SpatialType)        // an instance of `SpatialType`
    | Meta(m: PyMetadata.Metadata)                 // an instance of `Metadata`
    | Dict(d: PyDict)                              // a dict, by reference
    | IntervalSet(intervals: seq<RekallInterval>)  // a rekall `IntervalSet`

  /** A rekall interval: its bounds, already in their JSON form, and a payload. */
  datatype RekallInterval = RekallInterval(bounds: Json, payload: Value)

  /** A Python dict with string keys, in insertion order. */
  class PyDict {
    var entries: seq<(string, Value)>

    constructor (entries: seq<(string, Value)>)
      ensures this.entries == entries
    {
      this.entries := entries;
    }
  }

  /** `v.to_json()`: spatial types and metadata have one; calling it on any
      other value raises `AttributeError`. */
  function ValueToJson(v: Value): Result<Json>
  {
    match v
    case Spatial(t) => PySpatialType.ToJson(t)
    case Meta(m) => PyMetadata.ToJson(m)
    case _ => Err(AttributeError("to_json"))
  }

  /** `{k: v.to_json() for k, v in items}`: the same keys in the same order,
      each value converted; the first value that cannot be converted raises. */
  function MetadataToJson(items: seq<(string, Value)>): (r: Result<seq<(string, Json)>>)
    ensures r.Ok? <==> forall i :: 0 <= i < |items| ==> ValueToJson(items[i].1).Ok?
    ensures r.Ok? ==> Keys(r.value) == Keys(items)
    ensures r.Ok? ==> forall i :: 0 <= i < |items| ==> ValueToJson(items[i].1) == Ok(r.value[i].1)
    ensures r.Err? ==> exists i :: 0 <= i < |items| && ValueToJson(items[i].1) == Err(r.error)
  {
    if items == [] then Ok([])
    else
      match ValueToJson(items[0].1)
      case Err(e) => Err(e)
      case Ok(x) =>
        match MetadataToJson(items[1..])
        case Err(e) =>
          var i :| 0 <= i < |items[1..]| && ValueToJson(items[1..][i].1) == Err(e);
          assert ValueToJson(items[i + 1].1) == Err(e);
          Err(e)
        case Ok(rest) =>
          assert forall i :: 1 <= i < |items| ==> items[i] == items[1..][i - 1];
          Ok([(items[0].0, x)] + rest)
  }

  /** The spatial type held by a dict whose `'spatial_type'` entry is an
      instance of `SpatialType`: the check a payload must pass to be used as
      it is. */
  function SpatialIn(es: seq<(string, Value)>): Option<PySpatialType.SpatialType>
  {
    var v := Get(es, "spatial_type");
    if v.Some? && v.value.Spatial? then Some(v.value.t) else None
  }

  /** The spatial type of a payload that passes the check; `None` for `None`,
      a value that is not a dict, a dict without `'spatial_type'`, or one whose
      `'spatial_type'` is not a `SpatialType`. */
  function OwnSpatial(payload: Value): Option<PySpatialType.SpatialType>
    reads if payload.Dict? then {payload.d} else {}
  {
    if payload.Dict? then SpatialIn(payload.d.entries) else None
  }

  /** The dict stored under a payload dict's `'metadata'`, if that is a dict. */
  function MetadataDict(payload: Value): Option<PyDict>
    reads if payload.Dict? then {payload.d} else {}
  {
    if payload.Dict? then
      var md := Get(payload.d.entries, "metadata");
      if md.Some? && md.value.Dict? then Some(md.value.d) else None
    else None
  }

  /** The objects `_payload_to_json(payload)` reads: the payload dict and the
      dict stored under its `'metadata'`. */
  function Footprint(payload: Value): set<object>
    reads if payload.Dict? then {payload.d} else {}
  {
    if payload.Dict? then
      {payload.d} + (if MetadataDict(payload).Some? then {MetadataDict(payload).value} else {})
    else {}
  }

  /** The dicts stored under the `'metadata'` of the dicts `ds`. */
  function MetadataDicts(ds: set<PyDict>): set<PyDict>
    reads ds
  {
    set d | d in ds && MetadataDict(Dict(d)).Some? :: MetadataDict(Dict(d)).value
  }

  /** No dict of `ds` holds a dict of `ds` as its metadata. Then writing one
      payload, which can only add `'metadata'` to its own dict, does not change
      what another payload converts to. */
  predicate MetadataApart(ds: set<PyDict>)
    reads ds
  {
    MetadataDicts(ds) !! ds
  }

  /** What `_payload_to_json` makes of each dict of `ds` now. */
  ghost function ConvSnapshot(ds: set<PyDict>): map<PyDict, Result<Json>>
    reads ds, MetadataDicts(ds)
  {
    map d | d in ds :: PayloadJson(Dict(d))
  }

  /** The dicts the snapshot `conv` records as converting. */
  ghost function OkIn(conv: map<PyDict, Result<Json>>): set<PyDict>
  {
    set d | d in conv && conv[d].Ok?
  }

  /** Every dict of `ds` converted, according to the snapshot `conv`. */
  ghost predicate Converts(conv: map<PyDict, Result<Json>>, ds: set<PyDict>)
  {
    ds <= OkIn(conv)
  }

  /** Writing the payload `x` changed at most its own dict, kept its spatial
      type and what it converts to, and left its metadata dict or put a new
      one in its place. Then no other dict of `outer` changes its spatial type,
      and, when no dict of `outer` holds another as metadata, none changes what
      it converts to and still none holds another. */
  twostate lemma WriteKeepsOthers(outer: set<PyDict>, new x: Value)
    requires old(allocated(x))
    requires x.Dict? ==> x.d in outer
    requires forall o: PyDict :: o in outer + old(MetadataDicts(outer)) && !(x.Dict? && o == x.d) ==> unchanged(o)
    requires x.Dict? ==> SpatialIn(x.d.entries) == old(SpatialIn(x.d.entries))
    requires PayloadJson(x) == old(PayloadJson(x))
    requires MetadataDict(x) == old(MetadataDict(x)) || (MetadataDict(x).Some? && fresh(MetadataDict(x).value))
    requires Settled(x)
    ensures SpatialSnapshot(outer) == old(SpatialSnapshot(outer))
    ensures old(SettledIn(outer)) <= SettledIn(outer)
    ensures old(MetadataApart(outer)) ==> MetadataApart(outer) && ConvSnapshot(outer) == old(ConvSnapshot(outer))
  {
    forall d | d in outer ensures SpatialIn(d.entries) == old(SpatialIn(d.entries)) && (old(Settled(Dict(d))) ==> Settled(Dict(d))) {
      if !(x.Dict? && d == x.d) {
        assert d in outer + old(MetadataDicts(outer));
      } else {
        assert Dict(d) == x;
      }
    }
    if old(MetadataApart(outer)) {
      forall d | d in outer
        ensures MetadataDict(Dict(d)) == old(MetadataDict(Dict(d))) || (MetadataDict(Dict(d)).Some? && fresh(MetadataDict(Dict(d)).value))
        ensures PayloadJson(Dict(d)) == old(PayloadJson(Dict(d)))
      {
        if x.Dict? && d == x.d {
        } else {
          assert d in outer + old(MetadataDicts(outer));
          var m := old(MetadataDict(Dict(d)));
          if m.Some? {
            assert m.value in old(MetadataDicts(outer));
            assert m.value in outer + old(MetadataDicts(outer));
            assert m.value !in outer;
          }
        }
      }
      forall m | m in MetadataDicts(outer) ensures m !in outer {
        var d :| d in outer && MetadataDict(Dict(d)).Some? && MetadataDict(Dict(d)).value == m;
        if old(MetadataDict(Dict(d))) == Some(m) {
          assert m in old(MetadataDicts(outer));
        }
      }
    }
  }

  /** `md.items()`: only a dict has it. */
  function ItemsOf(md: Value): Option<seq<(string, Value)>>
    reads if md.Dict? then {md.d} else {}
  {
    if md.Dict? then Some(md.d.entries) else None
  }

  /** The spatial type a payload that fails the check is replaced with:
      `SpatialType_Bbox()`, whose text is `None`. */
  const DefaultSpatial := PySpatialType.Bbox(Null)

  /** The JSON of a payload that fails the check: a box, written without
      `args`, and no metadata. */
  const DefaultJson := Obj([("spatial_type", Obj([("type", Str("SpatialType_Bbox"))])), ("metadata", Obj([]))])

  /** The spatial type `_payload_to_json` writes for `payload`. */
  function SpatialUsed(payload: Value): PySpatialType.SpatialType
    reads if payload.Dict? then {payload.d} else {}
  {
    match OwnSpatial(payload)
    case Some(t) => t
    case None => DefaultSpatial
  }

  /** The returned dict for spatial type `st` and metadata items `items`
      (`None`: the metadata value has no `items`). The spatial type is
      converted first, so its failure is the one reported. */
  function Converted(st: PySpatialType.SpatialType, items: Option<seq<(string, Value)>>): (r: Result<Json>)
    ensures r.Ok? <==> PySpatialType.ToJson(st).Ok? && items.Some? && MetadataToJson(items.value).Ok?
    ensures PySpatialType.ToJson(st).Err? ==> r == Err(PySpatialType.ToJson(st).error)
    ensures PySpatialType.ToJson(st).Ok? && items.None? ==> r == Err(AttributeError("items"))
    ensures r.Ok? ==> && r.value.Obj? && Keys(r.value.entries) == ["spatial_type", "metadata"]
                      && r.value.entries[0].1 == PySpatialType.ToJson(st).value
                      && r.value.entries[1].1 == Obj(MetadataToJson(items.value).value)
  {
    match PySpatialType.ToJson(st)
    case Err(e) => Err(e)
    case Ok(sj) =>
      if items.None? then Err(AttributeError("items"))
      else
        match MetadataToJson(items.value)
        case Err(e) => Err(e)
        case Ok(mj) => Ok(Obj([("spatial_type", sj), ("metadata", Obj(mj))]))
  }

  /** What `_payload_to_json(payload)` returns. A payload that fails the check
      is written as a box with no metadata; a payload that passes it keeps its
      spatial type, and its metadata is the dict under `'metadata'` (an empty
      one when the key is missing). */
  function PayloadJson(payload: Value): (r: Result<Json>)
    reads Footprint(payload)
    ensures OwnSpatial(payload).None? ==> r == Ok(DefaultJson)
    ensures r.Ok? ==> && r.value.Obj? && Keys(r.value.entries) == ["spatial_type", "metadata"]
                      && PySpatialType.ToJson(SpatialUsed(payload)).Ok?
                      && r.value.entries[0].1 == PySpatialType.ToJson(SpatialUsed(payload)).value
    ensures PySpatialType.ToJson(SpatialUsed(payload)).Err? ==> r.Err?
    ensures payload.Dict? && OwnSpatial(payload).Some? && !HasKey(payload.d.entries, "metadata") ==>
              r == Converted(OwnSpatial(payload).value, Some([]))
  {
    match OwnSpatial(payload)
    case None =>
      assert !PyTruthy(Null);
      Converted(DefaultSpatial, Some([]))
    case Some(st) =>
      match Get(payload.d.entries, "metadata")
      case None => Converted(st, Some([]))
      case Some(md) => Converted(st, ItemsOf(md))
  }

  /** A payload whose metadata `_payload_to_json` inserts: a dict that passes
      the check and has no `'metadata'`. */
  predicate Inserts(payload: Value)
    reads if payload.Dict? then {payload.d} else {}
  {
    payload.Dict? && OwnSpatial(payload).Some? && !HasKey(payload.d.entries, "metadata")
  }

  /** `_payload_to_json(payload)`. A dict that passes the check but has no
      `'metadata'` gets a new empty dict inserted under that key, in place and
      last, in the caller's own dict; no other dict is changed. The result is
      what the payload denoted before the call, and converting the payload
      again gives the same result. */
  method PayloadToJson(payload: Value) returns (r: Result<Json>)
    modifies if payload.Dict? then {payload.d} else {}
    ensures r == old(PayloadJson(payload))
    ensures r == PayloadJson(payload)
    ensures old(Inserts(payload)) ==>
              && |payload.d.entries| == |old(payload.d.entries)| + 1
              && payload.d.entries[..|old(payload.d.entries)|] == old(payload.d.entries)
              && payload.d.entries[|old(payload.d.entries)|].0 == "metadata"
              && payload.d.entries[|old(payload.d.entries)|].1.Dict?
              && fresh(payload.d.entries[|old(payload.d.entries)|].1.d)
              && payload.d.entries[|old(payload.d.entries)|].1.d.entries == []
    ensures payload.Dict? && !old(Inserts(payload)) ==> payload.d.entries == old(payload.d.entries)
    ensures payload.Dict? ==> SpatialIn(payload.d.entries) == old(SpatialIn(payload.d.entries))
    ensures payload.Dict? && OwnSpatial(payload).Some? ==> HasKey(payload.d.entries, "metadata")
    ensures MetadataDict(payload) == old(MetadataDict(payload))
            || (MetadataDict(payload).Some? && fresh(MetadataDict(payload).value))
  {
    r := PayloadJson(payload);
    if Inserts(payload) {
      var es := payload.d.entries;
      var empty := new PyDict([]);
      GetPut(es, "metadata", Dict(empty), "spatial_type");
      GetPut(es, "metadata", Dict(empty), "metadata");
      payload.d.entries := Put(es, "metadata", Dict(empty));
      assert payload.d.entries == es + [("metadata", Dict(empty))];
      assert payload.d.entries[|es|].0 == "metadata";
    }
  }

  /** A payload `_payload_to_json` leaves as it is: a dict that passes the
      check has a `'metadata'` key, and nothing else is touched. */
  predicate Settled(payload: Value)
    reads if payload.Dict? then {payload.d} else {}
  {
    payload.Dict? && OwnSpatial(payload).Some? ==> HasKey(payload.d.entries, "metadata")
  }

  /** The dicts of `ds` that are settled now. */
  ghost function SettledIn(ds: set<PyDict>): set<PyDict>
    reads ds
  {
    set d | d in ds && Settled(Dict(d))
  }

  /** The dicts the payloads of `intervals` are. */
  function PayloadDicts(intervals: seq<RekallInterval>): (r: set<PyDict>)
    ensures forall k :: 0 <= k < |intervals| && intervals[k].payload.Dict? ==> intervals[k].payload.d in r
  {
    if intervals == [] then {}
    else
      var rest := PayloadDicts(intervals[1..]);
      assert forall k :: 1 <= k < |intervals| ==> intervals[k] == intervals[1..][k - 1];
      (if intervals[0].payload.Dict? then {intervals[0].payload.d} else {}) + rest
  }

  /** A rekall interval written with `_payload_to_json`: its bounds, then a
      converted payload with the spatial type the payload holds (`own`) or,
      when it holds none, the default box and no metadata. */
  predicate WrittenWith(j: Json, iv: RekallInterval, own: Option<PySpatialType.SpatialType>)
  {
    var st := if own.Some? then own.value else DefaultSpatial;
    && j.Obj? && |j.entries| == 2
    && j.entries[0] == ("bounds", iv.bounds)
    && j.entries[1].0 == "payload"
    && j.entries[1].1.Obj? && |j.entries[1].1.entries| == 2
    && PySpatialType.ToJson(st).Ok?
    && j.entries[1].1.entries[0] == ("spatial_type", PySpatialType.ToJson(st).value)
    && (own.None? ==> j.entries[1].1 == DefaultJson)
  }


  /** One interval of `set.to_json(self._payload_to_json)`: its bounds and
      its converted payload. `outer` is any set of payload dicts holding the
      interval's: no other dict of it changes its spatial type and, when none
      of them holds another as metadata, none changes what it converts to. */
  method WriteInterval(iv: RekallInterval, ghost outer: set<PyDict>) returns (r: Result<Json>)
    requires iv.payload.Dict? ==> iv.payload.d in outer
    modifies if iv.payload.Dict? then {iv.payload.d} else {}
    ensures r.Err? <==> old(PayloadJson(iv.payload)).Err?
    ensures r.Ok? ==> WrittenWith(r.value, iv, old(OwnSpatial(iv.payload)))
    ensures SpatialSnapshot(outer) == old(SpatialSnapshot(outer))
    ensures old(SettledIn(outer)) <= SettledIn(outer)
    ensures iv.payload.Dict? ==> iv.payload.d in SettledIn(outer)
    ensures iv.payload.Dict? ==> (r.Ok? <==> iv.payload.d in OkIn(old(ConvSnapshot(outer))))
    ensures old(MetadataApart(outer)) ==> MetadataApart(outer) && ConvSnapshot(outer) == old(ConvSnapshot(outer))
  {
    var p := PayloadToJson(iv.payload);
    WriteKeepsOthers(outer, iv.payload);
    if p.Err? {
      return Err(p.error);
    }
    r := Ok(Obj([("bounds", iv.bounds), ("payload", p.value)]));
  }

  /** The spatial type each of the dicts `ds` holds now: what the writers
      below write for a payload, since writing never changes it. */
  ghost function SpatialSnapshot(ds: set<PyDict>): map<PyDict, Option<PySpatialType.SpatialType>>
    reads ds
  {
    map d | d in ds :: SpatialIn(d.entries)
  }

  /** The spatial type `payload` holds in the snapshot. */
  ghost function OwnAt(snap: map<PyDict, Option<PySpatialType.SpatialType>>, payload: Value): Option<PySpatialType.SpatialType>
  {
    if payload.Dict? && payload.d in snap then snap[payload.d] else None
  }

  /** A named set written with `NamedIntervalSet.to_json()`: its name, then
      every interval written in order with the spatial type it held. */
  ghost predicate SetWritten(x: Json, s: NamedIntervalSet, snap: map<PyDict, Option<PySpatialType.SpatialType>>)
  {
    && s.intervalSet.IntervalSet?
    && x.Obj? && |x.entries| == 2
    && x.entries[0] == ("name", s.name)
    && x.entries[1].0 == "interval_set"
    && x.entries[1].1.Arr?
    && |x.entries[1].1.items| == |s.intervalSet.intervals|
    && forall j :: 0 <= j < |s.intervalSet.intervals| ==>
         WrittenWith(x.entries[1].1.items[j], s.intervalSet.intervals[j], OwnAt(snap, s.intervalSet.intervals[j].payload))
  }

  /** Two snapshots that agree on a set's dicts describe the same writing. */
  lemma SetWrittenAgree(x: Json, s: NamedIntervalSet, s1: map<PyDict, Option<PySpatialType.SpatialType>>,
                        s2: map<PyDict, Option<PySpatialType.SpatialType>>)
    requires SetWritten(x, s, s1)
    requires forall d :: d in SetDicts(s) ==> d in s1 && d in s2 && s1[d] == s2[d]
    ensures SetWritten(x, s, s2)
  {
    var ivs := s.intervalSet.intervals;
    forall j | 0 <= j < |ivs| ensures OwnAt(s1, ivs[j].payload) == OwnAt(s2, ivs[j].payload) {
      if ivs[j].payload.Dict? {
        assert ivs[j].payload.d in SetDicts(s);
      }
    }
  }

  /** A named set; the set is whatever value the caller passed. */
  datatype NamedIntervalSet = NamedIntervalSet(name: Json, intervalSet: Value)

  /** The payload dicts a named set's intervals carry. */
  function SetDicts(s: NamedIntervalSet): set<PyDict>
  {
    if s.intervalSet.IntervalSet? then PayloadDicts(s.intervalSet.intervals) else {}
  }

  /** `NamedIntervalSet.to_json()`: the name as given, and the set written
      interval by interval, in order. Every interval's payload is written with
      the spatial type it carries (a box for a payload that fails the check,
      then also with no metadata), and afterwards every payload dict that
      passed the check has a `'metadata'` key. A value that is not an interval
      set has no `to_json`. */
  method NamedSetToJson(s: NamedIntervalSet, ghost outer: set<PyDict>) returns (r: Result<Json>)
    requires SetDicts(s) <= outer
    modifies SetDicts(s)
    ensures !s.intervalSet.IntervalSet? ==> r == Err(AttributeError("to_json"))
    ensures r.Ok? ==> && r.value.Obj? && |r.value.entries| == 2
                      && r.value.entries[0] == ("name", s.name)
                      && r.value.entries[1].0 == "interval_set"
                      && r.value.entries[1].1.Arr?
                      && |r.value.entries[1].1.items| == |s.intervalSet.intervals|
    ensures r.Ok? ==> var ivs := s.intervalSet.intervals;
                      forall k :: 0 <= k < |ivs| ==>
                        WrittenWith(r.value.entries[1].1.items[k], ivs[k], old(OwnSpatial(ivs[k].payload)))
    ensures r.Ok? ==> var ivs := s.intervalSet.intervals;
                      forall k :: 0 <= k < |ivs| ==> Settled(ivs[k].payload)
    ensures r.Ok? ==> SetWritten(r.value, s, old(SpatialSnapshot(SetDicts(s))))
    ensures SpatialSnapshot(outer) == old(SpatialSnapshot(outer))
    ensures old(MetadataApart(outer)) ==>
              (r.Ok? <==> s.intervalSet.IntervalSet? && Converts(old(ConvSnapshot(outer)), SetDicts(s)))
    ensures old(MetadataApart(outer)) ==> MetadataApart(outer) && ConvSnapshot(outer) == old(ConvSnapshot(outer))
  {
    if !s.intervalSet.IntervalSet? {
      return Err(AttributeError("to_json"));
    }
    var ivs := s.intervalSet.intervals;
    ghost var owns := OwnSpatials(ivs);
    ghost var snap := SpatialSnapshot(SetDicts(s));
    var items := WriteIntervals(ivs, outer);
    if items.Err? {
      return Err(items.error);
    }
    r := Ok(Obj([("name", s.name), ("interval_set", Arr(items.value))]));
    forall j | 0 <= j < |ivs| ensures OwnAt(snap, ivs[j].payload) == owns[j] {
    }
  }

  /** rekall's `IntervalSet.to_json(self._payload_to_json)`: the intervals
      written one by one, in order, stopping at the first that fails. */
  method WriteIntervals(ivs: seq<RekallInterval>, ghost outer: set<PyDict>) returns (r: Result<seq<Json>>)
    requires PayloadDicts(ivs) <= outer
    modifies PayloadDicts(ivs)
    ensures r.Ok? ==> |r.value| == |ivs|
    ensures r.Ok? ==> forall k :: 0 <= k < |ivs| ==> WrittenWith(r.value[k], ivs[k], old(OwnSpatial(ivs[k].payload)))
    ensures r.Ok? ==> forall k :: 0 <= k < |ivs| ==> Settled(ivs[k].payload)
    ensures SpatialSnapshot(outer) == old(SpatialSnapshot(outer))
    ensures old(MetadataApart(outer)) ==> (r.Ok? <==> Converts(old(ConvSnapshot(outer)), PayloadDicts(ivs)))
    ensures old(MetadataApart(outer)) ==> MetadataApart(outer) && ConvSnapshot(outer) == old(ConvSnapshot(outer))
  {
    ghost var snap := SpatialSnapshot(outer);
    ghost var owns := seq(|ivs|, k requires 0 <= k < |ivs| => OwnAt(snap, ivs[k].payload));
    // The payload dicts of the intervals written so far.
    ghost var seen: set<PyDict> := {};
    var items: seq<Json> := [];
    var i := 0;
    assert ivs[0..] == ivs;
    while i < |ivs|
      invariant 0 <= i <= |ivs| && |items| == i
      invariant AllWritten(items, ivs, owns)
      invariant PayloadDicts(ivs) <= seen + PayloadDicts(ivs[i..])
      invariant seen <= SettledIn(outer)
      invariant SpatialSnapshot(outer) == old(SpatialSnapshot(outer))
      invariant old(MetadataApart(outer)) ==> MetadataApart(outer) && ConvSnapshot(outer) == old(ConvSnapshot(outer))
      invariant old(MetadataApart(outer)) ==> Converts(old(ConvSnapshot(outer)), seen)
    {
      var x;
      x, seen := WriteNext(ivs, i, outer, seen, owns[i]);
      if x.Err? {
        return Err(x.error);
      }
      AllWrittenSnoc(items, ivs, owns, x.value);
      items := items + [x.value];
      i := i + 1;
    }
    r := Ok(items);
    forall k | 0 <= k < |ivs| ensures owns[k] == old(OwnSpatial(ivs[k].payload)) {
    }
    forall k | 0 <= k < |ivs| ensures Settled(ivs[k].payload) {
      if ivs[k].payload.Dict? {
        assert ivs[k].payload == Dict(ivs[k].payload.d);
      }
    }
  }

  /** One step of `WriteIntervals`: `ivs[i]` written, and `seen` grown by
      its payload dict. */
  method WriteNext(ivs: seq<RekallInterval>, i: nat, ghost outer: set<PyDict>, ghost seen: set<PyDict>,
                   ghost own: Option<PySpatialType.SpatialType>)
      returns (r: Result<Json>, ghost seen': set<PyDict>)
    requires i < |ivs| && PayloadDicts(ivs) <= outer
    requires own == OwnAt(SpatialSnapshot(outer), ivs[i].payload)
    requires PayloadDicts(ivs) <= seen + PayloadDicts(ivs[i..])
    requires seen <= SettledIn(outer)
    modifies PayloadDicts(ivs)
    ensures r.Ok? ==> WrittenWith(r.value, ivs[i], own)
    ensures PayloadDicts(ivs) <= seen' + PayloadDicts(ivs[i + 1..])
    ensures seen' <= SettledIn(outer)
    ensures SpatialSnapshot(outer) == old(SpatialSnapshot(outer))
    ensures old(MetadataApart(outer)) ==> MetadataApart(outer) && ConvSnapshot(outer) == old(ConvSnapshot(outer))
    ensures r.Ok? ==> seen' <= seen + OkIn(old(ConvSnapshot(outer)))
    ensures r.Err? ==> !Converts(old(ConvSnapshot(outer)), PayloadDicts(ivs))
  {
    r := WriteInterval(ivs[i], outer);
    PayloadDictsFrom(ivs, i);
    seen' := if ivs[i].payload.Dict? then seen + {ivs[i].payload.d} else seen;
  }

  /** The dicts of `ivs[i..]` are the payload of `ivs[i]` and those after it. */
  lemma PayloadDictsFrom(ivs: seq<RekallInterval>, i: nat)
    requires i < |ivs|
    ensures PayloadDicts(ivs[i..]) == (if ivs[i].payload.Dict? then {ivs[i].payload.d} else {}) + PayloadDicts(ivs[i + 1..])
  {
    assert ivs[i..][1..] == ivs[i + 1..];
  }

  /** The spatial type each interval's payload holds. */
  function OwnSpatials(ivs: seq<RekallInterval>): (r: seq<Option<PySpatialType.SpatialType>>)
    reads PayloadDicts(ivs)
    ensures |r| == |ivs| && forall k :: 0 <= k < |ivs| ==> r[k] == OwnSpatial(ivs[k].payload)
  {
    seq(|ivs|, k requires 0 <= k < |ivs| reads PayloadDicts(ivs) => OwnSpatial(ivs[k].payload))
  }

  /** The first `|items|` intervals are written, each with its spatial type. */
  ghost predicate AllWritten(items: seq<Json>, ivs: seq<RekallInterval>, owns: seq<Option<PySpatialType.SpatialType>>)
  {
    |items| <= |ivs| && |owns| == |ivs|
    && forall k :: 0 <= k < |items| ==> WrittenWith(items[k], ivs[k], owns[k])
  }

  lemma AllWrittenSnoc(items: seq<Json>, ivs: seq<RekallInterval>, owns: seq<Option<PySpatialType.SpatialType>>, x: Json)
    requires AllWritten(items, ivs, owns) && |items| < |ivs|
    requires WrittenWith(x, ivs[|items|], owns[|items|])
    ensures AllWritten(items + [x], ivs, owns)
  {
    assert forall k :: 0 <= k < |items| ==> (items + [x])[k] == items[k];
  }

  /** A block of the grid: named interval sets shown over one video. */
  datatype IntervalBlock = IntervalBlock(intervalSets: seq<NamedIntervalSet>, videoId: Json)

  /** The payload dicts of every set in a block. */
  function BlockDicts(b: IntervalBlock): set<PyDict>
  {
    set k, d | 0 <= k < |b.intervalSets| && d in SetDicts(b.intervalSets[k]) :: d
  }

  /** A block written with `IntervalBlock.to_json()`: every set written in
      order, then the video id as it is. */
  ghost predicate BlockWritten(x: Json, b: IntervalBlock, snap: map<PyDict, Option<PySpatialType.SpatialType>>)
  {
    && x.Obj? && Keys(x.entries) == ["interval_sets", "video_id"]
    && x.entries[1].1 == b.videoId
    && x.entries[0].1.Arr?
    && |x.entries[0].1.items| == |b.intervalSets|
    && forall k :: 0 <= k < |b.intervalSets| ==> SetWritten(x.entries[0].1.items[k], b.intervalSets[k], snap)
  }

  /** Two snapshots that agree on a block's dicts describe the same writing. */
  lemma BlockWrittenAgree(x: Json, b: IntervalBlock, s1: map<PyDict, Option<PySpatialType.SpatialType>>,
                          s2: map<PyDict, Option<PySpatialType.SpatialType>>)
    requires BlockWritten(x, b, s1)
    requires forall d :: d in BlockDicts(b) ==> d in s1 && d in s2 && s1[d] == s2[d]
    ensures BlockWritten(x, b, s2)
  {
    forall k | 0 <= k < |b.intervalSets| ensures SetWritten(x.entries[0].1.items[k], b.intervalSets[k], s2) {
      SetWrittenAgree(x.entries[0].1.items[k], b.intervalSets[k], s1, s2);
    }
  }

  /** Every set of the block is an interval set (has `to_json`). */
  predicate SetsAreIntervalSets(b: IntervalBlock)
  {
    forall k :: 0 <= k < |b.intervalSets| ==> b.intervalSets[k].intervalSet.IntervalSet?
  }

  /** `IntervalBlock.to_json()`: each set written in order as its own
      `to_json()` writes it, then the video id unchanged; a value that is not
      an interval set fails. Writing keeps every dict's spatial type. `outer`
      is any set of payload dicts holding the block's: when none of them
      holds another as metadata, writing succeeds exactly when every set is
      an interval set and every payload converted before the call, and what
      each of them converts to is kept. */
  method BlockToJson(b: IntervalBlock, ghost outer: set<PyDict>) returns (r: Result<Json>)
    requires BlockDicts(b) <= outer
    modifies BlockDicts(b)
    ensures r.Ok? ==> BlockWritten(r.value, b, old(SpatialSnapshot(BlockDicts(b))))
    ensures !SetsAreIntervalSets(b) ==> r.Err?
    ensures SpatialSnapshot(outer) == old(SpatialSnapshot(outer))
    ensures old(MetadataApart(outer)) ==>
              (r.Ok? <==> SetsAreIntervalSets(b) && Converts(old(ConvSnapshot(outer)), BlockDicts(b)))
    ensures old(MetadataApart(outer)) ==> MetadataApart(outer) && ConvSnapshot(outer) == old(ConvSnapshot(outer))
  {
    var items := WriteSets(b, outer);
    if items.Err? {
      return Err(items.error);
    }
    r := Ok(Obj([("interval_sets", Arr(items.value)), ("video_id", b.videoId)]));
    assert Keys(r.value.entries) == ["interval_sets", "video_id"];
    BlockWrittenAgree(r.value, b, old(SpatialSnapshot(outer)), old(SpatialSnapshot(BlockDicts(b))));
  }

  /** `[iset.to_json() for iset in self.interval_sets]`: the sets written one
      by one, in order, stopping at the first that fails. */
  method WriteSets(b: IntervalBlock, ghost outer: set<PyDict>) returns (r: Result<seq<Json>>)
    requires BlockDicts(b) <= outer
    modifies BlockDicts(b)
    ensures r.Ok? ==> |r.value| == |b.intervalSets|
    ensures r.Ok? ==> forall k :: 0 <= k < |b.intervalSets| ==>
                        SetWritten(r.value[k], b.intervalSets[k], old(SpatialSnapshot(outer)))
    ensures !SetsAreIntervalSets(b) ==> r.Err?
    ensures SpatialSnapshot(outer) == old(SpatialSnapshot(outer))
    ensures old(MetadataApart(outer)) ==>
              (r.Ok? <==> SetsAreIntervalSets(b) && Converts(old(ConvSnapshot(outer)), BlockDicts(b)))
    ensures old(MetadataApart(outer)) ==> MetadataApart(outer) && ConvSnapshot(outer) == old(ConvSnapshot(outer))
  {
    var sets := b.intervalSets;
    ghost var snap := SpatialSnapshot(outer);
    // The payload dicts of the sets written so far.
    ghost var seen: set<PyDict> := {};
    var items: seq<Json> := [];
    var i := 0;
    while i < |sets|
      invariant 0 <= i <= |sets| && |items| == i
      invariant forall k :: 0 <= k < i ==> SetWritten(items[k], sets[k], snap)
      invariant SpatialSnapshot(outer) == snap
      invariant old(MetadataApart(outer)) ==> MetadataApart(outer) && ConvSnapshot(outer) == old(ConvSnapshot(outer))
      invariant forall k :: 0 <= k < i ==> sets[k].intervalSet.IntervalSet? && SetDicts(sets[k]) <= seen
      invariant old(MetadataApart(outer)) ==> Converts(old(ConvSnapshot(outer)), seen)
    {
      assert SetDicts(sets[i]) <= BlockDicts(b);
      label call:
      var x := NamedSetToJson(sets[i], outer);
      if x.Err? {
        return Err(x.error);
      }
      SetWrittenAgree(x.value, sets[i], old@call(SpatialSnapshot(SetDicts(sets[i]))), snap);
      seen := seen + SetDicts(sets[i]);
      ghost var done := items;
      items := items + [x.value];
      forall k | 0 <= k <= i ensures SetWritten(items[k], sets[k], snap) {
        if k < i {
          assert items[k] == done[k];
        }
      }
      i := i + 1;
    }
    r := Ok(items);
    assert BlockDicts(b) <= seen;
  }
}
