/**
 * The Python package's reading of the label state the widget reports
 * (vgridpy/vgrid/label_state.py): block selections and, per block, the new
 * intervals the user created, read from the JSON the front end exports.
 *
 * Python's `d[k]` on a dictionary without `k` raises `KeyError`; on a value
 * that is not a dictionary (or a list indexed by a string) it raises
 * `TypeError`. Iterating a dictionary yields its keys, a string its characters.
 */
module PyLabelState {
  import opened Js
  import Text

  datatype SelectType = Positive | Negative

  /** `SelectType.from_string(s)`: the two names, anything else is `None`. */
  function FromString(v: Json): (r: Option<SelectType>)
    ensures r == Some(Positive) <==> v == Str("Positive")
    ensures r == Some(Negative) <==> v == Str("Negative")
  {
    if v == Str("Positive") then Some(Positive)
    else if v == Str("Negative") then Some(Negative)
    else None
  }

  /** `v[k]` for a string key. */
  function Index(v: Json, k: string): (r: Result<Json>)
    ensures r.Ok? <==> v.Obj? && HasKey(v.entries, k)
    ensures r.Ok? ==> Get(v.entries, k) == Some(r.value)
    ensures v.Obj? && !HasKey(v.entries, k) ==> r == Err(KeyError(k))
  {
    if v.Obj? then
      match Get(v.entries, k)
      case Some(x) => Ok(x)
      case None => Err(KeyError(k))
    else Err(TypeError("not subscriptable by a string"))
  }

  /** `for x in v`. */
  function Iterate(v: Json): (r: Result<seq<Json>>)
    ensures v.Arr? ==> r == Ok(v.items)
    ensures r.Err? <==> !(v.Arr? || v.Obj? || v.Str?)
  {
    match v
    case Arr(items) => Ok(items)
    case Obj(es) => Ok(seq(|es|, i requires 0 <= i < |es| => Str(es[i].0)))
    case Str(s) => Ok(seq(|s|, i requires 0 <= i < |s| => Str([s[i]])))
    case _ => Err(TypeError("not iterable"))
  }

  /** `d.items()`: only dictionaries have it. */
  function Items(v: Json): (r: Result<seq<(string, Json)>>)
    ensures r.Ok? <==> v.Obj?
    ensures r.Ok? ==> r.value == v.entries
  {
    if v.Obj? then Ok(v.entries) else Err(TypeError("object has no attribute 'items'"))
  }

  /** The rekall `Bounds3D` built from one exported interval. */
  datatype Bounds3D = Bounds3D(t1: Json, t2: Json, x1: Json, x2: Json, y1: Json, y2: Json)

  /** `intvl['bounds'][k]` and `intvl['bounds']['bbox'][k]`. */
  function BoundsField(intvl: Json, k: string): Result<Json>
  {
    match Index(intvl, "bounds")
    case Err(e) => Err(e)
    case Ok(b) => Index(b, k)
  }

  function BoxField(intvl: Json, k: string): Result<Json>
  {
    match Index(intvl, "bounds")
    case Err(e) => Err(e)
    case Ok(b) =>
      match Index(b, "bbox")
      case Err(e) => Err(e)
      case Ok(box) => Index(box, k)
  }

  /** One interval of `new_intervals`, its fields read in argument order. */
  function IntervalFromJson(intvl: Json): (r: Result<Bounds3D>)
    ensures r.Ok? ==> && BoundsField(intvl, "t1") == Ok(r.value.t1)
                      && BoundsField(intvl, "t2") == Ok(r.value.t2)
                      && BoxField(intvl, "x1") == Ok(r.value.x1) && BoxField(intvl, "x2") == Ok(r.value.x2)
                      && BoxField(intvl, "y1") == Ok(r.value.y1) && BoxField(intvl, "y2") == Ok(r.value.y2)
  {
    match BoundsField(intvl, "t1")
    case Err(e) => Err(e)
    case Ok(t1) =>
      match BoundsField(intvl, "t2")
      case Err(e) => Err(e)
      case Ok(t2) =>
        match BoxField(intvl, "x1")
        case Err(e) => Err(e)
        case Ok(x1) =>
          match BoxField(intvl, "x2")
          case Err(e) => Err(e)
          case Ok(x2) =>
            match BoxField(intvl, "y1")
            case Err(e) => Err(e)
            case Ok(y1) =>
              match BoxField(intvl, "y2")
              case Err(e) => Err(e)
              case Ok(y2) => Ok(Bounds3D(t1, t2, x1, x2, y1, y2))
  }

  /** A list comprehension `[f(x) for x in items]`: every element in order;
      the first that raises makes the whole list raise. */
  function MapList<T>(items: seq<Json>, f: Json -> Result<T>): (r: Result<seq<T>>)
    ensures r.Ok? <==> forall i :: 0 <= i < |items| ==> f(items[i]).Ok?
    ensures r.Ok? ==> |r.value| == |items| && forall i :: 0 <= i < |items| ==> f(items[i]) == Ok(r.value[i])
  {
    if items == [] then Ok([])
    else
      match f(items[0])
      case Err(e) => Err(e)
      case Ok(b) =>
        match MapList(items[1..], f)
        case Err(e) =>
          var i :| 0 <= i < |items[1..]| && f(items[1..][i]).Err?;
          assert f(items[i + 1]).Err?;
          Err(e)
        case Ok(rest) =>
          assert forall i :: 1 <= i < |items| ==> items[i] == items[1..][i - 1];
          Ok([b] + rest)
  }

  /** `BlockLabelState(block)`: the new intervals, one per exported interval;
      the selected captions are always `None`. */
  datatype BlockLabelState = BlockLabelState(newIntervals: seq<Bounds3D>, captionsSelected: Option<seq<int>>)

  function BlockFromJson(block: Json): (r: Result<BlockLabelState>)
    ensures r.Ok? ==> r.value.captionsSelected == None
    ensures block.Obj? && !HasKey(block.entries, "new_intervals") ==> r == Err(KeyError("new_intervals"))
    ensures r.Ok? ==> exists items :: Index(block, "new_intervals").Ok? && Iterate(Index(block, "new_intervals").value) == Ok(items)
                                      && MapList(items, IntervalFromJson) == Ok(r.value.newIntervals)
  {
    match Index(block, "new_intervals")
    case Err(e) => Err(e)
    case Ok(list) =>
      match Iterate(list)
      case Err(e) => Err(e)
      case Ok(items) =>
        match MapList(items, IntervalFromJson)
        case Err(e) => Err(e)
        case Ok(bs) => Ok(BlockLabelState(bs, None))
  }

  /** The key `int(k)` of the `i`-th entry. */
  function KeyOf(e: (string, Json)): Result<int>
  {
    Text.ParseInt(e.0)
  }

  /** No later entry has the same integer key as entry `i`. */
  predicate LastOf(es: seq<(string, Json)>, i: nat)
    requires i < |es|
  {
    forall j :: i < j < |es| ==> KeyOf(es[j]) != KeyOf(es[i])
  }

  /** Key `x` is met in `es` before any entry with key `y`. */
  predicate MetBefore(es: seq<(string, Json)>, x: int, y: int)
  {
    exists i :: 0 <= i < |es| && KeyOf(es[i]) == Ok(x) && forall j :: 0 <= j <= i ==> KeyOf(es[j]) != Ok(y)
  }

  /** `d` is the dict `{int(k): value(v) for k, v in es}`: one entry per
      distinct integer key, ordered by first occurrence, holding the value of
      the last entry with that key. */
  ghost predicate DictOf<V>(es: seq<(string, Json)>, value: Json -> Result<V>, d: seq<(int, V)>)
  {
    && DistinctKeys(d)
    && (forall k :: HasKey(d, k) <==> exists i :: 0 <= i < |es| && KeyOf(es[i]) == Ok(k))
    && (forall i :: 0 <= i < |es| && LastOf(es, i) ==>
          KeyOf(es[i]).Ok? && value(es[i].1).Ok? && Get(d, KeyOf(es[i]).value) == Some(value(es[i].1).value))
    && (forall a, b :: 0 <= a < b < |d| ==> MetBefore(es, d[a].0, d[b].0))
  }

  /** A dict comprehension `{f(k): g(v) for k, v in d.items()}`: keys and values
      computed in order, a repeated key keeping its first position and its last
      value. */
  function ParseEntries<V>(es: seq<(string, Json)>, value: Json -> Result<V>): (r: Result<seq<(int, V)>>)
    ensures r.Ok? <==> forall i :: 0 <= i < |es| ==> Text.ParseInt(es[i].0).Ok? && value(es[i].1).Ok?
    ensures r.Ok? ==> DictOf(es, value, r.value)
  {
    ComprehensionBuilds(es, value);
    Comprehension(es, value)
  }

  /** The comprehension's evaluation: entry by entry, `d[int(k)] = value(v)`,
      stopping at the first key or value that raises. */
  function Comprehension<V>(es: seq<(string, Json)>, value: Json -> Result<V>): Result<seq<(int, V)>>
    decreases |es|
  {
    if es == [] then Ok([])
    else
      var n := |es| - 1;
      match Comprehension(es[..n], value)
      case Err(e) => Err(e)
      case Ok(d) =>
        match Text.ParseInt(es[n].0)
        case Err(e) => Err(e)
        case Ok(k) =>
          match value(es[n].1)
          case Err(e) => Err(e)
          case Ok(v) => Ok(Put(d, k, v))
  }

  lemma {:induction false} ComprehensionBuilds<V>(es: seq<(string, Json)>, value: Json -> Result<V>)
    ensures Comprehension(es, value).Ok? <==> forall i :: 0 <= i < |es| ==> Text.ParseInt(es[i].0).Ok? && value(es[i].1).Ok?
    ensures Comprehension(es, value).Ok? ==> DictOf(es, value, Comprehension(es, value).value)
    decreases |es|
  {
    if es != [] {
      var n := |es| - 1;
      ComprehensionBuilds(es[..n], value);
      ConvertsSnoc(es, value);
      var d := Comprehension(es[..n], value);
      if d.Ok? && KeyOf(es[n]).Ok? && value(es[n].1).Ok? {
        DictOfSnoc(es, value, d.value, KeyOf(es[n]).value, value(es[n].1).value);
      }
    }
  }

  /** Every entry converts exactly when every earlier one and the last one do. */
  lemma ConvertsSnoc<V>(es: seq<(string, Json)>, value: Json -> Result<V>)
    requires es != []
    ensures var n := |es| - 1;
            (forall i :: 0 <= i < |es| ==> Text.ParseInt(es[i].0).Ok? && value(es[i].1).Ok?)
            <==> && (forall i :: 0 <= i < n ==> Text.ParseInt(es[..n][i].0).Ok? && value(es[..n][i].1).Ok?)
                 && Text.ParseInt(es[n].0).Ok? && value(es[n].1).Ok?
  {
    assert forall i :: 0 <= i < |es| - 1 ==> es[..|es| - 1][i] == es[i];
  }

  /** The comprehension's step: one more entry is written with `d[k] = v`. */
  lemma DictOfSnoc<V>(es: seq<(string, Json)>, value: Json -> Result<V>, d: seq<(int, V)>, k: int, v: V)
    requires es != []
    requires DictOf(es[..|es| - 1], value, d)
    requires KeyOf(es[|es| - 1]) == Ok(k) && value(es[|es| - 1].1) == Ok(v)
    ensures DictOf(es, value, Put(d, k, v))
  {
    PutKeepsDistinct(d, k, v);
    SnocKeys(es, value, d, k, v);
    SnocValues(es, value, d, k, v);
    SnocOrder(es, value, d, k, v);
  }

  lemma SnocKeys<V>(es: seq<(string, Json)>, value: Json -> Result<V>, d: seq<(int, V)>, k: int, v: V)
    requires es != []
    requires forall k :: HasKey(d, k) <==> exists i :: 0 <= i < |es| - 1 && KeyOf(es[i]) == Ok(k)
    requires KeyOf(es[|es| - 1]) == Ok(k)
    ensures forall k' :: HasKey(Put(d, k, v), k') <==> exists i :: 0 <= i < |es| && KeyOf(es[i]) == Ok(k')
  {
    var r := Put(d, k, v);
    forall k' ensures HasKey(r, k') <==> exists i :: 0 <= i < |es| && KeyOf(es[i]) == Ok(k') {
      GetPut(d, k, v, k');
      if exists i :: 0 <= i < |es| && KeyOf(es[i]) == Ok(k') {
        var i :| 0 <= i < |es| && KeyOf(es[i]) == Ok(k');
        if i < |es| - 1 {
          assert HasKey(d, k');
        }
      }
    }
  }

  lemma SnocValues<V>(es: seq<(string, Json)>, value: Json -> Result<V>, d: seq<(int, V)>, k: int, v: V)
    requires es != []
    requires var p := es[..|es| - 1];
             forall i :: 0 <= i < |p| && LastOf(p, i) ==>
               KeyOf(p[i]).Ok? && value(p[i].1).Ok? && Get(d, KeyOf(p[i]).value) == Some(value(p[i].1).value)
    requires KeyOf(es[|es| - 1]) == Ok(k) && value(es[|es| - 1].1) == Ok(v)
    ensures forall i :: 0 <= i < |es| && LastOf(es, i) ==>
              KeyOf(es[i]).Ok? && value(es[i].1).Ok? && Get(Put(d, k, v), KeyOf(es[i]).value) == Some(value(es[i].1).value)
  {
    var n := |es| - 1;
    var p := es[..n];
    forall i | 0 <= i < |es| && LastOf(es, i)
      ensures KeyOf(es[i]).Ok? && value(es[i].1).Ok? && Get(Put(d, k, v), KeyOf(es[i]).value) == Some(value(es[i].1).value)
    {
      if i < n {
        assert KeyOf(es[n]) != KeyOf(es[i]);
        assert p[i] == es[i];
        assert LastOf(p, i) by {
          forall j | i < j < |p| ensures KeyOf(p[j]) != KeyOf(p[i]) {
            assert p[j] == es[j];
          }
        }
        GetPut(d, k, v, KeyOf(es[i]).value);
      } else {
        GetPut(d, k, v, k);
      }
    }
  }

  lemma SnocOrder<V>(es: seq<(string, Json)>, value: Json -> Result<V>, d: seq<(int, V)>, k: int, v: V)
    requires es != []
    requires forall k :: HasKey(d, k) <==> exists i :: 0 <= i < |es| - 1 && KeyOf(es[i]) == Ok(k)
    requires forall a, b :: 0 <= a < b < |d| ==> MetBefore(es[..|es| - 1], d[a].0, d[b].0)
    requires KeyOf(es[|es| - 1]) == Ok(k)
    ensures forall a, b :: 0 <= a < b < |Put(d, k, v)| ==> MetBefore(es, Put(d, k, v)[a].0, Put(d, k, v)[b].0)
  {
    var n := |es| - 1;
    var p := es[..n];
    var r := Put(d, k, v);
    forall a, b | 0 <= a < b < |r| ensures MetBefore(es, r[a].0, r[b].0) {
      if b < |d| {
        assert r[a].0 == d[a].0 && r[b].0 == d[b].0;
        assert MetBefore(p, d[a].0, d[b].0);
        var i :| 0 <= i < |p| && KeyOf(p[i]) == Ok(d[a].0) && forall j :: 0 <= j <= i ==> KeyOf(p[j]) != Ok(d[b].0);
        forall j | 0 <= j <= i ensures KeyOf(es[j]) != Ok(r[b].0) {
          assert p[j] == es[j];
        }
        assert p[i] == es[i];
      } else {
        assert !HasKey(d, k);
        assert r[b].0 == k && r[a] == d[a];
        assert HasKey(d, d[a].0);
        var i :| 0 <= i < n && KeyOf(es[i]) == Ok(d[a].0);
        assert forall j :: 0 <= j <= i ==> KeyOf(es[j]) != Ok(k);
      }
    }
  }

  /** A selection value, read with `from_string` (which never raises). */
  function SelectionOf(v: Json): Result<Option<SelectType>>
  {
    Ok(FromString(v))
  }

  /** `LabelState.blocks_selected()`: block indices to selection types, read
      again from the widget's current state on every call. */
  function BlocksSelected(state: Json): (r: Result<seq<(int, Option<SelectType>)>>)
    ensures r.Ok? <==> Index(state, "blocks_selected").Ok? && Index(state, "blocks_selected").value.Obj?
                       && var es := Index(state, "blocks_selected").value.entries;
                          forall i :: 0 <= i < |es| ==> KeyOf(es[i]).Ok?
    ensures r.Ok? ==> DictOf(Index(state, "blocks_selected").value.entries, SelectionOf, r.value)
  {
    match Index(state, "blocks_selected")
    case Err(e) => Err(e)
    case Ok(sel) =>
      match Items(sel)
      case Err(e) => Err(e)
      case Ok(es) => ParseEntries(es, SelectionOf)
  }

  /** `LabelState.block_labels()`: block indices to their label states. */
  function BlockLabels(state: Json): (r: Result<seq<(int, BlockLabelState)>>)
    ensures r.Ok? <==> Index(state, "block_labels").Ok? && Index(state, "block_labels").value.Obj?
                       && var es := Index(state, "block_labels").value.entries;
                          forall i :: 0 <= i < |es| ==> KeyOf(es[i]).Ok? && BlockFromJson(es[i].1).Ok?
    ensures r.Ok? ==> DictOf(Index(state, "block_labels").value.entries, BlockFromJson, r.value)
  {
    match Index(state, "block_labels")
    case Err(e) => Err(e)
    case Ok(labels) =>
      match Items(labels)
      case Err(e) => Err(e)
      case Ok(es) => ParseEntries(es, BlockFromJson)
  }
}
