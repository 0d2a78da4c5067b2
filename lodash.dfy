/**
 * The lodash helpers the front end calls on JSON input: the own enumerable
 * entries of a value (what `_.keys` / `_.mapValues` iterate) and `_.mapValues`
 * with a decoder that may throw.
 */
module Lodash {
  import opened Js
  import Text

  /** The key/value pairs lodash iterates over: an object's own entries, an
      array's or string's indices; `undefined`, `null`, numbers and booleans
      have none. */
  function Entries(v: Option<Json>): (es: seq<(string, Json)>)
    ensures v.Some? && v.value.Obj? ==> es == v.value.entries
    ensures v.None? || v == Some(Null) ==> es == []
  {
    match v
    case Some(Obj(es)) => es
    case Some(Arr(items)) => IndexEntries(items, 0)
    case Some(Str(s)) => IndexEntries(seq(|s|, i requires 0 <= i < |s| => Str([s[i]])), 0)
    case _ => []
  }

  function IndexEntries(items: seq<Json>, from: nat): (es: seq<(string, Json)>)
    ensures |es| == |items|
    ensures forall i :: 0 <= i < |items| ==> es[i] == (NatToString(from + i), items[i])
    decreases |items|
  {
    if items == [] then [] else [(NatToString(from), items[0])] + IndexEntries(items[1..], from + 1)
  }

  /** `_.mapValues(v, f)`: the same keys in the same order, each value decoded;
      the first entry whose decoder throws makes the whole call throw. */
  function MapValues<T>(es: seq<(string, Json)>, f: Json -> Result<T>): (r: Result<seq<(string, T)>>)
    ensures r.Ok? ==> Keys(r.value) == Keys(es)
    ensures r.Ok? ==> forall i :: 0 <= i < |es| ==> f(es[i].1) == Ok(r.value[i].1)
    ensures r.Err? <==> exists i :: 0 <= i < |es| && f(es[i].1).Err?
  {
    if es == [] then Ok([])
    else match f(es[0].1)
      case Err(e) => Err(e)
      case Ok(x) =>
        match MapValues(es[1..], f)
        case Err(e) =>
          assert exists i :: 0 <= i < |es[1..]| && f(es[1..][i].1).Err?;
          var i :| 0 <= i < |es[1..]| && f(es[1..][i].1).Err?;
          assert f(es[i + 1].1).Err?;
          Err(e)
        case Ok(rest) =>
          assert forall i :: 1 <= i < |es| ==> es[i] == es[1..][i - 1];
          Ok([(es[0].0, x)] + rest)
  }
}
