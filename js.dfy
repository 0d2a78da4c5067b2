/**
 * Values shared by the whole model: the JSON values that the front end and the
 * Python package exchange, JavaScript's `undefined` (an `Option`), the failures a
 * JavaScript or Python call can end in, and insertion-ordered dictionaries (the
 * shape of a JavaScript object or a Python dict).
 */
module Js {

  datatype Option<T> = None | Some(value: T)

  /** Why an operation did not return normally. */
  datatype Error =
    | TypeError(what: string)                // reading a property of undefined/null, calling a non-function
    | Thrown(message: string)                // an explicit `throw new Error(message)` / `raise Exception(message)`
    | InvalidSpatialType(tag: Option<Json>)  // `Invalid spatial type ${obj.type}`
    | MissingRow(id: real)                   // a table lookup of an id that is not there
    | MissingTable(name: string)             // a database lookup of a table that is not there
    | KeyError(key: string)                  // Python: a dict lookup of a missing key
    | IndexError(what: string)               // Python: an index past the end of a list
    | NameError(name: string)                // Python: a name that is not defined
    | ValueError(what: string)               // Python: `int(s)` on a string that is not an integer
    | AttributeError(name: string)           // Python: calling a method the value does not have
    | MissingVideoKey(video: int)            // Python: `KeyError` from a mapping indexed by video id
    | ZeroDivisionError                      // Python: dividing by zero

  datatype Result<T> = Ok(value: T) | Err(error: Error)
  {
    predicate IsOk() { Ok? }
  }

  /** A JSON value; objects keep their keys in insertion order. */
  datatype Json =
    | Null
    | Bool(b: bool)
    | Num(n: real)
    | Str(s: string)
    | Arr(items: seq<Json>)
    | Obj(entries: seq<(string, Json)>)

  // ---------------------------------------------------------------------------
  // Insertion-ordered dictionaries with distinct keys.
  // ---------------------------------------------------------------------------

  function Keys<K(==), V>(d: seq<(K, V)>): (ks: seq<K>)
    ensures |ks| == |d|
    ensures forall i :: 0 <= i < |d| ==> ks[i] == d[i].0
  {
    if d == [] then [] else [d[0].0] + Keys(d[1..])
  }

  predicate DistinctKeys<K(==), V>(d: seq<(K, V)>)
  {
    forall i, j :: 0 <= i < j < |d| ==> d[i].0 != d[j].0
  }

  predicate HasKey<K(==), V>(d: seq<(K, V)>, k: K)
  {
    exists i :: 0 <= i < |d| && d[i].0 == k
  }

  /** The value stored under `k` (the first entry with that key). */
  function Get<K(==), V>(d: seq<(K, V)>, k: K): (r: Option<V>)
    ensures r.None? <==> !HasKey(d, k)
    ensures r.Some? ==> exists i :: 0 <= i < |d| && d[i] == (k, r.value)
  {
    if d == [] then None
    else if d[0].0 == k then Some(d[0].1)
    else
      var r := Get(d[1..], k);
      assert r.Some? ==> exists i :: 0 <= i < |d[1..]| && d[1..][i] == (k, r.value);
      r
  }

  /** `d[k] = v`: an existing key keeps its position, a new key goes last. */
  function Put<K(==), V>(d: seq<(K, V)>, k: K, v: V): (r: seq<(K, V)>)
    ensures HasKey(d, k) ==> |r| == |d|
    ensures !HasKey(d, k) ==> r == d + [(k, v)]
    ensures forall i :: 0 <= i < |d| ==> r[i].0 == d[i].0
  {
    if d == [] then [(k, v)]
    else if d[0].0 == k then [(k, v)] + d[1..]
    else [d[0]] + Put(d[1..], k, v)
  }

  /** `delete d[k]`: the other entries keep their order. */
  function Delete<K(==), V>(d: seq<(K, V)>, k: K): (r: seq<(K, V)>)
    ensures !HasKey(r, k)
    ensures forall i :: 0 <= i < |r| ==> r[i] in d && r[i].0 != k
    ensures forall i :: 0 <= i < |d| && d[i].0 != k ==> d[i] in r
  {
    if d == [] then []
    else if d[0].0 == k then Delete(d[1..], k)
    else [d[0]] + Delete(d[1..], k)
  }

  lemma {:induction false} GetPut<K, V>(d: seq<(K, V)>, k: K, v: V, k': K)
    ensures Get(Put(d, k, v), k') == if k' == k then Some(v) else Get(d, k')
  {
    if d != [] && d[0].0 != k {
      GetPut(d[1..], k, v, k');
      assert Put(d, k, v)[1..] == Put(d[1..], k, v);
    } else if d != [] {
      assert Put(d, k, v)[1..] == d[1..];
    }
  }

  /** Writing a key twice keeps the second value. */
  lemma {:induction false} PutPut<K, V>(d: seq<(K, V)>, k: K, v1: V, v2: V)
    ensures Put(Put(d, k, v1), k, v2) == Put(d, k, v2)
  {
    if d != [] && d[0].0 != k {
      PutPut(d[1..], k, v1, v2);
      assert Put(d, k, v1)[1..] == Put(d[1..], k, v1);
    }
  }

  /** Writing back the value a key holds changes nothing. */
  lemma {:induction false} PutGet<K, V>(d: seq<(K, V)>, k: K)
    requires HasKey(d, k)
    ensures Put(d, k, Get(d, k).value) == d
  {
    if d[0].0 != k {
      assert HasKey(d[1..], k) by {
        var i :| 0 <= i < |d| && d[i].0 == k;
        assert d[1..][i - 1].0 == k;
      }
      PutGet(d[1..], k);
    }
  }

  lemma {:induction false} GetDelete<K, V>(d: seq<(K, V)>, k: K, k': K)
    ensures Get(Delete(d, k), k') == if k' == k then None else Get(d, k')
  {
    if d != [] {
      GetDelete(d[1..], k, k');
      if d[0].0 != k {
        assert Delete(d, k)[1..] == Delete(d[1..], k);
      }
    }
  }

  // Small facts about sequences, proved on their own so that the proofs that
  // use them do not have to rediscover them among many other terms.

  lemma AppendAssoc<T>(a: seq<T>, b: seq<T>, c: seq<T>)
    ensures a + (b + c) == a + b + c
  {
  }

  lemma PrefixAll<T>(s: seq<T>)
    ensures s[..|s|] == s
  {
  }

  lemma PrefixSnoc<T>(s: seq<T>, n: nat)
    requires n < |s|
    ensures s[..n + 1] == s[..n] + [s[n]]
  {
  }

  lemma AppendRight<T>(a: seq<T>, b: seq<T>)
    ensures forall i :: |a| <= i < |a| + |b| ==> (a + b)[i] == b[i - |a|]
  {
  }

  lemma TailIndex<T>(s: seq<T>)
    requires s != []
    ensures forall i :: 1 <= i < |s| ==> s[i] == s[1..][i - 1]
  {
  }

  /** Looking a key up in a dict that starts with one given entry. */
  lemma GetCons<K, V>(k: K, v: V, rest: seq<(K, V)>, key: K)
    ensures Get([(k, v)] + rest, key) == if k == key then Some(v) else Get(rest, key)
  {
    assert ([(k, v)] + rest)[1..] == rest;
  }

  lemma KeysCons<K, V>(k: K, v: V, rest: seq<(K, V)>)
    ensures Keys([(k, v)] + rest) == [k] + Keys(rest)
  {
    assert ([(k, v)] + rest)[1..] == rest;
  }

  lemma {:induction false} PutKeepsDistinct<K, V>(d: seq<(K, V)>, k: K, v: V)
    requires DistinctKeys(d)
    ensures DistinctKeys(Put(d, k, v))
    ensures HasKey(Put(d, k, v), k)
  {
    if d != [] && d[0].0 != k {
      PutKeepsDistinct(d[1..], k, v);
      var r := Put(d, k, v);
      assert r[1..] == Put(d[1..], k, v);
      forall i, j | 0 <= i < j < |r| ensures r[i].0 != r[j].0 {
        if i == 0 {
          if HasKey(d[1..], k) {
            assert r[j].0 == d[1..][j - 1].0;
          } else if j < |r| - 1 {
            assert r[j].0 == d[1..][j - 1].0;
          }
        }
      }
      assert r[0].0 != k;
      var rest := Put(d[1..], k, v);
      var w :| 0 <= w < |rest| && rest[w].0 == k;
      assert r[w + 1].0 == k;
    } else if d != [] {
      assert Put(d, k, v)[0].0 == k;
    } else {
      assert Put(d, k, v)[0].0 == k;
    }
  }

  // ---------------------------------------------------------------------------
  // JavaScript property access.
  // ---------------------------------------------------------------------------

  /** `v.k` where `v` may be `undefined` (None): reading a property of undefined or
      null throws a TypeError; a missing property is `undefined`. Own properties of
      arrays and strings (`length`, indices) are read with `At`, not here. */
  function Prop(v: Option<Json>, k: string): (r: Result<Option<Json>>)
    ensures r.Err? <==> v == None || v == Some(Null)
    ensures r.Ok? ==> r.value == Field(v, k)
  {
    match v
    case None => Err(TypeError("property " + k + " of undefined"))
    case Some(Null) => Err(TypeError("property " + k + " of null"))
    case Some(Obj(es)) => Ok(Get(es, k))
    case Some(_) => Ok(None)
  }

  function DigitChar(d: nat): char
    requires d < 10
  {
    ('0' as int + d) as char
  }

  /** The decimal digits of `n`, most significant first, no leading zero. */
  function NatToString(n: nat): (s: string)
    ensures |s| >= 1
    ensures forall i :: 0 <= i < |s| ==> '0' <= s[i] <= '9'
    ensures |s| > 1 ==> s[0] != '0'
    decreases n
  {
    if n < 10 then [DigitChar(n)] else NatToString(n / 10) + [DigitChar(n % 10)]
  }

  /** `v[i]`: the index is converted to the property key `String(i)`. An array
      or a string has it exactly below its length, a string's being its `i`-th
      character; an object has it when it holds that key; other values have
      no such property. */
  function At(v: Option<Json>, i: nat): (r: Result<Option<Json>>)
    ensures r.Err? <==> v == None || v == Some(Null)
    ensures v.Some? && v.value.Arr? ==>
              r == Ok(if i < |v.value.items| then Some(v.value.items[i]) else None)
    ensures v.Some? && v.value.Str? ==>
              r == Ok(if i < |v.value.s| then Some(Str([v.value.s[i]])) else None)
    ensures v.Some? && v.value.Obj? ==> r == Ok(Get(v.value.entries, NatToString(i)))
    ensures v.Some? && (v.value.Num? || v.value.Bool?) ==> r == Ok(None)
  {
    match v
    case None => Err(TypeError("index of undefined"))
    case Some(Null) => Err(TypeError("index of null"))
    case Some(Arr(items)) => Ok(if i < |items| then Some(items[i]) else None)
    case Some(Str(s)) => Ok(if i < |s| then Some(Str([s[i]])) else None)
    case Some(Obj(es)) => Ok(Get(es, NatToString(i)))
    case Some(_) => Ok(None)
  }

  /** `undefined` or `null`: the values whose properties cannot be read. */
  predicate Nullish(v: Option<Json>)
  {
    v == None || v == Some(Null)
  }

  /** The value `v.k` has when reading it does not throw. */
  function Field(v: Option<Json>, k: string): (r: Option<Json>)
    ensures r.Some? ==> v.Some? && v.value.Obj? && HasKey(v.value.entries, k)
  {
    if v.Some? && v.value.Obj? then Get(v.value.entries, k) else None
  }

  /** The property key a value is converted to when it indexes an object
      (`types[v]`, `v in types`): a string is its own key, `undefined`, `null` and
      booleans print as words, and a one-element array prints as its element.
      `None` stands for every other key (the printed form of a number, of an
      object, of a longer array), none of which names a registry entry or a
      member of `Object.prototype`. */
  function PropertyKey(v: Option<Json>): Option<string>
  {
    match v
    case None => Some("undefined")
    case Some(Null) => Some("null")
    case Some(Bool(b)) => Some(if b then "true" else "false")
    case Some(j) => JsonKey(j)
  }

  function JsonKey(j: Json): Option<string>
  {
    match j
    case Str(s) => Some(s)
    case Arr(items) => if |items| == 1 && (items[0].Str? || items[0].Arr?) then JsonKey(items[0]) else None
    case _ => None
  }

  /** The names every object inherits from `Object.prototype`: `k in obj` holds
      for them although no registry lists them. */
  const ObjectPrototypeNames: seq<string> :=
    ["constructor", "hasOwnProperty", "isPrototypeOf", "propertyIsEnumerable",
     "toLocaleString", "toString", "valueOf", "__proto__", "__defineGetter__",
     "__defineSetter__", "__lookupGetter__", "__lookupSetter__"]

  /** Python truthiness of a JSON-shaped value: `None`, `False`, zero and empty
      strings, lists and dicts are false. */
  predicate PyTruthy(v: Json)
  {
    match v
    case Null => false
    case Bool(b) => b
    case Num(n) => n != 0.0
    case Str(s) => s != []
    case Arr(items) => items != []
    case Obj(es) => es != []
  }

  /** JavaScript truthiness of a possibly-undefined number (NaN is not modelled). */
  predicate TruthyNum(x: Option<real>)
  {
    x.Some? && x.value != 0.0
  }

  /** `Math.round`: the nearest integer, halves rounded up. */
  function Round(x: real): (r: int)
    ensures x - 0.5 < r as real <= x + 0.5
  {
    (x + 0.5).Floor
  }
}
