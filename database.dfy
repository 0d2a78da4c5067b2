/**
 * The grid's database (vgridjs/src/database.tsx; src/database.tsx is the same
 * code without `from_json`): tables of rows keyed by their `id`, and a
 * database of tables keyed by their name. Both constructors fill a dictionary
 * one element at a time, so an element whose key was already used replaces the
 * earlier one.
 *
 * A JavaScript object converts every key to a string; here a row's key is its
 * `id` value itself (`None` when the row has no `id`), so ids that print the
 * same but differ in type (`1` and `"1"`) are distinct keys.
 */
module Database {
  import opened Js
  import Lodash

  /** The dictionary `xs.forEach(x => d[key(x)] = x)` builds from an empty one. */
  function IndexBy<K(==), T>(xs: seq<T>, key: T -> K): (d: seq<(K, T)>)
    ensures DistinctKeys(d)
  {
    if xs == [] then []
    else
      var d := IndexBy(xs[..|xs| - 1], key);
      PutKeepsDistinct(d, key(xs[|xs| - 1]), xs[|xs| - 1]);
      Put(d, key(xs[|xs| - 1]), xs[|xs| - 1])
  }

  /** Looking a key up after the last element has been stored. */
  lemma GetIndexByLast<K, T>(xs: seq<T>, key: T -> K, k: K)
    requires xs != []
    ensures Get(IndexBy(xs, key), k) ==
              if key(xs[|xs| - 1]) == k then Some(xs[|xs| - 1]) else Get(IndexBy(xs[..|xs| - 1], key), k)
  {
    var n := |xs| - 1;
    GetPut(IndexBy(xs[..n], key), key(xs[n]), xs[n], k);
  }

  /** Elements after position `m` that do not have key `k` leave what is
      stored under `k` as it was after the first `m` elements. */
  lemma {:induction false} UntouchedKey<K, T>(xs: seq<T>, key: T -> K, m: nat, k: K)
    requires m <= |xs|
    requires forall j :: m <= j < |xs| ==> key(xs[j]) != k
    ensures Get(IndexBy(xs, key), k) == Get(IndexBy(xs[..m], key), k)
    decreases |xs|
  {
    if m < |xs| {
      var n := |xs| - 1;
      var pre := xs[..n];
      GetIndexByLast(xs, key, k);
      forall j | m <= j < |pre| ensures key(pre[j]) != k {
        assert pre[j] == xs[j];
      }
      UntouchedKey(pre, key, m, k);
      assert pre[..m] == xs[..m];
    } else {
      assert xs[..m] == xs;
    }
  }

  /** The element stored under a key is the last one with that key: a later
      element with the same key overwrites an earlier one. */
  lemma LastWins<K, T>(xs: seq<T>, key: T -> K, i: nat)
    requires i < |xs|
    requires forall j :: i < j < |xs| ==> key(xs[j]) != key(xs[i])
    ensures Get(IndexBy(xs, key), key(xs[i])) == Some(xs[i])
  {
    var upTo := xs[..i + 1];
    UntouchedKey(xs, key, i + 1, key(xs[i]));
    assert upTo[i] == xs[i];
    GetIndexByLast(upTo, key, key(xs[i]));
  }

  /** A key no element has is not stored. */
  lemma {:induction false} AbsentKey<K, T>(xs: seq<T>, key: T -> K, k: K)
    requires forall j :: 0 <= j < |xs| ==> key(xs[j]) != k
    ensures Get(IndexBy(xs, key), k) == None
  {
    if xs != [] {
      var n := |xs| - 1;
      GetPut(IndexBy(xs[..n], key), key(xs[n]), xs[n], k);
      AbsentKey(xs[..n], key, k);
    }
  }

  /** With distinct keys nothing is overwritten: the elements are stored in
      their own order. */
  lemma {:induction false} IndexByDistinct<K, T>(xs: seq<T>, key: T -> K)
    requires forall i, j :: 0 <= i < j < |xs| ==> key(xs[i]) != key(xs[j])
    ensures |IndexBy(xs, key)| == |xs|
    ensures forall i :: 0 <= i < |xs| ==> IndexBy(xs, key)[i] == (key(xs[i]), xs[i])
  {
    if xs != [] {
      var n := |xs| - 1;
      var d := IndexBy(xs[..n], key);
      var pre := xs[..n];
      assert IndexBy(xs, key) == Put(d, key(xs[n]), xs[n]);
      forall i, j | 0 <= i < j < |pre| ensures key(pre[i]) != key(pre[j]) {
        assert pre[i] == xs[i] && pre[j] == xs[j];
      }
      IndexByDistinct(pre, key);
      forall w | 0 <= w < |d| ensures d[w].0 != key(xs[n]) {
        assert d[w].0 == key(xs[w]);
      }
      assert !HasKey(d, key(xs[n]));
    }
  }

  /** The key of a row: its `id` property. */
  function RowId(row: Json): Option<Json>
  {
    Field(Some(row), "id")
  }

  class Table {
    const name: string
    var rows: seq<(Option<Json>, Json)>

    /** `new Table(name, rows)`: every row is indexed by its `id`; reading the
        `id` of a `null` row throws, so rows are never `null`. */
    constructor (name: string, rows: seq<Json>)
      requires forall i :: 0 <= i < |rows| ==> rows[i] != Null
      ensures this.name == name && this.rows == IndexBy(rows, RowId)
    {
      this.name := name;
      var d: seq<(Option<Json>, Json)> := [];
      var i := 0;
      while i < |rows|
        invariant 0 <= i <= |rows|
        invariant d == IndexBy(rows[..i], RowId)
      {
        assert rows[..i + 1][..i] == rows[..i];
        d := Put(d, RowId(rows[i]), rows[i]);
        i := i + 1;
      }
      assert rows[..i] == rows;
      this.rows := d;
    }

    /** The table `from_json` builds from one `(name, rows)` entry. */
    predicate Holds(e: (string, Json))
      reads this
    {
      name == e.0 && e.1.Arr? && rows == IndexBy(e.1.items, RowId)
    }

    /** `lookup(id)`: the row stored under `id`; an id that is not stored throws. */
    function Lookup(id: real): (r: Result<Json>)
      reads this
      ensures r.Ok? <==> HasKey(rows, Some(Num(id)))
      ensures r.Ok? ==> Get(rows, Some(Num(id))) == Some(r.value)
      ensures r.Err? ==> r.error == MissingRow(id)
    {
      match Get(rows, Some(Num(id)))
      case Some(row) => Ok(row)
      case None => Err(MissingRow(id))
    }
  }

  /** In a table built from `rows`, looking up an id finds the last row with
      that id. */
  lemma LookupFindsLastRow(t: Table, rows: seq<Json>, i: nat, id: real)
    requires t.rows == IndexBy(rows, RowId)
    requires i < |rows| && RowId(rows[i]) == Some(Num(id))
    requires forall j :: i < j < |rows| ==> RowId(rows[j]) != Some(Num(id))
    ensures t.Lookup(id) == Ok(rows[i])
  {
    LastWins(rows, RowId, i);
  }

  /** In a table built from `rows`, looking up an id no row has throws. */
  lemma LookupMissingRow(t: Table, rows: seq<Json>, id: real)
    requires t.rows == IndexBy(rows, RowId)
    requires forall j :: 0 <= j < |rows| ==> RowId(rows[j]) != Some(Num(id))
    ensures t.Lookup(id) == Err(MissingRow(id))
  {
    AbsentKey(rows, RowId, Some(Num(id)));
  }

  /** The name of a table, the key of the database's dictionary. */
  function NameOf(t: Table): string
  {
    t.name
  }

  class Database {
    var tables: seq<(string, Table)>

    constructor (tables: seq<Table>)
      ensures this.tables == IndexBy(tables, NameOf)
    {
      var d: seq<(string, Table)> := [];
      var i := 0;
      while i < |tables|
        invariant 0 <= i <= |tables|
        invariant d == IndexBy(tables[..i], NameOf)
      {
        assert tables[..i + 1][..i] == tables[..i];
        d := Put(d, tables[i].name, tables[i]);
        i := i + 1;
      }
      assert tables[..i] == tables;
      this.tables := d;
    }

    /** `table(name)`: the table stored under `name`. A name inherited from
        `Object.prototype` passes the `in` test and gives back the inherited
        member, which is not a table (`Ok(None)`); any other missing name throws. */
    function TableNamed(name: string): (r: Result<Option<Table>>)
      reads this
      ensures r.Ok? && r.value.Some? <==> HasKey(tables, name)
      ensures r.Ok? && r.value.Some? ==> Get(tables, name) == r.value
      ensures r.Err? <==> !HasKey(tables, name) && name !in ObjectPrototypeNames
      ensures r.Err? ==> r.error == MissingTable(name)
    {
      match Get(tables, name)
      case Some(t) => Ok(Some(t))
      case None => if name in ObjectPrototypeNames then Ok(None) else Err(MissingTable(name))
    }

    /** `Database.from_json(obj)`: one table per own key of `obj`, named by the
        key and holding the rows listed under it. A value that is not an array
        (it has no `forEach`) or an array holding `null` throws. */
    static method FromJson(obj: Option<Json>) returns (r: Result<Database>)
      ensures var es := Lodash.Entries(obj);
              r.Ok? <==> forall i :: 0 <= i < |es| ==> RowsOk(es[i].1)
      ensures r.Err? ==> r.error.TypeError?
      ensures var es := Lodash.Entries(obj);
              r.Ok? ==> && fresh(r.value)
                        && (DistinctKeys(es) ==> Keys(r.value.tables) == Keys(es))
                        && (DistinctKeys(es) ==>
                              forall i :: 0 <= i < |es| ==>
                                var t := Get(r.value.tables, es[i].0);
                                t.Some? && t.value.name == es[i].0 && t.value.rows == IndexBy(es[i].1.items, RowId))
    {
      var es := Lodash.Entries(obj);
      var built := BuildTables(es);
      if built.Err? {
        return Err(built.error);
      }
      var ts := built.value;
      var db := new Database(ts);
      if DistinctKeys(es) {
        TablesByName(ts, es);
      }
      return Ok(db);
    }

    /** The `map` of `from_json`: a new table for each entry, in order. */
    static method BuildTables(es: seq<(string, Json)>) returns (r: Result<seq<Table>>)
      ensures r.Ok? <==> forall i :: 0 <= i < |es| ==> RowsOk(es[i].1)
      ensures r.Err? ==> r.error.TypeError?
      ensures r.Ok? ==> |r.value| == |es|
      ensures r.Ok? ==> forall j :: 0 <= j < |es| ==> fresh(r.value[j]) && r.value[j].Holds(es[j])
    {
      var ts: seq<Table> := [];
      var i := 0;
      while i < |es|
        invariant 0 <= i <= |es|
        invariant |ts| == i
        invariant forall j :: 0 <= j < i ==> RowsOk(es[j].1)
        invariant forall j :: 0 <= j < i ==> fresh(ts[j]) && ts[j].Holds(es[j])
      {
        if !RowsOk(es[i].1) {
          return Err(TypeError("rows.forEach is not a function, or a row is null"));
        }
        var t := new Table(es[i].0, es[i].1.items);
        ts := ts + [t];
        i := i + 1;
      }
      return Ok(ts);
    }
  }

  /** A value the `Table` constructor accepts as its rows. */
  predicate RowsOk(v: Json)
  {
    v.Arr? && forall i :: 0 <= i < |v.items| ==> v.items[i] != Null
  }

  /** Tables named after distinct keys are all kept, each under its own name. */
  lemma TablesByName(ts: seq<Table>, es: seq<(string, Json)>)
    requires |ts| == |es| && DistinctKeys(es)
    requires forall j :: 0 <= j < |ts| ==> ts[j].name == es[j].0
    ensures Keys(IndexBy(ts, NameOf)) == Keys(es)
    ensures forall i :: 0 <= i < |es| ==> Get(IndexBy(ts, NameOf), es[i].0) == Some(ts[i])
  {
    forall i, j | 0 <= i < j < |ts| ensures NameOf(ts[i]) != NameOf(ts[j]) {
      assert es[i].0 != es[j].0;
    }
    IndexByDistinct(ts, NameOf);
    forall i | 0 <= i < |es| ensures Get(IndexBy(ts, NameOf), es[i].0) == Some(ts[i]) {
      LastWins(ts, NameOf, i);
    }
  }
}
