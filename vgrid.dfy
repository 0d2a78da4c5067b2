/**
 * The grid component (vgridjs/src/vgrid.tsx): it owns the label state and the
 * undo stack that all blocks share, colours every interval set, merges the
 * settings the caller passes over the defaults, keeps which blocks are
 * selected, and expands at most one block at a time.
 *
 * The palette (vgridjs/src/color.tsx) is not part of this model; it is a
 * parameter, and reading past its end gives `undefined` (`None`).
 */
module VGrid {
  import opened Js
  import VBlock
  import Undo
  import LS = LabelState

  type Labels = seq<(int, LS.BlockLabelState)>
  type ColorMap = seq<(string, Option<string>)>

  // ---------------------------------------------------------------------------
  // Block selection.
  // ---------------------------------------------------------------------------

  /** `on_block_selected(i, t)` on the selection map: a block already selected
      with `t` is unselected, any other block becomes selected with `t`. */
  function Toggled(selected: seq<(int, LS.SelectType)>, i: int, t: LS.SelectType): (r: seq<(int, LS.SelectType)>)
    ensures Get(selected, i) == Some(t) ==> Get(r, i) == None
    ensures Get(selected, i) != Some(t) ==> Get(r, i) == Some(t)
    ensures forall k :: k != i ==> Get(r, k) == Get(selected, k)
    ensures DistinctKeys(selected) ==> DistinctKeys(r)
  {
    if Get(selected, i) == Some(t) then
      forall k ensures Get(Delete(selected, i), k) == (if k == i then None else Get(selected, k)) {
        GetDelete(selected, i, k);
      }
      assert DistinctKeys(selected) ==> DistinctKeys(Delete(selected, i)) by {
        if DistinctKeys(selected) {
          DeleteKeepsDistinct(selected, i);
        }
      }
      Delete(selected, i)
    else
      forall k ensures Get(Put(selected, i, t), k) == (if k == i then Some(t) else Get(selected, k)) {
        GetPut(selected, i, t, k);
      }
      assert DistinctKeys(selected) ==> DistinctKeys(Put(selected, i, t)) by {
        if DistinctKeys(selected) {
          PutKeepsDistinct(selected, i, t);
        }
      }
      Put(selected, i, t)
  }

  lemma {:induction false} DeleteKeepsDistinct<K, V>(d: seq<(K, V)>, k: K)
    requires DistinctKeys(d)
    ensures DistinctKeys(Delete(d, k))
  {
    if d != [] {
      DeleteKeepsDistinct(d[1..], k);
      if d[0].0 != k {
        var r := Delete(d, k);
        assert r == [d[0]] + Delete(d[1..], k);
        forall j | 0 < j < |r| ensures r[j].0 != d[0].0 {
          assert r[j] in d[1..];
        }
      }
    }
  }

  /** Selecting a block twice with the same type gives back the selection
      lookup it started from, unless the block was selected with the other
      type: then the second call unselects it. */
  lemma ToggleTwice(selected: seq<(int, LS.SelectType)>, i: int, t: LS.SelectType)
    ensures var twice := Toggled(Toggled(selected, i, t), i, t);
            && (forall k :: k != i ==> Get(twice, k) == Get(selected, k))
            && (Get(twice, i) == Get(selected, i) <==> Get(selected, i) == None || Get(selected, i) == Some(t))
    ensures Get(selected, i) == None ==> Toggled(Toggled(selected, i, t), i, t) == selected
  {
    if Get(selected, i) == None {
      DeleteAppended(selected, i, t);
    }
  }

  /** Deleting a key that was just added at the end gives back the original. */
  lemma {:induction false} DeleteAppended<K, V>(d: seq<(K, V)>, k: K, v: V)
    requires !HasKey(d, k)
    ensures Delete(d + [(k, v)], k) == d
  {
    if d == [] {
      assert Delete([(k, v)], k) == Delete([(k, v)][1..], k);
    } else {
      assert (d + [(k, v)])[1..] == d[1..] + [(k, v)];
      assert !HasKey(d[1..], k) by {
        forall j | 0 <= j < |d[1..]| ensures d[1..][j].0 != k {
          assert d[1..][j] == d[j + 1];
        }
      }
      DeleteAppended(d[1..], k, v);
    }
  }

  // ---------------------------------------------------------------------------
  // Colours.
  // ---------------------------------------------------------------------------

  /** `default_palette[i]`: `undefined` outside the palette. */
  function PaletteAt(palette: seq<string>, i: int): (c: Option<string>)
    ensures c.Some? <==> 0 <= i < |palette|
    ensures c.Some? ==> c.value in palette
  {
    if 0 <= i < |palette| then Some(palette[i]) else None
  }

  /** The colour loop: the `i`-th name gets the `i`-th palette entry, written
      into the map one key at a time; other keys keep their colour. */
  method AssignColors(colors0: ColorMap, palette: seq<string>, names: seq<string>) returns (colors: ColorMap)
    requires forall i, j :: 0 <= i < j < |names| ==> names[i] != names[j]
    ensures forall i :: 0 <= i < |names| ==> Get(colors, names[i]) == Some(PaletteAt(palette, i))
    ensures forall k :: k !in names ==> Get(colors, k) == Get(colors0, k)
    ensures DistinctKeys(colors0) ==> DistinctKeys(colors)
  {
    colors := colors0;
    for n := 0 to |names|
      invariant Assigned(colors, colors0, palette, names, n)
    {
      AssignStep(colors, colors0, palette, names, n);
      colors := Put(colors, names[n], PaletteAt(palette, n));
    }
    assert names[..|names|] == names;
  }

  /** After the first `n` names: each has its palette entry, every other key
      its old colour, and distinct keys stay distinct. */
  ghost predicate Assigned(colors: ColorMap, colors0: ColorMap, palette: seq<string>, names: seq<string>, n: nat)
    requires n <= |names|
  {
    && (forall i :: 0 <= i < n ==> Get(colors, names[i]) == Some(PaletteAt(palette, i)))
    && (forall k :: k !in names[..n] ==> Get(colors, k) == Get(colors0, k))
    && (DistinctKeys(colors0) ==> DistinctKeys(colors))
  }

  lemma AssignStep(colors: ColorMap, colors0: ColorMap, palette: seq<string>, names: seq<string>, n: nat)
    requires n < |names| && forall i, j :: 0 <= i < j < |names| ==> names[i] != names[j]
    requires Assigned(colors, colors0, palette, names, n)
    ensures Assigned(Put(colors, names[n], PaletteAt(palette, n)), colors0, palette, names, n + 1)
  {
    var c := PaletteAt(palette, n);
    forall k ensures Get(Put(colors, names[n], c), k) == if k == names[n] then Some(c) else Get(colors, k) {
      GetPut(colors, names[n], c, k);
    }
    if DistinctKeys(colors) {
      PutKeepsDistinct(colors, names[n], c);
    }
    assert names[..n + 1] == names[..n] + [names[n]];
  }

  /** The constructor's colour map as written: it calls `forEach` on the first
      block's `interval_sets`, which is a plain object and has no such method,
      and with no blocks the first block is `undefined`. Either way the
      constructor throws. */
  function ColorMapAsWritten(blocks: seq<VBlock.IntervalBlock>, palette: seq<string>): (r: Result<ColorMap>)
    ensures r.Err? && r.error.TypeError?
  {
    if blocks == [] then Err(TypeError("cannot read property 'interval_sets' of undefined"))
    else Err(TypeError("interval_sets.forEach is not a function"))
  }

  /** The names of the first block's sets, in key order (none without
      blocks). */
  function SetNames(blocks: seq<VBlock.IntervalBlock>): (names: seq<string>)
    ensures blocks != [] ==> names == Keys(blocks[0].intervalSets)
    ensures blocks == [] ==> names == []
  {
    if blocks == [] then [] else Keys(blocks[0].intervalSets)
  }

  /** The colour map as evidently intended: `__new_intervals` takes the last
      palette entry, then the `i`-th set of the first block the `i`-th
      entry. */
  method ColorMapFor(blocks: seq<VBlock.IntervalBlock>, palette: seq<string>) returns (colors: ColorMap)
    requires blocks != [] ==> DistinctKeys(blocks[0].intervalSets)
    ensures DistinctKeys(colors)
    ensures var names := SetNames(blocks);
            && (forall i :: 0 <= i < |names| ==> Get(colors, names[i]) == Some(PaletteAt(palette, i)))
            && (VBlock.NewIntervalsKey !in names ==> Get(colors, VBlock.NewIntervalsKey) == Some(PaletteAt(palette, |palette| - 1)))
            && (forall k :: k !in names && k != VBlock.NewIntervalsKey ==> Get(colors, k) == None)
  {
    var names := SetNames(blocks);
    if blocks != [] {
      forall i, j | 0 <= i < j < |names| ensures names[i] != names[j] {
        assert names[i] == blocks[0].intervalSets[i].0;
      }
    }
    colors := AssignColors([(VBlock.NewIntervalsKey, PaletteAt(palette, |palette| - 1))], palette, names);
  }

  // ---------------------------------------------------------------------------
  // Settings.
  // ---------------------------------------------------------------------------

  /** A settings object, shared by reference. */
  class Settings {
    var entries: seq<(string, Json)>

    constructor (entries: seq<(string, Json)>)
      ensures this.entries == entries
    {
      this.entries := entries;
    }
  }

  /** `default_settings` (vgridjs/src/settings.tsx). */
  const DefaultSettings: seq<(string, Json)> :=
    [("spinner_dev_mode", Bool(false)), ("key_mode", Str("Standalone")),
     ("frameserver_endpoint", Str("/frameserver/fetch")), ("use_frameserver", Bool(false)),
     ("show_timeline", Bool(true))]

  /** The settings copy: every provided key is written into the target object,
      so a provided key takes the provided value and every other key keeps
      the value it had. */
  method CopySettings(target: Settings, provided: Option<seq<(string, Json)>>)
    requires provided.Some? ==> DistinctKeys(provided.value)
    modifies target
    ensures forall k :: Get(target.entries, k) ==
              if provided.Some? && HasKey(provided.value, k) then Get(provided.value, k) else Get(old(target.entries), k)
    ensures DistinctKeys(old(target.entries)) ==> DistinctKeys(target.entries)
  {
    if provided.Some? {
      var ps := provided.value;
      for n := 0 to |ps|
        invariant forall k :: Get(target.entries, k) ==
                    if HasKey(ps[..n], k) then Get(ps[..n], k) else Get(old(target.entries), k)
        invariant DistinctKeys(old(target.entries)) ==> DistinctKeys(target.entries)
      {
        CopyStep(target.entries, ps, n, old(target.entries));
        if DistinctKeys(target.entries) {
          PutKeepsDistinct(target.entries, ps[n].0, ps[n].1);
        }
        target.entries := Put(target.entries, ps[n].0, ps[n].1);
      }
      assert ps[..|ps|] == ps;
    }
  }

  /** One step of the copy: a key of the next entry takes that entry's value,
      which is also what the longer prefix holds for it. */
  lemma CopyStep(entries: seq<(string, Json)>, ps: seq<(string, Json)>, n: nat, base: seq<(string, Json)>)
    requires n < |ps| && DistinctKeys(ps)
    requires forall k :: Get(entries, k) == if HasKey(ps[..n], k) then Get(ps[..n], k) else Get(base, k)
    ensures forall k :: Get(Put(entries, ps[n].0, ps[n].1), k) ==
              if HasKey(ps[..n + 1], k) then Get(ps[..n + 1], k) else Get(base, k)
  {
    assert ps[..n + 1] == ps[..n] + [ps[n]];
    assert !HasKey(ps[..n], ps[n].0);
    forall k ensures Get(Put(entries, ps[n].0, ps[n].1), k) ==
                       if HasKey(ps[..n + 1], k) then Get(ps[..n + 1], k) else Get(base, k) {
      GetPut(entries, ps[n].0, ps[n].1, k);
      GetAppend(ps[..n], ps[n], k);
    }
  }

  /** Looking up a key after appending an entry: the earlier entries win. */
  lemma {:induction false} GetAppend<K, V>(d: seq<(K, V)>, e: (K, V), k: K)
    ensures Get(d + [e], k) == if HasKey(d, k) then Get(d, k) else if e.0 == k then Some(e.1) else None
  {
    if d != [] {
      assert (d + [e])[1..] == d[1..] + [e];
      GetAppend(d[1..], e, k);
      if d[0].0 != k && HasKey(d, k) {
        var i :| 0 <= i < |d| && d[i].0 == k;
        assert d[1..][i - 1].0 == k;
      }
    } else {
      assert [e][1..] == [];
    }
  }

  // ---------------------------------------------------------------------------
  // Labels of a new grid, and which block is expanded.
  // ---------------------------------------------------------------------------

  /** The constructor's label loop: a fresh label state for each block index
      from 0 to `n - 1`, and for no other index. */
  method FreshBlockLabels(n: nat) returns (labels: Labels)
    ensures DistinctKeys(labels) && |labels| == n
    ensures forall k :: Get(labels, k) == if 0 <= k < n then Some(LS.FreshBlock) else None
  {
    labels := [];
    for i := 0 to n
      invariant |labels| == i
      invariant forall j :: 0 <= j < i ==> labels[j] == (j, LS.FreshBlock)
    {
      assert !HasKey(labels, i);
      labels := Put(labels, i, LS.FreshBlock);
    }
    forall k ensures Get(labels, k) == if 0 <= k < n then Some(LS.FreshBlock) else None {
      if 0 <= k < n {
        assert labels[k].0 == k;
      }
    }
  }

  /** `onChildExpand(id)` on `expand_num`: the same block again collapses it
      (`-1`), any other block becomes the expanded one. */
  function ExpandAfter(expandNum: int, id: int): (r: int)
    ensures id >= 0 ==> (r == id <==> expandNum != id)
    ensures r != id ==> r == -1
  {
    if expandNum == id then -1 else id
  }

  // ---------------------------------------------------------------------------
  // The component.
  // ---------------------------------------------------------------------------

  class VGrid {
    const labels: LS.LabelState
    const stack: Undo.ActionStack<Labels>
    const colors: ColorMap
    const settings: Settings
    var expandNum: int

    /** The constructor with the colour map corrected: one fresh label state
        per block, the intended colour map, the provided settings copied into
        the shared default object (which the grid then holds), and an empty
        undo stack. */
    constructor (blocks: seq<VBlock.IntervalBlock>, palette: seq<string>, defaults: Settings,
                 provided: Option<seq<(string, Json)>>)
      requires blocks != [] ==> DistinctKeys(blocks[0].intervalSets)
      requires provided.Some? ==> DistinctKeys(provided.value)
      modifies defaults
      ensures fresh(labels) && fresh(stack)
      ensures labels.blocksSelected == []
      ensures forall k :: Get(labels.blockLabels, k) == if 0 <= k < |blocks| then Some(LS.FreshBlock) else None
      ensures var names := SetNames(blocks);
              && (forall i :: 0 <= i < |names| ==> Get(colors, names[i]) == Some(PaletteAt(palette, i)))
              && (VBlock.NewIntervalsKey !in names ==> Get(colors, VBlock.NewIntervalsKey) == Some(PaletteAt(palette, |palette| - 1)))
      ensures settings == defaults
      ensures forall k :: Get(defaults.entries, k) ==
                if provided.Some? && HasKey(provided.value, k) then Get(provided.value, k) else Get(old(defaults.entries), k)
      ensures stack.Stacks() == Undo.History([], []) && expandNum == -1
    {
      var ls := new LS.LabelState();
      var fb := FreshBlockLabels(|blocks|);
      ls.blockLabels := fb;
      labels := ls;
      var cm := ColorMapFor(blocks, palette);
      colors := cm;
      CopySettings(defaults, provided);
      settings := defaults;
      stack := new Undo.ActionStack();
      expandNum := -1;
    }

    /** `on_block_selected(i, t)`. */
    method OnBlockSelected(i: int, t: LS.SelectType)
      modifies labels
      ensures labels.blocksSelected == Toggled(old(labels.blocksSelected), i, t)
      ensures labels.blockLabels == old(labels.blockLabels)
    {
      labels.blocksSelected := Toggled(labels.blocksSelected, i, t);
    }

    /** `onKeyUp`: `z` undoes and `y` redoes the last labelling action, on the
        block labels the actions work on; any other key does nothing. */
    method OnKeyUp(key: string)
      modifies labels, stack
      ensures key == "z" ==> Undo.Step(stack.Stacks(), labels.blockLabels) ==
                               Undo.AfterUndo(old(stack.Stacks()), old(labels.blockLabels))
      ensures key == "y" ==> Undo.Step(stack.Stacks(), labels.blockLabels) ==
                               Undo.AfterRedo(old(stack.Stacks()), old(labels.blockLabels))
      ensures key != "z" && key != "y" ==>
                stack.Stacks() == old(stack.Stacks()) && labels.blockLabels == old(labels.blockLabels)
      ensures labels.blocksSelected == old(labels.blocksSelected)
    {
      if key == "z" {
        var w := stack.Undo(labels.blockLabels);
        labels.blockLabels := w;
      } else if key == "y" {
        var w := stack.Redo(labels.blockLabels);
        labels.blockLabels := w;
      }
    }

    /** `onChildExpand(id)`. */
    method OnChildExpand(id: int)
      modifies this
      ensures expandNum == ExpandAfter(old(expandNum), id)
    {
      if expandNum == id {
        expandNum := -1;
      } else {
        expandNum := id;
      }
    }

    /** Whether block `i` is drawn expanded. */
    predicate Expanded(i: nat)
      reads this
    {
      i == expandNum
    }
  }
}
