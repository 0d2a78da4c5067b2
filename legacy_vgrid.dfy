/**
 * The older front end's grid (src/vgrid.tsx): a selection type per selected
 * block, a colour per interval set of the first block, and one block drawn
 * per element of its `intervals` list. The selection toggle is the newer
 * grid's (`VGrid.Toggled`), kept here in an object with numeric keys.
 */
module LegacyVGrid {
  import opened Js
  import VGrid
  import LegacyVBlock
  import LS = LabelState

  class LegacyVGrid {
    var blocksSelected: seq<(int, LS.SelectType)>

    constructor ()
      ensures blocksSelected == []
    {
      blocksSelected := [];
    }

    /** `on_block_selected(i, t)`: `delete` when the block is already selected
        with `t`, assignment otherwise. */
    method OnBlockSelected(i: int, t: LS.SelectType)
      modifies this
      ensures blocksSelected == VGrid.Toggled(old(blocksSelected), i, t)
    {
      if Get(blocksSelected, i) == Some(t) {
        blocksSelected := Delete(blocksSelected, i);
      } else {
        blocksSelected := Put(blocksSelected, i, t);
      }
    }
  }

  /** The colour map built in `render`: the `i`-th key of the first element of
      `intervals` gets the `i`-th palette entry; with no elements `_.keys`
      of `undefined` is empty and so is the map. */
  method ColorMap(intervals: seq<LegacyVBlock.Sets>, palette: seq<string>) returns (colors: VGrid.ColorMap)
    requires intervals != [] ==> DistinctKeys(intervals[0])
    ensures DistinctKeys(colors)
    ensures intervals != [] ==> forall i :: 0 <= i < |intervals[0]| ==>
              Get(colors, intervals[0][i].0) == Some(VGrid.PaletteAt(palette, i))
    ensures forall k :: (intervals == [] || !HasKey(intervals[0], k)) ==> Get(colors, k) == None
  {
    var names: seq<string> := [];
    if intervals != [] {
      names := Keys(intervals[0]);
      forall i, j | 0 <= i < j < |names| ensures names[i] != names[j] {
        assert names[i] == intervals[0][i].0;
      }
    }
    colors := VGrid.AssignColors([], palette, names);
    forall k | intervals == [] || !HasKey(intervals[0], k) ensures k !in names {
      if intervals != [] {
        assert forall i :: 0 <= i < |names| ==> names[i] == intervals[0][i].0;
      }
    }
  }

  /** The blocks `render` draws: one per element of `intervals`, in order, each
      told its selection type or `null`. */
  function RenderedBlocks(intervals: seq<LegacyVBlock.Sets>, selected: seq<(int, LS.SelectType)>): (r: seq<(LegacyVBlock.Sets, Option<LS.SelectType>)>)
    ensures |r| == |intervals|
    ensures forall i :: 0 <= i < |r| ==> r[i].0 == intervals[i]
    ensures forall i :: 0 <= i < |r| ==> (r[i].1.Some? <==> HasKey(selected, i))
    ensures forall i :: 0 <= i < |r| && r[i].1.Some? ==> (i, r[i].1.value) in selected
  {
    seq(|intervals|, i requires 0 <= i < |intervals| => (intervals[i], Get(selected, i)))
  }

  /** After a block is selected with `t`, that block is drawn selected with
      `t` unless it already was (then it is drawn unselected), and every
      other block is drawn as before. */
  lemma SelectionShown(intervals: seq<LegacyVBlock.Sets>, selected: seq<(int, LS.SelectType)>, b: nat, t: LS.SelectType)
    requires b < |intervals|
    ensures var before := RenderedBlocks(intervals, selected);
            var after := RenderedBlocks(intervals, VGrid.Toggled(selected, b, t));
            && after[b].1 == (if before[b].1 == Some(t) then None else Some(t))
            && forall i :: 0 <= i < |intervals| && i != b ==> after[i] == before[i]
  {
  }
}
