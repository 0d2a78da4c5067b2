/**
 * What the user has labelled in the grid (vgridjs/src/label_state.tsx): a
 * selection type per selected block, and per block the captions selected and
 * the intervals drawn or created.
 *
 * Each block's label state is owned by the grid's `LabelState` and shared with
 * the block's timeline and box tools, which change its interval sets in place.
 * Here the per-block states are values kept in the grid's dictionary, and a
 * tool names the state it works on by the block's index.
 */
module LabelState {
  import opened Js
  import opened Intervals
  import opened VData
  import Text

  /** `BlockSelectType`. */
  datatype SelectType = Positive | Negative

  function SelectTypeName(t: SelectType): (s: string)
    ensures s == "Positive" <==> t == Positive
    ensures s == "Negative" <==> t == Negative
  {
    match t
    case Positive => "Positive"
    case Negative => "Negative"
  }

  /** `BlockLabelState`: the declared positive and negative sets, and the set
      of new intervals the labelling tools write to. */
  datatype BlockLabelState = BlockLabelState(
    captionsSelected: seq<real>,
    newPositive: IntervalSet<Payload>,
    newNegative: IntervalSet<Payload>,
    newIntervals: IntervalSet<Payload>)

  /** `new BlockLabelState()`. */
  const FreshBlock := BlockLabelState([], [], [], [])

  /** The block labels with `f` applied to block `b`'s new intervals; the
      other blocks, and the rest of block `b`'s state, stay as they are. */
  function UpdateNewIntervals(labels: seq<(int, BlockLabelState)>, b: int,
                              f: IntervalSet<Payload> -> IntervalSet<Payload>): (r: seq<(int, BlockLabelState)>)
    ensures Keys(r) == Keys(labels)
    ensures forall k :: k != b ==> Get(r, k) == Get(labels, k)
    ensures Get(labels, b).Some? ==> Get(r, b) == Some(Get(labels, b).value.(newIntervals := f(Get(labels, b).value.newIntervals)))
    ensures Get(labels, b).None? ==> r == labels
  {
    match Get(labels, b)
    case None => labels
    case Some(s) =>
      var r := Put(labels, b, s.(newIntervals := f(s.newIntervals)));
      forall k ensures Get(r, k) == (if k == b then Some(s.(newIntervals := f(s.newIntervals))) else Get(labels, k)) {
        GetPut(labels, b, s.(newIntervals := f(s.newIntervals)), k);
      }
      SameKeysAfterPut(labels, b, s.(newIntervals := f(s.newIntervals)));
      r
  }

  /** Overwriting a key that is present keeps the list of keys. */
  lemma {:induction false} SameKeysAfterPut<K, V>(d: seq<(K, V)>, k: K, v: V)
    requires HasKey(d, k)
    ensures Keys(Put(d, k, v)) == Keys(d)
  {
    var r := Put(d, k, v);
    assert |r| == |d|;
    assert forall i :: 0 <= i < |d| ==> Keys(r)[i] == r[i].0 == d[i].0 == Keys(d)[i];
  }

  class LabelState {
    var blocksSelected: seq<(int, SelectType)>
    var blockLabels: seq<(int, BlockLabelState)>

    constructor ()
      ensures blocksSelected == [] && blockLabels == []
    {
      blocksSelected := [];
      blockLabels := [];
    }

    /** `to_json()`: both dictionaries keyed by the printed block index; a
        block's entry holds its selected captions and the JSON of its positive
        and negative sets. The interval-set serialiser is the interval
        library's, passed in. The entries are listed in the maps' insertion
        order; a JavaScript object lists such integer keys in ascending order
        instead, which this model does not reproduce. */
    function ToJson(setToJson: IntervalSet<Payload> -> Json): (j: Json)
      reads this
      ensures j.Obj? && Keys(j.entries) == ["blocks_selected", "block_labels"]
      ensures var sel := j.entries[0].1;
              && sel.Obj? && |sel.entries| == |blocksSelected|
              && forall i :: 0 <= i < |blocksSelected| ==>
                   sel.entries[i] == (Text.IntToString(blocksSelected[i].0), Str(SelectTypeName(blocksSelected[i].1)))
      ensures var labels := j.entries[1].1;
              && labels.Obj? && |labels.entries| == |blockLabels|
              && forall i :: 0 <= i < |blockLabels| ==>
                   labels.entries[i] == (Text.IntToString(blockLabels[i].0), BlockJson(blockLabels[i].1, setToJson))
    {
      Obj([("blocks_selected", Obj(seq(|blocksSelected|, i requires 0 <= i < |blocksSelected| reads this =>
                                    (Text.IntToString(blocksSelected[i].0), Str(SelectTypeName(blocksSelected[i].1)))))),
           ("block_labels", Obj(seq(|blockLabels|, i requires 0 <= i < |blockLabels| reads this =>
                                 (Text.IntToString(blockLabels[i].0), BlockJson(blockLabels[i].1, setToJson)))))])
    }
  }

  /** The JSON of one block's label state. */
  function BlockJson(s: BlockLabelState, setToJson: IntervalSet<Payload> -> Json): (j: Json)
    ensures j.Obj? && Keys(j.entries) == ["captions_selected", "new_positive_intervals", "new_negative_intervals"]
    ensures j.entries[0].1 == Arr(seq(|s.captionsSelected|, i requires 0 <= i < |s.captionsSelected| => Num(s.captionsSelected[i])))
    ensures j.entries[1].1 == setToJson(s.newPositive) && j.entries[2].1 == setToJson(s.newNegative)
  {
    Obj([("captions_selected", Arr(seq(|s.captionsSelected|, i requires 0 <= i < |s.captionsSelected| => Num(s.captionsSelected[i])))),
         ("new_positive_intervals", setToJson(s.newPositive)),
         ("new_negative_intervals", setToJson(s.newNegative))])
  }
}
