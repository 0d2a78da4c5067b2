/**
 * What the Python package reads back from the label state the front end
 * exports (vgridjs/src/label_state.tsx `to_json`, read by
 * vgridpy/vgrid/label_state.py).
 */
module LabelExchange {
  import opened Js
  import Text
  import LS = LabelState
  import Py = PyLabelState
  import Intervals
  import VData

  /** The Python selection type a front-end selection type stands for. */
  function PyView(t: LS.SelectType): Py.SelectType
  {
    match t
    case Positive => Py.Positive
    case Negative => Py.Negative
  }

  /** The exported selections, as `to_json` writes them. */
  function SelectionsJson(sel: seq<(int, LS.SelectType)>): seq<(string, Json)>
  {
    seq(|sel|, i requires 0 <= i < |sel| => (Text.IntToString(sel[i].0), Str(LS.SelectTypeName(sel[i].1))))
  }

  function SelectionsRead(sel: seq<(int, LS.SelectType)>): seq<(int, Option<Py.SelectType>)>
  {
    seq(|sel|, i requires 0 <= i < |sel| => (sel[i].0, Some(PyView(sel[i].1))))
  }

  /** Reading the exported selections gives back every block index with its
      selection type, in the order the export lists them. */
  lemma {:induction false} SelectionsRoundTrip(sel: seq<(int, LS.SelectType)>)
    requires DistinctKeys(sel)
    ensures Py.ParseEntries(SelectionsJson(sel), Py.SelectionOf) == Ok(SelectionsRead(sel))
  {
    if sel != [] {
      var n := |sel| - 1;
      var es := SelectionsJson(sel);
      assert es[..n] == SelectionsJson(sel[..n]);
      assert DistinctKeys(sel[..n]);
      SelectionsRoundTrip(sel[..n]);
      var d := SelectionsRead(sel[..n]);
      assert Py.ParseEntries(es[..n], Py.SelectionOf) == Ok(d);
      Text.ParseIntToString(sel[n].0);
      assert Text.ParseInt(es[n].0) == Ok(sel[n].0);
      var v := Some(PyView(sel[n].1));
      assert Py.SelectionOf(es[n].1) == Ok(v);
      forall i | 0 <= i < |d| ensures d[i].0 != sel[n].0 {
        assert d[i].0 == sel[i].0;
      }
      assert !HasKey(d, sel[n].0);
      assert Py.ParseEntries(es, Py.SelectionOf) == Ok(Put(d, sel[n].0, v));
      SelectionsReadLast(sel);
    } else {
      assert SelectionsJson(sel) == [] && SelectionsRead(sel) == [];
    }
  }

  lemma SelectionsReadLast(sel: seq<(int, LS.SelectType)>)
    requires sel != []
    ensures var n := |sel| - 1;
            SelectionsRead(sel) == SelectionsRead(sel[..n]) + [(sel[n].0, Some(PyView(sel[n].1)))]
  {
    var n := |sel| - 1;
    var a := SelectionsRead(sel);
    var b := SelectionsRead(sel[..n]) + [(sel[n].0, Some(PyView(sel[n].1)))];
    assert |a| == |b|;
    forall i | 0 <= i < |a| ensures a[i] == b[i] {
      if i < n {
        assert sel[..n][i] == sel[i];
      }
    }
  }

  /** `blocks_selected()` on what `to_json()` exported is the front end's
      selection dictionary. */
  lemma BlocksSelectedRoundTrip(ls: LS.LabelState, setToJson: Intervals.IntervalSet<VData.Payload> -> Json)
    requires DistinctKeys(ls.blocksSelected)
    ensures Py.BlocksSelected(ls.ToJson(setToJson)) == Ok(SelectionsRead(ls.blocksSelected))
  {
    var j := ls.ToJson(setToJson);
    assert j.entries[0].0 == "blocks_selected";
    assert j.entries[0].1.entries == SelectionsJson(ls.blocksSelected);
    SelectionsRoundTrip(ls.blocksSelected);
  }

  /** The first entry whose value cannot be read decides the error. */
  lemma {:induction false} FirstEntryFails<V>(es: seq<(string, Json)>, value: Json -> Result<V>, e: Error)
    requires |es| > 0 && Text.ParseInt(es[0].0).Ok? && value(es[0].1) == Err(e)
    ensures Py.Comprehension(es, value) == Err(e)
    ensures Py.ParseEntries(es, value) == Err(e)
  {
    if |es| > 1 {
      var n := |es| - 1;
      assert es[..n][0] == es[0];
      FirstEntryFails(es[..n], value, e);
    } else {
      assert es[..0] == [];
    }
  }

  /** The export holds no `new_intervals`, which is what the Python reader
      looks up: `block_labels()` raises `KeyError` as soon as one block has a
      label state. */
  lemma BlockLabelsUnreadable(ls: LS.LabelState, setToJson: Intervals.IntervalSet<VData.Payload> -> Json)
    requires |ls.blockLabels| > 0
    ensures Py.BlockLabels(ls.ToJson(setToJson)) == Err(KeyError("new_intervals"))
  {
    var j := ls.ToJson(setToJson);
    var labels := j.entries[1].1;
    var es := labels.entries;
    var block := LS.BlockJson(ls.blockLabels[0].1, setToJson);
    assert Py.BlockLabels(j) == Py.ParseEntries(es, Py.BlockFromJson) by {
      LabelsAt(ls, setToJson);
    }
    assert es[0] == (Text.IntToString(ls.blockLabels[0].0), block);
    Text.ParseIntToString(ls.blockLabels[0].0);
    assert Py.BlockFromJson(block) == Err(KeyError("new_intervals")) by {
      BlockJsonKeys(ls.blockLabels[0].1, setToJson);
    }
    FirstEntryFails(es, Py.BlockFromJson, KeyError("new_intervals"));
  }

  /** The export's `block_labels` is found under its own key. */
  lemma LabelsAt(ls: LS.LabelState, setToJson: Intervals.IntervalSet<VData.Payload> -> Json)
    ensures Py.Index(ls.ToJson(setToJson), "block_labels") == Ok(ls.ToJson(setToJson).entries[1].1)
  {
    var es := ls.ToJson(setToJson).entries;
    assert Keys(es)[0] == "blocks_selected" && Keys(es)[1] == "block_labels";
    GetCons(es[0].0, es[0].1, es[1..], "block_labels");
    assert es == [es[0]] + es[1..];
    GetCons(es[1].0, es[1].1, es[2..], "block_labels");
    assert es[1..] == [es[1]] + es[2..];
  }

  /** A block's export has no `new_intervals` key. */
  lemma BlockJsonKeys(s: LS.BlockLabelState, setToJson: Intervals.IntervalSet<VData.Payload> -> Json)
    ensures !HasKey(LS.BlockJson(s, setToJson).entries, "new_intervals")
  {
    var es := LS.BlockJson(s, setToJson).entries;
    var ks := Keys(es);
    forall i | 0 <= i < |es| ensures es[i].0 != "new_intervals" {
      assert es[i].0 == ks[i];
      assert |ks[i]| != |"new_intervals"|;
    }
  }
}
