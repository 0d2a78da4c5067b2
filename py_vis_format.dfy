/**
 * The strategies that turn rekall interval-set mappings into grid blocks
 * (vgridpy/vgrid/vis_format.py): one block per video holding every mapping's
 * set for it, one block per interval, or one block per interval whose payload
 * is itself an interval set.
 */
module PyVisFormat {
  import opened Js
  import opened PyIntervalBlock

  /** A rekall `IntervalSetMapping`: an interval set per video id, in the
      mapping's key order. */
  type Mapping = seq<(int, seq<RekallInterval>)>

  /** The formats; `Base` is the abstract `VisFormat` itself. */
  datatype VisFormat =
    | Base
    | VideoBlock(imaps: seq<(Json, Mapping)>)  // `(name, IntervalSetMapping)` pairs
    | Flat(mapping: Mapping)
    | Nested(mapping: Mapping)

  /** The sets of one video: `[NamedIntervalSet(name, imap[video_key]) for
      (name, imap) in imaps]`. A mapping without the video raises `KeyError`. */
  function SetsFor(imaps: seq<(Json, Mapping)>, key: int): (r: Result<seq<NamedIntervalSet>>)
    ensures r.Ok? <==> forall j :: 0 <= j < |imaps| ==> HasKey(imaps[j].1, key)
    ensures r.Ok? ==> |r.value| == |imaps|
    ensures r.Ok? ==> forall j :: 0 <= j < |imaps| ==>
              r.value[j] == NamedIntervalSet(imaps[j].0, IntervalSet(Get(imaps[j].1, key).value))
    ensures r.Err? ==> r.error == MissingVideoKey(key)
  {
    if imaps == [] then Ok([])
    else
      match Get(imaps[0].1, key)
      case None => Err(MissingVideoKey(key))
      case Some(ivs) =>
        match SetsFor(imaps[1..], key)
        case Err(e) =>
          TailIndex(imaps);
          Err(e)
        case Ok(rest) =>
          TailIndex(imaps);
          Ok([NamedIntervalSet(imaps[0].0, IntervalSet(ivs))] + rest)
  }

  /** One block per video key, in order. */
  function BlocksFor(imaps: seq<(Json, Mapping)>, keys: seq<int>): (r: Result<seq<IntervalBlock>>)
    ensures r.Ok? <==> forall i :: 0 <= i < |keys| ==> SetsFor(imaps, keys[i]).Ok?
    ensures r.Ok? ==> |r.value| == |keys|
    ensures r.Ok? ==> forall i :: 0 <= i < |keys| ==>
              r.value[i] == IntervalBlock(SetsFor(imaps, keys[i]).value, Num(keys[i] as real))
  {
    if keys == [] then Ok([])
    else
      match SetsFor(imaps, keys[0])
      case Err(e) => Err(e)
      case Ok(sets) =>
        match BlocksFor(imaps, keys[1..])
        case Err(e) =>
          TailIndex(keys);
          Err(e)
        case Ok(rest) =>
          TailIndex(keys);
          Ok([IntervalBlock(sets, Num(keys[0] as real))] + rest)
  }

  /** `VideoBlockFormat(imaps).interval_blocks()`: one block per key of the
      first mapping, in that mapping's order, each holding one set per
      `(name, imap)` pair, in the given order, namely `imap[video_key]`. It
      fails when there are no mappings (`imaps[0]`) and when a later mapping
      lacks a video of the first. */
  function VideoBlocks(imaps: seq<(Json, Mapping)>): (r: Result<seq<IntervalBlock>>)
    ensures imaps == [] ==> r == Err(IndexError("list index out of range"))
    ensures r.Ok? <==> imaps != [] && forall j, i :: 0 <= j < |imaps| && 0 <= i < |imaps[0].1| ==> HasKey(imaps[j].1, imaps[0].1[i].0)
    ensures r.Ok? ==> |r.value| == |imaps[0].1|
    ensures r.Ok? ==> forall i :: 0 <= i < |r.value| ==>
              && r.value[i].videoId == Num(imaps[0].1[i].0 as real)
              && |r.value[i].intervalSets| == |imaps|
              && forall j :: 0 <= j < |imaps| ==>
                   r.value[i].intervalSets[j] == NamedIntervalSet(imaps[j].0, IntervalSet(Get(imaps[j].1, imaps[0].1[i].0).value))
  {
    if imaps == [] then Err(IndexError("list index out of range"))
    else
      AllKeysPresent(imaps);
      BlocksFor(imaps, Keys(imaps[0].1))
  }

  /** Blocks are built for every video of the first mapping exactly when
      every mapping has all of them. */
  lemma AllKeysPresent(imaps: seq<(Json, Mapping)>)
    requires imaps != []
    ensures BlocksFor(imaps, Keys(imaps[0].1)).Ok?
            <==> forall j, i :: 0 <= j < |imaps| && 0 <= i < |imaps[0].1| ==> HasKey(imaps[j].1, imaps[0].1[i].0)
  {
    var keys := Keys(imaps[0].1);
    if BlocksFor(imaps, keys).Ok? {
      forall j, i | 0 <= j < |imaps| && 0 <= i < |imaps[0].1| ensures HasKey(imaps[j].1, imaps[0].1[i].0) {
        assert SetsFor(imaps, keys[i]).Ok?;
      }
    } else {
      var i :| 0 <= i < |keys| && SetsFor(imaps, keys[i]).Err?;
      var j :| 0 <= j < |imaps| && !HasKey(imaps[j].1, keys[i]);
      assert !HasKey(imaps[j].1, imaps[0].1[i].0);
    }
  }

  /** The number of intervals in a mapping. */
  function TotalIntervals(mapping: Mapping): nat
  {
    if mapping == [] then 0 else |mapping[0].1| + TotalIntervals(mapping[1..])
  }

  /** The intervals of one video, each with its video id. */
  function Tagged(key: int, ivs: seq<RekallInterval>): (r: seq<(int, RekallInterval)>)
    ensures |r| == |ivs|
    ensures forall i :: 0 <= i < |ivs| ==> r[i] == (key, ivs[i])
  {
    seq(|ivs|, i requires 0 <= i < |ivs| => (key, ivs[i]))
  }

  /** Every interval of a mapping with its video id: video by video, and in
      each video's own order. */
  function AllIntervals(mapping: Mapping): (r: seq<(int, RekallInterval)>)
    ensures |r| == TotalIntervals(mapping)
  {
    if mapping == [] then []
    else Tagged(mapping[0].0, mapping[0].1) + AllIntervals(mapping[1..])
  }

  /** A block holding one set named `'default'`. */
  function DefaultBlock(videoKey: int, s: Value): IntervalBlock
  {
    IntervalBlock([NamedIntervalSet(Str("default"), s)], Num(videoKey as real))
  }

  /** `FlatFormat(imap).interval_blocks()`: one block per interval of the
      mapping, in order, each holding a single set named `'default'` that
      contains just that interval. */
  function FlatBlocks(mapping: Mapping): (r: seq<IntervalBlock>)
    ensures |r| == TotalIntervals(mapping)
    ensures forall i :: 0 <= i < |r| ==>
              r[i] == DefaultBlock(AllIntervals(mapping)[i].0, IntervalSet([AllIntervals(mapping)[i].1]))
  {
    if mapping == [] then []
    else
      var rest := FlatBlocks(mapping[1..]);
      var here := seq(|mapping[0].1|, i requires 0 <= i < |mapping[0].1| => DefaultBlock(mapping[0].0, IntervalSet([mapping[0].1[i]])));
      AppendRight(Tagged(mapping[0].0, mapping[0].1), AllIntervals(mapping[1..]));
      here + rest
  }

  /** `NestedFormat(imap).interval_blocks()`: one block per top-level interval
      of the mapping, in order, whose `'default'` set is that interval's
      payload. */
  function NestedBlocks(mapping: Mapping): (r: seq<IntervalBlock>)
    ensures |r| == TotalIntervals(mapping)
    ensures forall i :: 0 <= i < |r| ==>
              r[i] == DefaultBlock(AllIntervals(mapping)[i].0, AllIntervals(mapping)[i].1.payload)
  {
    if mapping == [] then []
    else
      var rest := NestedBlocks(mapping[1..]);
      var here := seq(|mapping[0].1|, i requires 0 <= i < |mapping[0].1| => DefaultBlock(mapping[0].0, mapping[0].1[i].payload));
      AppendRight(Tagged(mapping[0].0, mapping[0].1), AllIntervals(mapping[1..]));
      here + rest
  }

  /** `format.interval_blocks()`. The base class raises `NotImplemented`,
      which is not an exception class, so Python raises a `TypeError`. */
  function IntervalBlocks(f: VisFormat): (r: Result<seq<IntervalBlock>>)
    ensures r.Err? <==> f.Base? || (f.VideoBlock? && (f.imaps == [] || VideoBlocks(f.imaps).Err?))
    ensures (f.Flat? || f.Nested?) ==> r.Ok? && |r.value| == TotalIntervals(f.mapping)
  {
    match f
    case Base => Err(TypeError("exceptions must derive from BaseException"))
    case VideoBlock(imaps) => VideoBlocks(imaps)
    case Flat(mapping) => Ok(FlatBlocks(mapping))
    case Nested(mapping) => Ok(NestedBlocks(mapping))
  }
}
