/**
 * The specification a Python caller builds for the widget
 * (vgridpy/vgrid/spec.py): the videos' metadata, the blocks (given outright
 * or produced by a visualisation format), and the settings, written out as
 * one JSON document.
 *
 * Reading a video's metadata with ffprobe is I/O: whether the file exists and
 * what ffprobe reports for its first video stream are parameters here.
 */
module PySpec {
  import opened Js
  import opened PyIntervalBlock
  import PyVisFormat
  import Database

  // ---------------------------------------------------------------------------
  // Video metadata.
  // ---------------------------------------------------------------------------

  /** What ffprobe reports for a file's first video stream: `width`, `height`,
      the two halves of `r_frame_rate` and `nb_frames`. */
  datatype VideoStream = VideoStream(width: int, height: int, rateNum: int, rateDenom: int, frames: int)

  /** A `VideoMetadata` object; the frame count and size may be `None`. */
  datatype VideoMetadata = VideoMetadata(path: string, id: Json, fps: real,
                                         numFrames: Option<int>, width: Option<int>, height: Option<int>)

  /** The message raised for a missing file, which names the path. */
  function MissingVideoMessage(path: string): string
  {
    "Error: local video path " + path + " does not exist and video metadata not explicitly specified"
  }

  /** `VideoMetadata(path, id, fps, num_frames, width, height)`. With `fps`
      given, every argument is stored unchanged. Without it, the file must
      exist, and the size, the frame count and the frame rate (the quotient of
      `r_frame_rate`) come from ffprobe's first video stream, which must
      exist; the arguments given for them are ignored. */
  function NewVideoMetadata(path: string, id: Json, fps: Option<real>, numFrames: Option<int>,
                            width: Option<int>, height: Option<int>,
                            fileExists: bool, firstVideoStream: Option<VideoStream>): (r: Result<VideoMetadata>)
    ensures fps.Some? ==> r == Ok(VideoMetadata(path, id, fps.value, numFrames, width, height))
    ensures fps.None? && !fileExists ==> r == Err(Thrown(MissingVideoMessage(path)))
    ensures fps.None? && fileExists && firstVideoStream.None? ==> r == Err(IndexError("list index out of range"))
    ensures fps.None? && fileExists && firstVideoStream.Some? && firstVideoStream.value.rateDenom == 0 ==>
              r == Err(ZeroDivisionError)
    ensures fps.None? && r.Ok? ==>
              var s := firstVideoStream.value;
              && r.value.path == path && r.value.id == id
              && r.value.fps * s.rateDenom as real == s.rateNum as real
              && r.value.numFrames == Some(s.frames)
              && r.value.width == Some(s.width) && r.value.height == Some(s.height)
  {
    if fps.Some? then Ok(VideoMetadata(path, id, fps.value, numFrames, width, height))
    else if !fileExists then Err(Thrown(MissingVideoMessage(path)))
    else if firstVideoStream.None? then Err(IndexError("list index out of range"))
    else
      var s := firstVideoStream.value;
      if s.rateDenom == 0 then Err(ZeroDivisionError)
      else Ok(VideoMetadata(path, id, s.rateNum as real / s.rateDenom as real, Some(s.frames), Some(s.width), Some(s.height)))
  }

  /** `duration()`: the length in seconds, whose product with the frame rate
      is the frame count. A missing frame count cannot be divided and a zero
      frame rate divides by zero. */
  function Duration(m: VideoMetadata): (r: Result<real>)
    ensures r.Ok? <==> m.numFrames.Some? && m.fps != 0.0
    ensures r.Ok? ==> r.value * m.fps == m.numFrames.value as real
    ensures m.numFrames.None? ==> r.Err? && r.error.TypeError?
    ensures m.numFrames.Some? && m.fps == 0.0 ==> r == Err(ZeroDivisionError)
  {
    if m.numFrames.None? then Err(TypeError("unsupported operand type(s) for /: 'NoneType' and 'float'"))
    else if m.fps == 0.0 then Err(ZeroDivisionError)
    else Ok(m.numFrames.value as real / m.fps)
  }

  /** An optional integer as Python writes it: `None` is `null`. */
  function OptNum(x: Option<int>): Json
  {
    if x.Some? then Num(x.value as real) else Null
  }

  const MetadataKeys := ["id", "path", "num_frames", "fps", "width", "height"]

  /** `to_json()`: exactly the six keys, each with the stored value. */
  function MetadataToJson(m: VideoMetadata): (r: Json)
    ensures r.Obj? && Keys(r.entries) == MetadataKeys
    ensures Get(r.entries, "id") == Some(m.id)
    ensures Get(r.entries, "path") == Some(Str(m.path))
    ensures Get(r.entries, "num_frames") == Some(OptNum(m.numFrames))
    ensures Get(r.entries, "fps") == Some(Num(m.fps))
    ensures Get(r.entries, "width") == Some(OptNum(m.width))
    ensures Get(r.entries, "height") == Some(OptNum(m.height))
  {
    var es := MetadataEntries(m.id, Str(m.path), OptNum(m.numFrames), Num(m.fps), OptNum(m.width), OptNum(m.height));
    MetadataEntriesKeys(m.id, Str(m.path), OptNum(m.numFrames), Num(m.fps), OptNum(m.width), OptNum(m.height));
    MetadataEntriesFound(m.id, Str(m.path), OptNum(m.numFrames), Num(m.fps), OptNum(m.width), OptNum(m.height));
    Obj(es)
  }

  /** The six entries `to_json()` writes, in order. */
  function MetadataEntries(a: Json, b: Json, c: Json, d: Json, e: Json, f: Json): seq<(string, Json)>
  {
    [("id", a), ("path", b), ("num_frames", c), ("fps", d), ("width", e), ("height", f)]
  }

  lemma MetadataEntriesKeys(a: Json, b: Json, c: Json, d: Json, e: Json, f: Json)
    ensures Keys(MetadataEntries(a, b, c, d, e, f)) == MetadataKeys
  {
    var e5 := [("height", f)];
    var e4 := [("width", e)] + e5;
    var e3 := [("fps", d)] + e4;
    var e2 := [("num_frames", c)] + e3;
    var e1 := [("path", b)] + e2;
    assert MetadataEntries(a, b, c, d, e, f) == [("id", a)] + e1;
    KeysCons("height", f, []); KeysCons("width", e, e5); KeysCons("fps", d, e4);
    KeysCons("num_frames", c, e3); KeysCons("path", b, e2); KeysCons("id", a, e1);
  }

  /** Each key of the six entries finds its own value. */
  lemma MetadataEntriesFound(a: Json, b: Json, c: Json, d: Json, e: Json, f: Json)
    ensures var es := MetadataEntries(a, b, c, d, e, f);
            && Get(es, "id") == Some(a) && Get(es, "path") == Some(b) && Get(es, "num_frames") == Some(c)
            && Get(es, "fps") == Some(d) && Get(es, "width") == Some(e) && Get(es, "height") == Some(f)
  {
    var e5 := [("height", f)];
    var e4 := [("width", e)] + e5;
    var e3 := [("fps", d)] + e4;
    var e2 := [("num_frames", c)] + e3;
    var e1 := [("path", b)] + e2;
    var es := [("id", a)] + e1;
    assert MetadataEntries(a, b, c, d, e, f) == es;
    GetCons("id", a, e1, "id");
    assert Get(es, "path") == Some(b) by {
      GetCons("id", a, e1, "path"); GetCons("path", b, e2, "path");
    }
    assert Get(es, "num_frames") == Some(c) by {
      GetCons("id", a, e1, "num_frames"); GetCons("path", b, e2, "num_frames"); GetCons("num_frames", c, e3, "num_frames");
    }
    assert Get(es, "fps") == Some(d) by {
      GetCons("id", a, e1, "fps"); GetCons("path", b, e2, "fps"); GetCons("num_frames", c, e3, "fps");
      GetCons("fps", d, e4, "fps");
    }
    assert Get(es, "width") == Some(e) by {
      GetCons("id", a, e1, "width"); GetCons("path", b, e2, "width"); GetCons("num_frames", c, e3, "width");
      GetCons("fps", d, e4, "width"); GetCons("width", e, e5, "width");
    }
    assert Get(es, "height") == Some(f) by {
      GetCons("id", a, e1, "height"); GetCons("path", b, e2, "height"); GetCons("num_frames", c, e3, "height");
      GetCons("fps", d, e4, "height"); GetCons("width", e, e5, "height"); GetCons("height", f, [], "height");
    }
  }

  /** The front end indexes the videos table by `id`: in a table built from
      the written metadata, looking up a video's id finds that video's
      metadata, as long as no later video has the same id. */
  lemma VideoFoundById(t: Database.Table, metas: seq<VideoMetadata>, i: nat, id: real)
    requires t.rows == Database.IndexBy(Videos(metas), Database.RowId)
    requires i < |metas| && metas[i].id == Num(id)
    requires forall j :: i < j < |metas| ==> metas[j].id != Num(id)
    ensures t.Lookup(id) == Ok(MetadataToJson(metas[i]))
  {
    var rows := Videos(metas);
    forall j | i < j < |rows| ensures Database.RowId(rows[j]) != Some(Num(id)) {
      assert Database.RowId(rows[j]) == Some(metas[j].id);
    }
    assert Database.RowId(rows[i]) == Some(Num(id));
    Database.LookupFindsLastRow(t, rows, i, id);
  }

  /** `[meta.to_json() for meta in video_meta]`. */
  function Videos(metas: seq<VideoMetadata>): (r: seq<Json>)
    ensures |r| == |metas| && forall i :: 0 <= i < |metas| ==> r[i] == MetadataToJson(metas[i])
  {
    seq(|metas|, i requires 0 <= i < |metas| => MetadataToJson(metas[i]))
  }

  // ---------------------------------------------------------------------------
  // Key modes and settings.
  // ---------------------------------------------------------------------------

  /** The key bindings the widget uses. */
  datatype KeyMode = Standalone | Jupyter

  /** `to_string()`: the name the front end's own key modes use; the two
      modes get different names. */
  function KeyModeName(k: KeyMode): (r: string)
    ensures k.Standalone? <==> r == "Standalone"
    ensures k.Jupyter? <==> r == "Jupyter"
  {
    if k == Standalone then "Standalone" else "Jupyter"
  }

  /** The settings keys, in the order the constructor writes them. */
  const SettingKeys := ["spinner_dev_mode", "key_mode", "frameserver_endpoint", "video_endpoint",
                        "use_frameserver", "show_timeline", "blocks_per_page"]

  /** The settings dict the constructor builds: the seven settings as given,
      the key mode written as its name. */
  function SettingsOf(spinnerDevMode: bool, keyMode: KeyMode, frameserverEndpoint: string, videoEndpoint: string,
                      useFrameserver: bool, showTimeline: bool, blocksPerPage: int): (r: seq<(string, Json)>)
    ensures Keys(r) == SettingKeys
    ensures Get(r, "key_mode") == Some(Str(KeyModeName(keyMode)))
    ensures Get(r, "spinner_dev_mode") == Some(Bool(spinnerDevMode))
    ensures Get(r, "blocks_per_page") == Some(Num(blocksPerPage as real))
  {
    var a, b, c, d := Bool(spinnerDevMode), Str(KeyModeName(keyMode)), Str(frameserverEndpoint), Str(videoEndpoint);
    var e, f, g := Bool(useFrameserver), Bool(showTimeline), Num(blocksPerPage as real);
    SettingsEntriesKeys(a, b, c, d, e, f, g);
    SettingsEntriesFound(a, b, c, d, e, f, g);
    SettingsEntries(a, b, c, d, e, f, g)
  }

  /** The seven entries the constructor writes, in order. */
  function SettingsEntries(a: Json, b: Json, c: Json, d: Json, e: Json, f: Json, g: Json): seq<(string, Json)>
  {
    [("spinner_dev_mode", a), ("key_mode", b), ("frameserver_endpoint", c), ("video_endpoint", d),
     ("use_frameserver", e), ("show_timeline", f), ("blocks_per_page", g)]
  }

  lemma SettingsEntriesKeys(a: Json, b: Json, c: Json, d: Json, e: Json, f: Json, g: Json)
    ensures Keys(SettingsEntries(a, b, c, d, e, f, g)) == SettingKeys
  {
    var e6 := [("blocks_per_page", g)];
    var e5 := [("show_timeline", f)] + e6;
    var e4 := [("use_frameserver", e)] + e5;
    var e3 := [("video_endpoint", d)] + e4;
    var e2 := [("frameserver_endpoint", c)] + e3;
    var e1 := [("key_mode", b)] + e2;
    assert SettingsEntries(a, b, c, d, e, f, g) == [("spinner_dev_mode", a)] + e1;
    KeysCons("blocks_per_page", g, []);
    KeysCons("show_timeline", f, e6);
    KeysCons("use_frameserver", e, e5);
    KeysCons("video_endpoint", d, e4);
    KeysCons("frameserver_endpoint", c, e3);
    KeysCons("key_mode", b, e2);
    KeysCons("spinner_dev_mode", a, e1);
  }

  lemma SettingsEntriesFound(a: Json, b: Json, c: Json, d: Json, e: Json, f: Json, g: Json)
    ensures var es := SettingsEntries(a, b, c, d, e, f, g);
            Get(es, "spinner_dev_mode") == Some(a) && Get(es, "key_mode") == Some(b) && Get(es, "blocks_per_page") == Some(g)
  {
    var e6 := [("blocks_per_page", g)];
    var e5 := [("show_timeline", f)] + e6;
    var e4 := [("use_frameserver", e)] + e5;
    var e3 := [("video_endpoint", d)] + e4;
    var e2 := [("frameserver_endpoint", c)] + e3;
    var e1 := [("key_mode", b)] + e2;
    var es := [("spinner_dev_mode", a)] + e1;
    assert SettingsEntries(a, b, c, d, e, f, g) == es;
    GetCons("spinner_dev_mode", a, e1, "spinner_dev_mode");
    assert Get(es, "key_mode") == Some(b) by {
      GetCons("spinner_dev_mode", a, e1, "key_mode"); GetCons("key_mode", b, e2, "key_mode");
    }
    assert Get(es, "blocks_per_page") == Some(g) by {
      var k := "blocks_per_page";
      GetCons("spinner_dev_mode", a, e1, k); GetCons("key_mode", b, e2, k); GetCons("frameserver_endpoint", c, e3, k);
      GetCons("video_endpoint", d, e4, k); GetCons("use_frameserver", e, e5, k); GetCons("show_timeline", f, e6, k);
      GetCons(k, g, [], k);
    }
  }

  // ---------------------------------------------------------------------------
  // The specification.
  // ---------------------------------------------------------------------------

  /** A `VGridSpec`: exactly one of the blocks and the format is set. */
  datatype VGridSpec = VGridSpec(videoMeta: seq<VideoMetadata>, blocks: Option<seq<IntervalBlock>>,
                                 visFormat: Option<PyVisFormat.VisFormat>, settings: seq<(string, Json)>)

  const BlocksOrFormatMessage := "One of interval_blocks or vis_format should be set (but not both)."

  /** `VGridSpec(video_meta, interval_blocks, vis_format, ...)`: raises unless
      exactly one of the blocks and the format is given; otherwise stores
      both, the metadata list and the settings dict. */
  function NewSpec(videoMeta: seq<VideoMetadata>, blocks: Option<seq<IntervalBlock>>,
                   visFormat: Option<PyVisFormat.VisFormat>, spinnerDevMode: bool, keyMode: KeyMode,
                   frameserverEndpoint: string, videoEndpoint: string, useFrameserver: bool,
                   showTimeline: bool, blocksPerPage: int): (r: Result<VGridSpec>)
    ensures r.Ok? <==> (blocks.Some? <==> visFormat.None?)
    ensures r.Err? ==> r.error == Thrown(BlocksOrFormatMessage)
    ensures r.Ok? ==> && r.value.videoMeta == videoMeta && r.value.blocks == blocks
                      && r.value.visFormat == visFormat
                      && r.value.settings == SettingsOf(spinnerDevMode, keyMode, frameserverEndpoint, videoEndpoint,
                                                        useFrameserver, showTimeline, blocksPerPage)
  {
    if (blocks.None?) == (visFormat.None?) then Err(Thrown(BlocksOrFormatMessage))
    else Ok(VGridSpec(videoMeta, blocks, visFormat,
                      SettingsOf(spinnerDevMode, keyMode, frameserverEndpoint, videoEndpoint,
                                 useFrameserver, showTimeline, blocksPerPage)))
  }

  /** The constructor with its default settings: Jupyter keys, the local
      frame server and video server, thumbnails from the video element, the
      timeline shown and fifty blocks a page. */
  function NewSpecWithDefaults(videoMeta: seq<VideoMetadata>, blocks: Option<seq<IntervalBlock>>,
                               visFormat: Option<PyVisFormat.VisFormat>): (r: Result<VGridSpec>)
    ensures r.Ok? <==> (blocks.Some? <==> visFormat.None?)
    ensures r.Ok? ==> && Get(r.value.settings, "key_mode") == Some(Str("Jupyter"))
                      && Get(r.value.settings, "blocks_per_page") == Some(Num(50.0))
                      && Get(r.value.settings, "spinner_dev_mode") == Some(Bool(false))
  {
    NewSpec(videoMeta, blocks, visFormat, false, Jupyter, "http://localhost:7500/fetch",
            "http://localhost:8000/", false, true, 50)
  }

  /** The blocks `to_json` writes: the explicit ones, or those the format
      produces. With neither (which the constructor rules out) `None` has no
      `interval_blocks`. */
  function SpecBlocks(spec: VGridSpec): (r: Result<seq<IntervalBlock>>)
    ensures spec.blocks.Some? ==> r == Ok(spec.blocks.value)
    ensures spec.blocks.None? && spec.visFormat.Some? ==> r == PyVisFormat.IntervalBlocks(spec.visFormat.value)
  {
    if spec.blocks.Some? then Ok(spec.blocks.value)
    else if spec.visFormat.Some? then PyVisFormat.IntervalBlocks(spec.visFormat.value)
    else Err(AttributeError("interval_blocks"))
  }

  /** The payload dicts of a list of blocks. */
  function AllDicts(blocks: seq<IntervalBlock>): (r: set<PyDict>)
    ensures forall k :: 0 <= k < |blocks| ==> BlockDicts(blocks[k]) <= r
  {
    if blocks == [] then {}
    else
      var rest := AllDicts(blocks[1..]);
      assert forall k :: 1 <= k < |blocks| ==> blocks[k] == blocks[1..][k - 1];
      BlockDicts(blocks[0]) + rest
  }

  /** The objects `to_json` may change: the payload dicts of its blocks. */
  function SpecDicts(spec: VGridSpec): set<PyDict>
  {
    match SpecBlocks(spec)
    case Ok(blocks) => AllDicts(blocks)
    case Err(_) => {}
  }

  /** `to_json()`: the blocks written in order, each as its own `to_json()`
      writes it; the settings dict as stored; and the videos' metadata, in
      order, under `database.videos`. When no payload dict holds another as
      its metadata, writing succeeds exactly when the blocks can be had,
      every set of every block is an interval set and every payload converted
      before the call. */
  method SpecToJson(spec: VGridSpec) returns (r: Result<Json>)
    modifies SpecDicts(spec)
    ensures SpecBlocks(spec).Err? ==> r == Err(SpecBlocks(spec).error)
    ensures r.Ok? ==> && SpecBlocks(spec).Ok?
                      && r.value.Obj? && Keys(r.value.entries) == ["interval_blocks", "settings", "database"]
                      && r.value.entries[1].1 == Obj(spec.settings)
                      && r.value.entries[2].1 == Obj([("videos", Arr(Videos(spec.videoMeta)))])
    ensures r.Ok? ==> var blocks := SpecBlocks(spec).value;
                      && r.value.entries[0].1.Arr? && |r.value.entries[0].1.items| == |blocks|
                      && forall k :: 0 <= k < |blocks| ==>
                           BlockWritten(r.value.entries[0].1.items[k], blocks[k], old(SpatialSnapshot(SpecDicts(spec))))
    ensures SpecBlocks(spec).Ok? && old(MetadataApart(SpecDicts(spec))) ==>
              (r.Ok? <==> && (forall k :: 0 <= k < |SpecBlocks(spec).value| ==> SetsAreIntervalSets(SpecBlocks(spec).value[k]))
                          && Converts(old(ConvSnapshot(SpecDicts(spec))), SpecDicts(spec)))
  {
    var bs := SpecBlocks(spec);
    if bs.Err? {
      return Err(bs.error);
    }
    var blocks := bs.value;
    ghost var all := AllDicts(blocks);
    assert SpecDicts(spec) == all;
    var items := WriteBlocks(blocks, all);
    if items.Err? {
      return Err(items.error);
    }
    r := Ok(Obj([("interval_blocks", Arr(items.value)), ("settings", Obj(spec.settings)),
                 ("database", Obj([("videos", Arr(Videos(spec.videoMeta)))]))]));
    assert Keys(r.value.entries) == ["interval_blocks", "settings", "database"];
  }

  /** `[block.to_json() for block in interval_blocks]`: the blocks written one
      by one, in order, stopping at the first that fails. */
  method WriteBlocks(blocks: seq<IntervalBlock>, ghost all: set<PyDict>) returns (r: Result<seq<Json>>)
    requires all == AllDicts(blocks)
    modifies all
    ensures r.Ok? ==> |r.value| == |blocks|
    ensures r.Ok? ==> forall k :: 0 <= k < |blocks| ==> BlockWritten(r.value[k], blocks[k], old(SpatialSnapshot(all)))
    ensures SpatialSnapshot(all) == old(SpatialSnapshot(all))
    ensures old(MetadataApart(all)) ==>
              (r.Ok? <==> (forall k :: 0 <= k < |blocks| ==> SetsAreIntervalSets(blocks[k]))
                          && Converts(old(ConvSnapshot(all)), all))
  {
    ghost var snap := SpatialSnapshot(all);
    // The payload dicts of the blocks written so far.
    ghost var seen: set<PyDict> := {};
    var items: seq<Json> := [];
    var i := 0;
    assert blocks[0..] == blocks;
    while i < |blocks|
      invariant 0 <= i <= |blocks| && |items| == i
      invariant forall k :: 0 <= k < i ==> BlockWritten(items[k], blocks[k], snap)
      invariant SpatialSnapshot(all) == snap
      invariant old(MetadataApart(all)) ==> MetadataApart(all) && ConvSnapshot(all) == old(ConvSnapshot(all))
      invariant forall k :: 0 <= k < i ==> SetsAreIntervalSets(blocks[k])
      invariant all <= seen + AllDicts(blocks[i..])
      invariant old(MetadataApart(all)) ==> Converts(old(ConvSnapshot(all)), seen)
    {
      assert BlockDicts(blocks[i]) <= all;
      label call:
      var x := BlockToJson(blocks[i], all);
      if x.Err? {
        return Err(x.error);
      }
      BlockWrittenAgree(x.value, blocks[i], old@call(SpatialSnapshot(BlockDicts(blocks[i]))), snap);
      assert blocks[i..][1..] == blocks[i + 1..];
      seen := seen + BlockDicts(blocks[i]);
      ghost var done := items;
      items := items + [x.value];
      forall k | 0 <= k <= i ensures BlockWritten(items[k], blocks[k], snap) {
        if k < i {
          assert items[k] == done[k];
        }
      }
      i := i + 1;
    }
    r := Ok(items);
  }
}
