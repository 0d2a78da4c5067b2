/**
 * What the front end makes of the JSON the Python package writes: the Python
 * `to_json` of spatial types and metadata (vgridpy/vgrid/spatial_type.py,
 * vgridpy/vgrid/metadata.py) fed to the front end's registries
 * (vgridjs/src/spatial/mod.tsx, vgridjs/src/metadata.tsx), and the Python
 * `to_json` of interval blocks (vgridpy/vgrid/interval_block.py) fed to the
 * front end's block decoder (vgridjs/src/vblock.tsx, vgridjs/src/interval.tsx).
 */
module Exchange {
  import opened Js
  import Spatial
  import JsMeta = Metadata
  import Py = PySpatialType
  import PyMetadata
  import PyBlock = PyIntervalBlock
  import VBlock
  import VData
  import Intervals

  /** The front-end value a Python spatial type stands for. */
  function JsView(t: Py.SpatialType): Spatial.SpatialType
    requires !t.Base?
  {
    match t
    case Caption(text) => Spatial.SpatialCaption(Some(text))
    case Bbox(_) => Spatial.SpatialBbox
    case Temporal => Spatial.SpatialTemporal
    case Keypoints => Spatial.SpatialKeypoints
  }

  /** A caption, box or temporal type written by Python decodes in the front end
      to the same kind, a caption with the same text. */
  lemma SpatialRoundTrip(t: Py.SpatialType)
    requires t.Caption? || t.Bbox? || t.Temporal?
    ensures Spatial.SpatialTypeFromJson(Some(Py.ToJson(t).value)) == Ok(JsView(t))
  {
    var j := Some(Py.ToJson(t).value);
    assert Field(j, "type") == Some(Str(Py.TypeName(t)));
    if t.Caption? {
      assert Field(j, "args") == Some(Obj([("text", t.text)]));
    }
  }

  /** A keypoints type written by Python does not decode: the name is
      registered but the class has no `from_json`. */
  lemma KeypointsNotDecodable()
    ensures Spatial.SpatialTypeFromJson(Some(Py.ToJson(Py.Keypoints).value)).Err?
  {
    var j := Some(Py.ToJson(Py.Keypoints).value);
    assert Field(j, "type") == Some(Str("SpatialType_Keypoints"));
  }

  /** With a `from_json` for keypoints, every spatial type Python can write
      decodes to its front-end counterpart. */
  lemma IntendedSpatialRoundTrip(t: Py.SpatialType)
    requires !t.Base?
    ensures Spatial.SpatialTypeFromJsonIntended(Some(Py.ToJson(t).value)) == Ok(JsView(t))
  {
    var j := Some(Py.ToJson(t).value);
    assert Field(j, "type") == Some(Str(Py.TypeName(t)));
    if !t.Keypoints? {
      SpatialRoundTrip(t);
    }
  }

  /** Categorical metadata written by Python decodes with the same category
      type and category. */
  lemma CategoricalRoundTrip(name: Json, category: Json)
    ensures JsMeta.MetadataFromJson(Some(PyMetadata.ToJson(PyMetadata.Categorical(name, category)).value))
         == Ok(JsMeta.Categorical(Some(name), Some(category)))
  {
    var obj := Some(PyMetadata.ToJson(PyMetadata.Categorical(name, category)).value);
    var args := Some(Obj([("category_type", name), ("category", category)]));
    assert Field(obj, "args") == args;
    assert JsMeta.MetadataFromJson(obj) == JsMeta.CategoricalFromJson(args) by {
      assert PropertyKey(Field(obj, "type")) == Some("Metadata_Categorical");
    }
    assert Field(args, "category_type") == Some(name) by {
      GetCons("category_type", name, [("category", category)], "category_type");
    }
    assert Field(args, "category") == Some(category) by {
      assert "category_type" != "category" by { assert |"category_type"| != |"category"|; }
      GetCons("category_type", name, [("category", category)], "category");
      GetCons("category", category, [], "category");
    }
  }

  /** A flag written by Python is rejected: the front end's registry has no flag. */
  lemma FlagNotDecodable()
    ensures JsMeta.MetadataFromJson(Some(PyMetadata.ToJson(PyMetadata.Flag).value)).Err?
  {
    var j := Some(PyMetadata.ToJson(PyMetadata.Flag).value);
    assert Field(j, "type") == Some(Str("Metadata_Flag"));
  }

  /** Generic metadata, once Python writes it, decodes to an object whose `data`
      field is the Python value. */
  lemma GenericRoundTrip(data: Json)
    ensures var r := JsMeta.MetadataFromJson(Some(PyMetadata.IntendedToJson(PyMetadata.Generic(data)).value));
            r.Ok? && r.value.Generic? && Field(r.value.data, "data") == Some(data)
  {
    var j := Some(PyMetadata.IntendedToJson(PyMetadata.Generic(data)).value);
    assert Field(j, "type") == Some(Str("Metadata_Generic"));
    assert Field(j, "args") == Some(Obj([("data", data)]));
  }

  /** The Python writer puts a block's sets under `interval_sets`, while the
      front end reads them from `interval_dict`. A written block therefore
      decodes to a block of the right video with no interval sets at all. */
  lemma WrittenBlockHasNoSets(x: Json, b: PyBlock.IntervalBlock,
                              snap: map<PyBlock.PyDict, Option<Py.SpatialType>>,
                              setFromJson: Json -> Result<Intervals.IntervalSet<VData.Payload>>)
    requires PyBlock.BlockWritten(x, b, snap)
    ensures VBlock.BlockFromJson(x, setFromJson) == Ok(VBlock.IntervalBlock([], Some(b.videoId)))
  {
    assert x.entries[0].0 == "interval_sets" && x.entries[1].0 == "video_id";
    assert Field(Some(x), "interval_dict") == None;
    assert Field(Some(x), "video_id") == Some(b.videoId);
  }

  /** The Python writer puts a payload's kind under `spatial_type`, while
      `vdata_from_json` reads `draw_type`. No payload Python writes decodes. */
  lemma WrittenPayloadNotDecodable(st: Py.SpatialType, items: Option<seq<(string, PyBlock.Value)>>)
    requires PyBlock.Converted(st, items).Ok?
    ensures VData.VDataFromJson(Some(PyBlock.Converted(st, items).value)).Err?
    ensures VData.VDataFromJson(Some(PyBlock.DefaultJson)).Err?
  {
    var p := PyBlock.Converted(st, items).value;
    assert p.entries[0].0 == "spatial_type" && p.entries[1].0 == "metadata";
    assert Field(Some(p), "draw_type") == None;
    assert Field(Some(PyBlock.DefaultJson), "draw_type") == None;
  }
}
