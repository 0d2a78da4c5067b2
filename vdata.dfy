/**
 * The payload of a front-end interval read from JSON: a draw type and keyed
 * metadata (vgridjs/src/interval.tsx).
 */
module VData {
  import opened Js
  import opened Drawable
  import Metadata
  import Lodash
  import Spatial

  datatype VData = VData(drawType: DrawType, metadata: seq<(string, Metadata.Metadata)>)

  /** The decoder `_.mapValues` applies to each metadata entry. */
  function DecodeMetadata(j: Json): Result<Metadata.Metadata>
  {
    Metadata.MetadataFromJson(Some(j))
  }

  /** `vdata_from_json(obj)`: the draw type is decoded first, then every
      metadata entry; the first failure is the result, there is no default. */
  function VDataFromJson(obj: Option<Json>): (r: Result<VData>)
    ensures var es := Lodash.Entries(Field(obj, "metadata"));
            r.Ok? <==> !Nullish(obj) && DrawTypeFromJson(Field(obj, "draw_type")).Ok?
                       && forall i :: 0 <= i < |es| ==> DecodeMetadata(es[i].1).Ok?
    ensures var es := Lodash.Entries(Field(obj, "metadata"));
            r.Ok? ==> && r.value.drawType == DrawTypeFromJson(Field(obj, "draw_type")).value
                      && Keys(r.value.metadata) == Keys(es)
                      && forall i :: 0 <= i < |es| ==> DecodeMetadata(es[i].1) == Ok(r.value.metadata[i].1)
    ensures r.Ok? && Nullish(Field(obj, "metadata")) ==> r.value.metadata == []
  {
    match Prop(obj, "draw_type")
    case Err(e) => Err(e)
    case Ok(dt) =>
      match DrawTypeFromJson(dt)
      case Err(e) => Err(e)
      case Ok(drawType) =>
        match Lodash.MapValues(Lodash.Entries(Field(obj, "metadata")), DecodeMetadata)
        case Err(e) => Err(e)
        case Ok(metadata) => Ok(VData(drawType, metadata))
  }

  /** What an interval of the front end carries: either a payload decoded with
      `vdata_from_json`, or the payload the labelling tools give the intervals
      they create (`{spatial_type, metadata}`). */
  datatype Payload =
    | Decoded(vdata: VData)
    | Labelled(spatialType: Spatial.SpatialType, metadata: seq<(string, Metadata.Metadata)>)

  /** `data.spatial_type instanceof SpatialType_Caption`: a decoded payload has
      no `spatial_type`, so only a labelled caption passes. */
  predicate IsCaption(p: Payload)
  {
    p.Labelled? && p.spatialType.SpatialCaption?
  }

  /** The payload of intervals created on the timeline or drawn as boxes. */
  const BoxPayload: Payload := Labelled(Spatial.SpatialBbox, [])
}
