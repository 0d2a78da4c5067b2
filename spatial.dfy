/**
 * Spatial types: how the intervals of a set are drawn and labelled over the
 * frame, and the registry that decodes one from a `{type, args}` object
 * (vgridjs/src/spatial/mod.tsx with the `from_json` of bbox.tsx, caption.tsx
 * and temporal.tsx).
 */
module Spatial {
  import opened Js

  datatype SpatialType = SpatialBbox | SpatialKeypoints | SpatialCaption(text: Option<Json>) | SpatialTemporal

  /** The four names the registry lists. */
  const SpatialTypeNames: seq<string> :=
    ["SpatialType_Bbox", "SpatialType_Keypoints", "SpatialType_Caption", "SpatialType_Temporal"]

  /** `key in types`: a registered name, or a name every object inherits. */
  predicate InTypes(key: Option<string>)
  {
    key.Some? && (key.value in SpatialTypeNames || key.value in ObjectPrototypeNames)
  }

  /** `SpatialType_Caption.from_json(args)`: the text is `args.text`. */
  function CaptionFromJson(args: Option<Json>): (r: Result<SpatialType>)
    ensures r.Ok? <==> !Nullish(args)
    ensures r.Ok? ==> r.value == SpatialCaption(Field(args, "text"))
  {
    match Prop(args, "text")
    case Err(e) => Err(e)
    case Ok(t) => Ok(SpatialCaption(t))
  }

  /** `spatial_type_from_json(obj)`. A name that is not in `types` is reported as
      an invalid spatial type; a name that is, but whose class has no static
      `from_json` (`SpatialType_Keypoints`, or an inherited member of
      `Object.prototype`), fails when `from_json` is called. Boxes and temporal
      types ignore their arguments. */
  function SpatialTypeFromJson(obj: Option<Json>): (r: Result<SpatialType>)
    ensures Nullish(obj) ==> r.Err? && r.error.TypeError?
    ensures !Nullish(obj) && !InTypes(PropertyKey(Field(obj, "type")))
            ==> r == Err(InvalidSpatialType(Field(obj, "type")))
    ensures var key := PropertyKey(Field(obj, "type"));
            r.Ok? <==> !Nullish(obj) && (key == Some("SpatialType_Bbox") || key == Some("SpatialType_Temporal")
                                         || (key == Some("SpatialType_Caption") && !Nullish(Field(obj, "args"))))
    ensures var key := PropertyKey(Field(obj, "type"));
            r.Ok? ==> r.value == if key == Some("SpatialType_Bbox") then SpatialBbox
                                 else if key == Some("SpatialType_Temporal") then SpatialTemporal
                                 else SpatialCaption(Field(Field(obj, "args"), "text"))
    ensures !Nullish(obj) && PropertyKey(Field(obj, "type")) == Some("SpatialType_Keypoints")
            ==> r.Err? && r.error.TypeError?
  {
    match Prop(obj, "type")
    case Err(e) => Err(e)
    case Ok(tag) =>
      var key := PropertyKey(tag);
      var args := Field(obj, "args");
      if !InTypes(key) then Err(InvalidSpatialType(tag))
      else if key == Some("SpatialType_Bbox") then Ok(SpatialBbox)
      else if key == Some("SpatialType_Caption") then CaptionFromJson(args)
      else if key == Some("SpatialType_Temporal") then Ok(SpatialTemporal)
      else Err(TypeError("types[obj.type].from_json is not a function"))
  }

  /** The registry with a `from_json` for every class it lists: keypoints
      decode like boxes, ignoring their arguments. */
  function SpatialTypeFromJsonIntended(obj: Option<Json>): (r: Result<SpatialType>)
    ensures !Nullish(obj) && PropertyKey(Field(obj, "type")) == Some("SpatialType_Keypoints")
            ==> r == Ok(SpatialKeypoints)
    ensures var key := PropertyKey(Field(obj, "type"));
            key != Some("SpatialType_Keypoints") ==> r == SpatialTypeFromJson(obj)
  {
    match Prop(obj, "type")
    case Err(e) => Err(e)
    case Ok(tag) =>
      if PropertyKey(tag) == Some("SpatialType_Keypoints") then Ok(SpatialKeypoints)
      else SpatialTypeFromJson(obj)
  }
}
