/**
 * The Python package's spatial types and their JSON form
 * (vgridpy/vgrid/spatial_type.py).
 */
module PySpatialType {
  import opened Js

  datatype SpatialType =
    | Base                 // the abstract `SpatialType` itself
    | Caption(text: Json)
    | Bbox(text: Json)     // `text` defaults to `None`
    | Temporal
    | Keypoints

  /** The `"type"` each class writes. */
  function TypeName(t: SpatialType): string
    requires !t.Base?
  {
    match t
    case Caption(_) => "SpatialType_Caption"
    case Bbox(_) => "SpatialType_Bbox"
    case Temporal => "SpatialType_Temporal"
    case Keypoints => "SpatialType_Keypoints"
  }

  /** `t.to_json()`. The base class raises `NotImplemented`, which is not an
      exception class, so Python raises a `TypeError` instead. A box carries its
      text only when the text is truthy. */
  function ToJson(t: SpatialType): (r: Result<Json>)
    ensures r.Err? <==> t.Base?
    ensures r.Ok? ==> r.value.Obj? && DistinctKeys(r.value.entries)
                      && Get(r.value.entries, "type") == Some(Str(TypeName(t)))
    ensures r.Ok? ==> (HasKey(r.value.entries, "args") <==> t.Caption? || (t.Bbox? && PyTruthy(t.text)))
    ensures r.Ok? && HasKey(r.value.entries, "args") ==> Get(r.value.entries, "args") == Some(Obj([("text", t.text)]))
    ensures r.Ok? ==> |r.value.entries| <= 2
  {
    match t
    case Base => Err(TypeError("exceptions must derive from BaseException"))
    case Caption(text) =>
      var es := [("type", Str("SpatialType_Caption")), ("args", Obj([("text", text)]))];
      assert es[1].0 == "args";
      Ok(Obj(es))
    case Bbox(text) =>
      var ret := [("type", Str("SpatialType_Bbox"))];
      var withArgs := ret + [("args", Obj([("text", text)]))];
      assert withArgs[1].0 == "args";
      Ok(Obj(if PyTruthy(text) then withArgs else ret))
    case Temporal => Ok(Obj([("type", Str("SpatialType_Temporal"))]))
    case Keypoints => Ok(Obj([("type", Str("SpatialType_Keypoints"))]))
  }
}
