/**
 * The Python package's metadata classes and their JSON form
 * (vgridpy/vgrid/metadata.py).
 */
module PyMetadata {
  import opened Js

  datatype Metadata =
    | Base                                      // the abstract `Metadata` itself
    | Flag
    | Generic(data: Json)
    | Categorical(categoryName: Json, category: Json)

  /** `m.to_json()`. `Metadata_Generic.to_json` reads a name `data` that is not
      defined in its scope (the value lives in `self._data`), so it always raises
      a `NameError`; the base class raises a `TypeError` as its spatial-type
      counterpart does. */
  function ToJson(m: Metadata): (r: Result<Json>)
    ensures m.Generic? ==> r == Err(NameError("data"))
    ensures r.Err? <==> m.Base? || m.Generic?
    ensures m.Flag? ==> r == Ok(Obj([("type", Str("Metadata_Flag"))]))
    ensures m.Categorical? ==> (r.Ok? && r.value.Obj?
                                && Get(r.value.entries, "type") == Some(Str("Metadata_Categorical"))
                                && Get(r.value.entries, "args")
                                   == Some(Obj([("category_type", m.categoryName), ("category", m.category)])))
  {
    match m
    case Base => Err(TypeError("exceptions must derive from BaseException"))
    case Flag => Ok(Obj([("type", Str("Metadata_Flag"))]))
    case Generic(_) => Err(NameError("data"))
    case Categorical(name, category) =>
      Ok(Obj([("type", Str("Metadata_Categorical")),
               ("args", Obj([("category_type", name), ("category", category)]))]))
  }

  /** `to_json` with the generic payload read from `self._data`. */
  function IntendedToJson(m: Metadata): (r: Result<Json>)
    ensures m.Generic? ==> (r.Ok? && r.value.Obj?
                            && Get(r.value.entries, "type") == Some(Str("Metadata_Generic"))
                            && Get(r.value.entries, "args") == Some(Obj([("data", m.data)])))
    ensures !m.Generic? ==> r == ToJson(m)
  {
    match m
    case Generic(data) => Ok(Obj([("type", Str("Metadata_Generic")), ("args", Obj([("data", data)]))]))
    case _ => ToJson(m)
  }
}
