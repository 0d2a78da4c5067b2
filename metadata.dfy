/**
 * Interval metadata: the structured payloads attached to an interval under a
 * key, and the registry that decodes a `{type, args}` object into one
 * (vgridjs/src/metadata.tsx).
 */
module Metadata {
  import opened Js
  import KP = Keypoints

  datatype Metadata =
    | Flag
    | Generic(data: Option<Json>)
    | Categorical(categoryType: Option<Json>, category: Option<Json>)
    | CaptionMeta(meta: Metadata, charStart: Option<Json>, charEnd: Option<Json>)
    | BboxMeta(text: Option<Json>)
    | KeypointsMeta(keypoints: KP.Keypoints)

  /** `Metadata_Flag.from_json`: a flag, whatever the input. */
  function FlagFromJson(obj: Option<Json>): (r: Result<Metadata>)
    ensures r == Ok(Flag)
  {
    Ok(Flag)
  }

  /** `Metadata_Generic.from_json`: the whole input is the data. */
  function GenericFromJson(obj: Option<Json>): (r: Result<Metadata>)
    ensures r.Ok? && r.value.Generic? && r.value.data == obj
  {
    Ok(Generic(obj))
  }

  /** `Metadata_Categorical.from_json`: the two fields of the input, by name. */
  function CategoricalFromJson(obj: Option<Json>): (r: Result<Metadata>)
    ensures r.Ok? <==> !Nullish(obj)
    ensures r.Ok? ==> r.value == Categorical(Field(obj, "category_type"), Field(obj, "category"))
  {
    if Nullish(obj) then Err(TypeError("property category_type of " + (if obj == None then "undefined" else "null")))
    else Ok(Categorical(Field(obj, "category_type"), Field(obj, "category")))
  }

  /** `Metadata_CaptionMeta.from_json` and `Metadata_Bbox.from_json` are not
      written yet: they always throw. */
  function NotYetImplemented(obj: Option<Json>): (r: Result<Metadata>)
    ensures r == Err(Thrown("Not yet implemented"))
  {
    Err(Thrown("Not yet implemented"))
  }

  /** What `for (let x of v)` walks over: the items of an array, the
      one-character strings of a string; any other value is not iterable. */
  function Iterated(v: Option<Json>): (r: Result<seq<Json>>)
    ensures r.Ok? <==> v.Some? && (v.value.Arr? || v.value.Str?)
    ensures r.Ok? && v.value.Arr? ==> r.value == v.value.items
    ensures r.Ok? && v.value.Str? ==> |r.value| == |v.value.s|
                                      && forall i :: 0 <= i < |r.value| ==> r.value[i] == Str([v.value.s[i]])
  {
    match v
    case Some(Arr(items)) => Ok(items)
    case Some(Str(s)) => Ok(seq(|s|, i requires 0 <= i < |s| => Str([s[i]])))
    case _ => Err(TypeError("not iterable"))
  }

  /** `{start: edge[0], end: edge[1], color: edge[2]}`; indexing `null` throws. */
  function EdgeOf(e: Json): (r: Result<KP.Edge>)
    ensures r.Ok? <==> e != Null
    ensures r.Ok? ==> At(Some(e), 0) == Ok(r.value.start) && At(Some(e), 1) == Ok(r.value.end)
                      && At(Some(e), 2) == Ok(r.value.color)
  {
    if e == Null then Err(TypeError("edge[0] of null"))
    else Ok(KP.Edge(At(Some(e), 0).value, At(Some(e), 1).value, At(Some(e), 2).value))
  }

  /** The edges of `obj.edges`, one per item and in order; the first item that
      cannot be indexed stops the decode. */
  function EdgesOf(items: seq<Json>): (r: Result<seq<KP.Edge>>)
    ensures r.Ok? <==> forall i :: 0 <= i < |items| ==> items[i] != Null
    ensures r.Ok? ==> |r.value| == |items| && forall i :: 0 <= i < |items| ==> EdgeOf(items[i]) == Ok(r.value[i])
    ensures r.Err? ==> r.error == EdgeOf(Null).error
  {
    if items == [] then Ok([])
    else match EdgeOf(items[|items| - 1])
      case Err(e) => Err(e)
      case Ok(last) =>
        match EdgesOf(items[..|items| - 1])
        case Err(e) =>
          var pre := items[..|items| - 1];
          assert exists i :: 0 <= i < |pre| && pre[i] == Null;
          Err(e)
        case Ok(es) => Ok(es + [last])
  }

  /** The edge loop of `Metadata_Keypoints.from_json`, pushing one edge per item. */
  method PushEdges(items: seq<Json>) returns (r: Result<seq<KP.Edge>>)
    ensures r == EdgesOf(items)
  {
    var edges: seq<KP.Edge> := [];
    var i := 0;
    while i < |items|
      invariant 0 <= i <= |items|
      invariant EdgesOf(items[..i]) == Ok(edges)
    {
      match EdgeOf(items[i])
      case Err(e) =>
        EdgesOfFailsAt(items, i);
        return Err(e);
      case Ok(edge) =>
        assert items[..i + 1][..i] == items[..i];
        edges := edges + [edge];
      i := i + 1;
    }
    assert items[..i] == items;
    r := Ok(edges);
  }

  lemma EdgesOfFailsAt(items: seq<Json>, i: nat)
    requires i < |items| && items[i] == Null
    ensures EdgesOf(items).Err?
  {
  }

  /** `Metadata_Keypoints.from_json(obj)`. `Object.keys(obj.keypoints)` yields
      strings, so the `typeof index == 'number'` test never holds and no node is
      ever stored; the edges are `obj.edges`, one per item. */
  function KeypointsFromJson(obj: Option<Json>): (r: Result<Metadata>)
    ensures r.Ok? <==> !Nullish(obj) && !Nullish(Field(obj, "keypoints"))
                       && Iterated(Field(obj, "edges")).Ok?
                       && EdgesOf(Iterated(Field(obj, "edges")).value).Ok?
    ensures r.Ok? ==> r.value.KeypointsMeta? && r.value.keypoints.nodes == []
                      && Ok(r.value.keypoints.edges) == EdgesOf(Iterated(Field(obj, "edges")).value)
  {
    if Nullish(obj) then Err(TypeError("property keypoints of undefined or null"))
    else if Nullish(Field(obj, "keypoints")) then Err(TypeError("Object.keys of undefined or null"))
    else match Iterated(Field(obj, "edges"))
      case Err(e) => Err(e)
      case Ok(items) =>
        match EdgesOf(items)
        case Err(e) => Err(e)
        case Ok(edges) => Ok(KeypointsMeta(KP.Keypoints([], edges)))
  }

  /** The names the registry of `metadata_from_json` lists (no flag). */
  const MetadataNames: seq<string> := ["Metadata_Categorical", "Metadata_Generic", "Metadata_Keypoints"]

  /** `metadata_from_json(obj)`: dispatch on `obj.type`, decode `obj.args`. */
  function MetadataFromJson(obj: Option<Json>): (r: Result<Metadata>)
    ensures var key := PropertyKey(Field(obj, "type"));
            r.Ok? ==> !Nullish(obj) && key.Some? && key.value in MetadataNames
    ensures var key := PropertyKey(Field(obj, "type"));
            !Nullish(obj) && key == Some("Metadata_Generic") ==> r == Ok(Generic(Field(obj, "args")))
    ensures var key := PropertyKey(Field(obj, "type"));
            !Nullish(obj) && key == Some("Metadata_Categorical") ==> r == CategoricalFromJson(Field(obj, "args"))
    ensures var key := PropertyKey(Field(obj, "type"));
            !Nullish(obj) && key == Some("Metadata_Keypoints") ==> r == KeypointsFromJson(Field(obj, "args"))
  {
    match Prop(obj, "type")
    case Err(e) => Err(e)
    case Ok(tag) =>
      var args := Field(obj, "args");
      if PropertyKey(tag) == Some("Metadata_Categorical") then CategoricalFromJson(args)
      else if PropertyKey(tag) == Some("Metadata_Generic") then GenericFromJson(args)
      else if PropertyKey(tag) == Some("Metadata_Keypoints") then KeypointsFromJson(args)
      else Err(TypeError("types[obj.type] is undefined"))
  }

  /** A flag tag is not decoded, although `Metadata_Flag` has a `from_json`. */
  lemma FlagNotRegistered()
    ensures MetadataFromJson(Some(Obj([("type", Str("Metadata_Flag")), ("args", Null)]))).Err?
  {
    var obj := Some(Obj([("type", Str("Metadata_Flag")), ("args", Null)]));
    assert Field(obj, "type") == Some(Str("Metadata_Flag"));
  }
}

/**
 * The older front end's metadata classes (src/metadata.tsx): constructors and
 * `from_json` decoders, without a registry.
 */
module LegacyMetadata {
  import opened Js

  datatype Metadata =
    | Flag
    | Generic(data: Option<Json>)
    | Categorical(category: Option<Json>, categoryType: Option<Json>)
    | CaptionMeta(meta: Metadata, charStart: Option<Json>, charEnd: Option<Json>)

  function FlagFromJson(obj: Option<Json>): (r: Result<Metadata>)
    ensures r == Ok(Flag)
  {
    Ok(Flag)
  }

  function GenericFromJson(obj: Option<Json>): (r: Result<Metadata>)
    ensures r.Ok? && r.value.Generic? && r.value.data == obj
  {
    Ok(Generic(obj))
  }

  /** `Metadata_Categorical.from_json`: the constructor takes the category
      first, and `from_json` passes the fields in that order, so each field gets
      the input field of the same name. */
  function CategoricalFromJson(obj: Option<Json>): (r: Result<Metadata>)
    ensures r.Ok? <==> !Nullish(obj)
    ensures r.Ok? ==> r.value.Categorical? && r.value.category == Field(obj, "category")
                      && r.value.categoryType == Field(obj, "category_type")
  {
    match Prop(obj, "category")
    case Err(e) => Err(e)
    case Ok(c) => Ok(Categorical(c, Field(obj, "category_type")))
  }

  /** `new Metadata_CaptionMeta(meta, char_start, char_end)`. */
  function NewCaptionMeta(meta: Metadata, charStart: Option<Json>, charEnd: Option<Json>): (m: Metadata)
    ensures m.CaptionMeta? && m.meta == meta && m.charStart == charStart && m.charEnd == charEnd
  {
    CaptionMeta(meta, charStart, charEnd)
  }

  function CaptionMetaFromJson(obj: Option<Json>): (r: Result<Metadata>)
    ensures r == Err(Thrown("Not yet implemented"))
  {
    Err(Thrown("Not yet implemented"))
  }
}
