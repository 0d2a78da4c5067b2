/**
 * Draw types: how an interval is drawn over the video frame (a box, keypoints,
 * or a caption that is not drawn spatially), and the registry that decodes a
 * `{type, args}` object into one (vgridjs/src/drawable.tsx).
 */
module Drawable {
  import opened Js

  datatype DrawType = DrawBbox | DrawKeypoints | DrawCaption(text: Option<Json>)

  /** `view()`: the component that draws the interval; only a box has one. */
  predicate HasView(d: DrawType)
  {
    d.DrawBbox?
  }

  /** The names the registry of `drawtype_from_json` lists. */
  const DrawTypeNames: seq<string> := ["DrawType_Bbox", "DrawType_Caption"]

  /** `DrawType_Bbox.from_json(args)`: the arguments are not looked at. */
  function BboxFromJson(args: Option<Json>): (r: Result<DrawType>)
    ensures r == Ok(DrawBbox)
  {
    Ok(DrawBbox)
  }

  /** `DrawType_Caption.from_json(args)`: the text is `args.text`, and reading it
      fails when there are no arguments. */
  function CaptionFromJson(args: Option<Json>): (r: Result<DrawType>)
    ensures r.Ok? <==> !Nullish(args)
    ensures r.Ok? ==> r.value == DrawCaption(Field(args, "text"))
    ensures r.Err? ==> r.error.TypeError?
  {
    match Prop(args, "text")
    case Err(e) => Err(e)
    case Ok(t) => Ok(DrawCaption(t))
  }

  /** `drawtype_from_json(obj)`: look `obj.type` up in the registry and call that
      class's `from_json` on `obj.args`. A name the registry does not list
      (`DrawType_Keypoints` included) gives `undefined`, and calling
      `from_json` on it throws. */
  function DrawTypeFromJson(obj: Option<Json>): (r: Result<DrawType>)
    ensures var key := PropertyKey(Field(obj, "type"));
            r.Ok? <==> !Nullish(obj)
                       && (key == Some("DrawType_Bbox")
                           || (key == Some("DrawType_Caption") && !Nullish(Field(obj, "args"))))
    ensures r.Ok? ==> r.value == if PropertyKey(Field(obj, "type")) == Some("DrawType_Bbox") then DrawBbox
                                 else DrawCaption(Field(Field(obj, "args"), "text"))
    ensures r.Err? ==> r.error.TypeError?
  {
    match Prop(obj, "type")
    case Err(e) => Err(e)
    case Ok(tag) =>
      var args := Field(obj, "args");
      if PropertyKey(tag) == Some("DrawType_Bbox") then BboxFromJson(args)
      else if PropertyKey(tag) == Some("DrawType_Caption") then CaptionFromJson(args)
      else Err(TypeError("types[obj.type] is undefined"))
  }

  /** Whatever decodes has a view exactly when its tag named the box. */
  lemma DecodedViews(obj: Option<Json>)
    requires DrawTypeFromJson(obj).Ok?
    ensures HasView(DrawTypeFromJson(obj).value) <==> PropertyKey(Field(obj, "type")) == Some("DrawType_Bbox")
    ensures PropertyKey(Field(obj, "type")).Some? && PropertyKey(Field(obj, "type")).value in DrawTypeNames
  {
  }
}

/**
 * The older front end's draw types (src/drawable.tsx): the same classes, but the
 * registry lists only the box and builds the value with `new`.
 */
module LegacyDrawable {
  import opened Js
  import opened Drawable

  /** What `new types[obj.type](obj.args)` builds: a draw type, or, for the tag
      `constructor` (which every object inherits), a plain object made by
      `new Object(obj.args)`. */
  datatype Built = Drawn(drawType: DrawType) | PlainObject(args: Option<Json>)

  /** `new DrawType_Caption(text)`: the text is stored as given. */
  function NewCaption(text: Option<Json>): (d: DrawType)
    ensures d.DrawCaption? && d.text == text && !HasView(d)
  {
    DrawCaption(text)
  }

  /** `drawtype_from_json(obj)` of the older front end. */
  function DrawTypeFromJson(obj: Option<Json>): (r: Result<Built>)
    ensures r.Ok? <==> !Nullish(obj) && PropertyKey(Field(obj, "type")) in {Some("DrawType_Bbox"), Some("constructor")}
    ensures r.Ok? && PropertyKey(Field(obj, "type")) == Some("DrawType_Bbox") ==> r.value == Drawn(DrawBbox)
    ensures r.Ok? && r.value.Drawn? ==> HasView(r.value.drawType)
    ensures r.Err? ==> r.error.TypeError?
  {
    match Prop(obj, "type")
    case Err(e) => Err(e)
    case Ok(tag) =>
      if PropertyKey(tag) == Some("DrawType_Bbox") then Ok(Drawn(DrawBbox))
      else if PropertyKey(tag) == Some("constructor") then Ok(PlainObject(Field(obj, "args")))
      else Err(TypeError("types[obj.type] is not a constructor"))
  }
}
