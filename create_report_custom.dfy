/** The custom objects of `dataprep/eda/create_report/custom.py`, the
    version in the `create_report` package: fewer wrappers, a section that
    copies what it is given, and `add_section`, which records a section in
    a report context. */
module CreateReportCustom {
  import opened Python
  import opened Base64
  import opened External
  import opened ImageMarkup

  /** An instance of one of the `CustomObject` subclasses of this version. */
  datatype CustomObject =
    | PlotlyObject(name: string, figure: PlotlyFigure, html: string)
    | HtmlObject(name: string, html: string)
    | ImageObject(name: string, html: string)
  {
    /** The `object_type` attribute: one constant per class, which no
        other class shares. */
    function ObjectType(): (t: string)
      ensures t == "plotly" <==> PlotlyObject?
      ensures t == "html" <==> HtmlObject?
      ensures t == "image" <==> ImageObject?
    {
      match this
      case PlotlyObject(_, _, _) => "plotly"
      case HtmlObject(_, _) => "html"
      case ImageObject(_, _) => "image"
    }

    function ClassName(): string {
      match this
      case PlotlyObject(_, _, _) => "CustomPlotly"
      case HtmlObject(_, _) => "CustomHTML"
      case ImageObject(_, _) => "CustomImage"
    }
  }

  /** The Python values found in sections and report contexts. `Other`
      stands for a value of any other type, one that supports neither item
      assignment nor `append`. */
  datatype Value =
    | NoneValue
    | BoolValue(b: bool)
    | Str(s: string)
    | Image(image: PilImage)
    | Array(nd: NdArray)
    | Object(obj: CustomObject)
    | Section(section: CustomSection)
    | List(list: PyList<Value>)
    | Dict(dict: PyDict<Value>)
    | Other(typeName: string)

  /** `type(v).__name__` */
  function ShortTypeName(v: Value): string {
    match v
    case NoneValue => "NoneType"
    case BoolValue(_) => "bool"
    case Str(_) => "str"
    case Image(_) => "Image"
    case Array(_) => "ndarray"
    case Object(o) => o.ClassName()
    case Section(_) => "CustomSection"
    case List(_) => "list"
    case Dict(_) => "dict"
    case Other(t) => t
  }

  /** The module that defines `type(v)`, with a trailing `.`. */
  function TypeModule(v: Value): string {
    match v
    case Image(_) => "PIL.Image."
    case Array(_) => "numpy."
    case Object(_) => "dataprep.eda.create_report.custom."
    case Section(_) => "dataprep.eda.create_report.custom."
    case _ => ""
  }

  const ClassReprOpen: string := "<class '"
  const ClassReprClose: string := "'>"

  /** `f"{type(v)}"`: the module and the name of the type, quoted inside
      `<class ...>`. */
  function TypeRepr(v: Value): (r: string)
    ensures Between(r, ClassReprOpen, ClassReprClose) == Some(TypeModule(v) + ShortTypeName(v))
  {
    var qualified := TypeModule(v) + ShortTypeName(v);
    BetweenWrapped(ClassReprOpen, qualified, ClassReprClose);
    ClassReprOpen + qualified + ClassReprClose
  }

  /** `CustomPlotly(name, obj, *args, **kwargs)` */
  function CustomPlotly(name: string, obj: PlotlyFigure, args: seq<Arg>, kwargs: Kwargs, r: Renderers): (o: CustomObject)
    ensures o.PlotlyObject? && o.ObjectType() == "plotly"
    ensures o.name == name && o.figure == obj && o.html == r.plotlyToHtml(obj, args, kwargs)
  {
    PlotlyObject(name, obj, r.plotlyToHtml(obj, args, kwargs))
  }

  /** `CustomHTML(name, obj)`: the HTML is kept as given. */
  function CustomHTML(name: string, obj: string): (o: CustomObject)
    ensures o.HtmlObject? && o.ObjectType() == "html"
    ensures o.name == name && o.html == obj
  {
    HtmlObject(name, obj)
  }

  /** `get_image_url(path)` of this version: only the URL is returned. The
      file is read before the extension is looked up. */
  function GetImageUrl(path: string, files: FileSystem): (res: Result<string>)
    ensures path !in files ==> res == Err(FileNotFoundError(path))
    ensures path in files && Extension(path) !in MimeTypes ==> res == Err(KeyError(Extension(path)))
    ensures res.Ok? <==> path in files && Extension(path) in MimeTypes
    ensures res.Ok? ==> PathDataUrlParts(res.value) == Some((MimeTypes[Extension(path)], Encode(files[path])))
  {
    var fileType := Extension(path);
    if path !in files then Err(FileNotFoundError(path))
    else
      var imageStr := Encode(files[path]);
      if fileType !in MimeTypes then Err(KeyError(fileType))
      else
        MimeTypeIsPlain(fileType);
        PathDataUrlRoundTrip(MimeTypes[fileType], imageStr);
        Ok(PathDataUrl(MimeTypes[fileType], imageStr))
  }

  /** The `<img>` tag shows `bytes` as a PNG data URL in its `src`. */
  predicate ShowsPng(html: string, bytes: Bytes) {
    match ImgSrc(html)
    case None => false
    case Some(url) =>
      match PngPayload(url)
      case None => false
      case Some(imageStr) => Decode(imageStr) == Some(bytes)
  }

  /** A tag shows `bytes` as a PNG exactly when it is the `src` tag of the
      PNG data URL of their base64 text. */
  lemma ShowsPngExact(html: string, bytes: Bytes)
    ensures ShowsPng(html, bytes) <==> html == ImgSrcTag(PngDataUrl(Encode(bytes)))
  {
    var u := PngDataUrl(Encode(bytes));
    ImgSrcParsed(html, u);
    DecodeEncode(bytes);
    if ShowsPng(html, bytes) {
      var url := ImgSrc(html).value;
      var imageStr := PngPayload(url).value;
      DecodeIsCanonical(imageStr, bytes);
      PngDataUrlParsed(url, imageStr);
      ImgSrcParsed(html, url);
    }
  }

  /** The `<img>` tag for bytes saved as PNG. */
  function PngTag(bytes: Bytes): (html: string)
    ensures ShowsPng(html, bytes)
  {
    var imageStr := Encode(bytes);
    DecodeEncode(bytes);
    ImgSrcTag(PngDataUrl(imageStr))
  }

  const ImageTypePrefix: string := "obj must be a string, PIL.Image.Image or an numpy.ndarray. Got "

  /** `CustomImage(name, obj)`: a path is embedded through `get_image_url`
      as the text of the `<img>` element; a PIL image, or an array turned
      into one, as a PNG data URL in the `src` of the tag; anything else is
      a `TypeError`. */
  function CustomImage(name: string, obj: Value, files: FileSystem, r: Renderers): (res: Result<CustomObject>)
    ensures res.Ok? <==> (obj.Str? && GetImageUrl(obj.s, files).Ok?) || obj.Image? || obj.Array?
    ensures res.Ok? ==> res.value.ImageObject? && res.value.ObjectType() == "image" && res.value.name == name
    ensures obj.Str? && res.Ok? ==> ImgText(res.value.html) == Some(GetImageUrl(obj.s, files).value)
    ensures obj.Str? && res.Err? ==> res == Err(GetImageUrl(obj.s, files).error)
    ensures obj.Image? ==> ShowsPng(res.value.html, r.pilSavePng(obj.image))
    ensures obj.Array? ==> ShowsPng(res.value.html, r.pilSavePng(r.pilFromArray(obj.nd)))
    ensures !obj.Str? && !obj.Image? && !obj.Array? ==> res == Err(TypeError(ImageTypePrefix + TypeRepr(obj)))
  {
    match obj
    case Str(path) =>
      (match GetImageUrl(path, files)
       case Err(e) => Err(e)
       case Ok(imageUrl) => Ok(ImageObject(name, ImgTextTag(imageUrl))))
    case Image(image) => Ok(ImageObject(name, PngTag(r.pilSavePng(image))))
    case Array(nd) => Ok(ImageObject(name, PngTag(r.pilSavePng(r.pilFromArray(nd)))))
    case _ => Err(TypeError(ImageTypePrefix + TypeRepr(obj)))
  }

  /** An image loaded from a path never shows as a PNG `src`, whatever the
      bytes: the URL is the text of the element. */
  lemma PathImageIsNotShownAsPng(name: string, path: string, files: FileSystem, r: Renderers, bytes: Bytes)
    requires CustomImage(name, Str(path), files, r).Ok?
    ensures !ShowsPng(CustomImage(name, Str(path), files, r).value.html, bytes)
  {
    var url := GetImageUrl(path, files).value;
    ImgTagsDiffer(url, url);
  }

  /** `CustomSection(title, customobjects=None)` of this version: the
      objects list is always a new list. A single custom object becomes its
      one element, a list is copied element by element, and anything else,
      `None` included, leaves it empty. */
  class CustomSection {
    var title: string
    var customobjects: PyList<Value>

    constructor (title: string, customobjects: Value := NoneValue)
      ensures this.title == title && fresh(this.customobjects)
      ensures customobjects.Object? ==> this.customobjects.items == [customobjects]
      ensures customobjects.List? ==> this.customobjects.items == customobjects.list.items
      ensures !customobjects.Object? && !customobjects.List? ==> this.customobjects.items == []
    {
      var objects := new PyList([]);
      if customobjects.Object? {
        objects.Extend([customobjects]);
      } else if customobjects.List? {
        objects.Extend(customobjects.list.items);
      }
      this.title := title;
      this.customobjects := objects;
    }

    /** `add_object(customobject)`: the argument is appended as one element,
        a list included; the section itself is returned. */
    method AddObject(customobject: Value) returns (section: CustomSection)
      modifies customobjects
      ensures section == this && customobjects == old(customobjects)
      ensures customobjects.items == old(customobjects.items) + [customobject]
    {
      customobjects.Append(customobject);
      section := this;
    }
  }

  /** The dictionary stored under `"components"`, if there is one. */
  function ComponentsDict(context: PyDict<Value>): set<object>
    reads context
  {
    if "components" in context.entries && context.entries["components"].Dict? then
      var d: object := context.entries["components"].dict;
      {d}
    else {}
  }

  /** The list stored under `"customsections"` of the components, if
      there is one. */
  function SectionsList(context: PyDict<Value>): set<object>
    reads context, ComponentsDict(context)
  {
    if "components" in context.entries && context.entries["components"].Dict? then
      var d := context.entries["components"].dict;
      if "customsections" in d.entries && d.entries["customsections"].List? then
        var l: object := d.entries["customsections"].list;
        {l}
      else {}
    else {}
  }

  const ListIndexMessage: string := "list indices must be integers or slices, not str"
  const ArrayIndexMessage: string := "only integers, slices (`:`), ellipsis (`...`), numpy.newaxis (`None`) and integer or boolean arrays are valid indices"

  const ItemAssignmentSuffix: string := "' object does not support item assignment"

  /** The exception of `components["has_customsections"] = True` when the
      components are not a dictionary: a list refuses a string index, an
      array raises `IndexError`, and any other type names itself in a
      `TypeError`. */
  function ItemAssignmentError(components: Value): (e: Error)
    ensures e.IndexError? <==> components.Array?
    ensures components.List? ==> e == TypeError(ListIndexMessage)
    ensures components.Array? ==> e == IndexError(ArrayIndexMessage)
    ensures !components.List? && !components.Array? ==>
      e.TypeError? && Between(e.message, "'", ItemAssignmentSuffix) == Some(ShortTypeName(components))
  {
    match components
    case List(_) => TypeError(ListIndexMessage)
    case Array(_) => IndexError(ArrayIndexMessage)
    case _ =>
      BetweenWrapped("'", ShortTypeName(components), ItemAssignmentSuffix);
      TypeError("'" + ShortTypeName(components) + ItemAssignmentSuffix)
  }

  /** The name CPython gives a type in attribute errors: the bare class
      name for a class written in Python, the dotted name of a type
      defined in C such as `numpy.ndarray`. A PIL image gives
      `'Image' object has no attribute ...` from Pillow 10 on. */
  function AttributeTypeName(v: Value): string {
    if v.Array? then "numpy.ndarray" else ShortTypeName(v)
  }

  const AppendSuffix: string := "' object has no attribute 'append'"

  /** The exception of `sections.append(section)` when the stored sections
      are not a list: an `AttributeError` that names the type. */
  function AppendError(sections: Value): (e: Error)
    ensures e.AttributeError? && Between(e.message, "'", AppendSuffix) == Some(AttributeTypeName(sections))
  {
    BetweenWrapped("'", AttributeTypeName(sections), AppendSuffix);
    AttributeError("'" + AttributeTypeName(sections) + AppendSuffix)
  }

  /** `add_section(context, section)`. The flag `has_customsections` is set
      first; the section is then appended to the existing `customsections`
      list in place, or a new one-element list is stored when the key is
      missing. A context without `"components"` fails with `KeyError`, the
      lookup being outside the `try`. On success the same context is
      returned. Only the components dictionary and the sections list can
      change. */
  method AddSection(context: PyDict<Value>, section: CustomSection) returns (res: Result<PyDict<Value>>)
    modifies ComponentsDict(context), SectionsList(context)
    ensures "components" !in old(context.entries) ==> res == Err(KeyError("components"))
    ensures "components" in old(context.entries) && !old(context.entries["components"]).Dict? ==>
      res == Err(ItemAssignmentError(old(context.entries["components"])))
    ensures "components" in old(context.entries) && old(context.entries["components"]).Dict? ==>
      var d := old(context.entries["components"]).dict;
      var flagged := old(d.entries)["has_customsections" := BoolValue(true)];
      if "customsections" !in old(d.entries) then
        res == Ok(context) && "customsections" in d.entries && d.entries["customsections"].List? &&
        fresh(d.entries["customsections"].list) &&
        d.entries["customsections"].list.items == [Section(section)] &&
        d.entries == flagged["customsections" := d.entries["customsections"]]
      else if old(d.entries)["customsections"].List? then
        var l := old(d.entries)["customsections"].list;
        res == Ok(context) && d.entries == flagged && l.items == old(l.items) + [Section(section)]
      else
        res == Err(AppendError(old(d.entries)["customsections"])) && d.entries == flagged
  {
    if "components" !in context.entries {
      return Err(KeyError("components"));
    }
    var components := context.entries["components"];
    if !components.Dict? {
      return Err(ItemAssignmentError(components));
    }
    var d := components.dict;
    d.SetItem("has_customsections", BoolValue(true));
    if "customsections" !in d.entries {
      var sections := new PyList([Section(section)]);
      d.SetItem("customsections", List(sections));
      return Ok(context);
    }
    var sections := d.entries["customsections"];
    if !sections.List? {
      return Err(AppendError(sections));
    }
    sections.list.Append(Section(section));
    return Ok(context);
  }

  /** A section made without objects is empty. */
  method DefaultSectionIsEmpty(title: string) returns (items: seq<Value>)
    ensures items == []
  {
    var section := new CustomSection(title);
    items := section.customobjects.items;
  }

  /** A section made from a list copies it: adding to the section leaves the
      caller's list as it was. */
  method SectionCopiesCallersList(a: CustomObject, b: CustomObject) returns (callers: seq<Value>, sections: seq<Value>)
    ensures callers == [Object(a)]
    ensures sections == [Object(a), Object(b)]
  {
    var list := new PyList([Object(a)]);
    var section := new CustomSection("", List(list));
    section := section.AddObject(Object(b));
    callers := list.items;
    sections := section.customobjects.items;
  }

  /** Chained calls on an empty section: a list is added as one element,
      so its objects are not spliced in. */
  method ChainedAddObjects(a: CustomObject, b: CustomObject, c: CustomObject) returns (items: seq<Value>, list: PyList<Value>)
    ensures items == [Object(a), List(list)] && list.items == [Object(b), Object(c)]
  {
    var section := new CustomSection("");
    section := section.AddObject(Object(a));
    list := new PyList([Object(b), Object(c)]);
    section := section.AddObject(List(list));
    items := section.customobjects.items;
  }

  /** Two calls on a context with empty components flag it and record the
      sections in call order, keeping the other components. */
  method AddSectionsInOrder(s1: CustomSection, s2: CustomSection, other: Value) returns (components: map<string, Value>, sections: seq<Value>)
    ensures components.Keys == {"theme", "has_customsections", "customsections"}
    ensures components["theme"] == other && components["has_customsections"] == BoolValue(true)
    ensures sections == [Section(s1), Section(s2)]
  {
    var d := new PyDict(map["theme" := other]);
    var context := new PyDict(map["components" := Dict(d)]);
    var r1 := AddSection(context, s1);
    var r2 := AddSection(context, s2);
    components := d.entries;
    sections := d.entries["customsections"].list.items;
  }

  /** A context without components is refused and left as it was. */
  method AddSectionNeedsComponents(section: CustomSection, other: Value) returns (res: Result<PyDict<Value>>, entries: map<string, Value>)
    ensures res == Err(KeyError("components"))
    ensures entries == map["theme" := other]
  {
    var context := new PyDict(map["theme" := other]);
    res := AddSection(context, section);
    entries := context.entries;
  }
}
