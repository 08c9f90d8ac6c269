/** The custom objects of `dataprep/custom/custom_objects.py`: wrappers that
    turn a figure, an image, a table or a piece of HTML into the `html`
    string a report embeds, and the `CustomSection` that collects them. */
module CustomObjects {
  import opened Python
  import opened Base64
  import opened External
  import opened ImageMarkup

  /** An instance of one of the `CustomObject` subclasses, with the
      attributes its `__init__` sets. */
  datatype CustomObject =
    | PlotlyObject(name: string, figure: PlotlyFigure, html: string)
    | HtmlObject(name: string, html: string)
    | MarkdownObject(name: string, html: string)
    | DataPrepObject(name: string, html: string)
    | MatplotlibObject(name: string, imageStr: string, imageUrl: string, html: string)
    | ImageObject(name: string, imageStr: string, imageUrl: string, html: string)
    | TableObject(name: string, html: string)
  {
    /** The `object_type` attribute: one constant per class, which no
        other class shares. */
    function ObjectType(): (t: string)
      ensures t == "plotly" <==> PlotlyObject?
      ensures t == "html" <==> HtmlObject?
      ensures t == "markdown" <==> MarkdownObject?
      ensures t == "dataprep" <==> DataPrepObject?
      ensures t == "matplotlib" <==> MatplotlibObject?
      ensures t == "image" <==> ImageObject?
      ensures t == "table" <==> TableObject?
    {
      match this
      case PlotlyObject(_, _, _) => "plotly"
      case HtmlObject(_, _) => "html"
      case MarkdownObject(_, _) => "markdown"
      case DataPrepObject(_, _) => "dataprep"
      case MatplotlibObject(_, _, _, _) => "matplotlib"
      case ImageObject(_, _, _, _) => "image"
      case TableObject(_, _) => "table"
    }

    function ClassName(): string {
      match this
      case PlotlyObject(_, _, _) => "CustomPlotly"
      case HtmlObject(_, _) => "CustomHTML"
      case MarkdownObject(_, _) => "CustomMarkdown"
      case DataPrepObject(_, _) => "CustomDataPrep"
      case MatplotlibObject(_, _, _, _) => "CustomMatplotlib"
      case ImageObject(_, _, _, _) => "CustomImage"
      case TableObject(_, _) => "CustomTable"
    }
  }

  /** The Python values that the constructors and `CustomSection` are given. */
  datatype Value =
    | NoneValue
    | Str(s: string)
    | Image(image: PilImage)
    | Array(nd: NdArray)
    | Frame(frame: DataFrame)
    | Object(obj: CustomObject)
    | List(list: PyList<Value>)
    | Other(typeName: string)

  /** The qualified name of `type(v)`. */
  function TypeName(v: Value): string {
    match v
    case NoneValue => "NoneType"
    case Str(_) => "str"
    case Image(_) => "PIL.Image.Image"
    case Array(_) => "numpy.ndarray"
    case Frame(_) => "pandas.core.frame.DataFrame"
    case Object(o) => "dataprep.custom.custom_objects." + o.ClassName()
    case List(_) => "list"
    case Other(t) => t
  }

  const ClassReprOpen: string := "<class '"
  const ClassReprClose: string := "'>"

  /** `f"{type(v)}"`: the qualified name of the type, quoted inside
      `<class ...>`. */
  function TypeRepr(v: Value): (r: string)
    ensures Between(r, ClassReprOpen, ClassReprClose) == Some(TypeName(v))
  {
    BetweenWrapped(ClassReprOpen, TypeName(v), ClassReprClose);
    ClassReprOpen + TypeName(v) + ClassReprClose
  }

  /** The object type names the class: two objects have the same
      `object_type` exactly when they are of the same class. */
  lemma ObjectTypeNamesClass(a: CustomObject, b: CustomObject)
    ensures a.ObjectType() == b.ObjectType() <==> a.ClassName() == b.ClassName()
  {
  }

  /** `CustomPlotly(name, obj, *args, **kwargs)` */
  function CustomPlotly(name: string, obj: PlotlyFigure, args: seq<Arg>, kwargs: Kwargs, r: Renderers): (o: CustomObject)
    ensures o.PlotlyObject? && o.ObjectType() == "plotly"
    ensures o.name == name && o.figure == obj && o.html == r.plotlyToHtml(obj, args, kwargs)
  {
    PlotlyObject(name, obj, r.plotlyToHtml(obj, args, kwargs))
  }

  /** `CustomHTML(name, obj)`: the HTML is kept as given. */
  function CustomHTML(name: string, obj: string): (o: CustomObject)
    ensures o.HtmlObject? && o.ObjectType() == "html"
    ensures o.name == name && o.html == obj
  {
    HtmlObject(name, obj)
  }

  /** `CustomMarkdown(name, text)` */
  function CustomMarkdown(name: string, text: string, r: Renderers): (o: CustomObject)
    ensures o.MarkdownObject? && o.ObjectType() == "markdown"
    ensures o.name == name && o.html == r.markdownConvert(text)
  {
    MarkdownObject(name, r.markdownConvert(text))
  }

  /** `CustomDataPrep(name, obj)` */
  function CustomDataPrep(name: string, obj: Container, r: Renderers): (o: CustomObject)
    ensures o.DataPrepObject? && o.ObjectType() == "dataprep"
    ensures o.name == name && o.html == r.containerReprHtml(obj)
  {
    DataPrepObject(name, r.containerReprHtml(obj))
  }

  /** The attributes of an image embedded as PNG: `imageStr` is the base64
      text of `bytes`, `imageUrl` the PNG data URL of it and `html` an
      `<img>` tag whose `src` is that URL. */
  predicate EmbedsPng(imageStr: string, imageUrl: string, html: string, bytes: Bytes) {
    Decode(imageStr) == Some(bytes) && PngPayload(imageUrl) == Some(imageStr) && ImgSrc(html) == Some(imageUrl)
  }

  /** The attributes of an image embedded as PNG are exactly the base64
      text of the bytes, the PNG data URL of that text and the `src` tag of
      that URL: `Decode` accepts only the canonical encoding. */
  lemma EmbedsPngExact(imageStr: string, imageUrl: string, html: string, bytes: Bytes)
    ensures EmbedsPng(imageStr, imageUrl, html, bytes) <==>
      imageStr == Encode(bytes) && imageUrl == PngDataUrl(imageStr) && html == ImgSrcTag(imageUrl)
  {
    DecodeIsCanonical(imageStr, bytes);
    PngDataUrlParsed(imageUrl, imageStr);
    ImgSrcParsed(html, imageUrl);
  }

  /** `image_str`, `image_url` and `html` computed from the bytes written
      into the buffer. */
  function PngAttributes(bytes: Bytes): (a: (string, string, string))
    ensures EmbedsPng(a.0, a.1, a.2, bytes)
  {
    var imageStr := Encode(bytes);
    DecodeEncode(bytes);
    var imageUrl := PngDataUrl(imageStr);
    (imageStr, imageUrl, ImgSrcTag(imageUrl))
  }

  /** `CustomMatplotlib(name, obj, *args, **kwargs)`: the bytes that
      `savefig` writes, embedded as a PNG data URL. */
  function CustomMatplotlib(name: string, obj: MplFigure, args: seq<Arg>, kwargs: Kwargs, r: Renderers): (o: CustomObject)
    ensures o.MatplotlibObject? && o.ObjectType() == "matplotlib" && o.name == name
    ensures EmbedsPng(o.imageStr, o.imageUrl, o.html, r.mplSavefig(obj, args, kwargs))
  {
    var a := PngAttributes(r.mplSavefig(obj, args, kwargs));
    MatplotlibObject(name, a.0, a.1, a.2)
  }

  /** `get_image_url(path)`: the file is read first, so a missing file
      fails before an unknown extension; the extension is looked up as it
      is, without folding case. On success the URL carries the MIME type of
      the extension and the base64 text of the file, which is returned too. */
  function GetImageUrl(path: string, files: FileSystem): (res: Result<(string, string)>)
    ensures path !in files ==> res == Err(FileNotFoundError(path))
    ensures path in files && Extension(path) !in MimeTypes ==> res == Err(KeyError(Extension(path)))
    ensures res.Ok? <==> path in files && Extension(path) in MimeTypes
    ensures res.Ok? ==>
      PathDataUrlParts(res.value.0) == Some((MimeTypes[Extension(path)], res.value.1)) &&
      Decode(res.value.1) == Some(files[path]) && res.value.1 == Encode(files[path])
  {
    var fileType := Extension(path);
    if path !in files then Err(FileNotFoundError(path))
    else
      var imageStr := Encode(files[path]);
      if fileType !in MimeTypes then Err(KeyError(fileType))
      else
        MimeTypeIsPlain(fileType);
        PathDataUrlRoundTrip(MimeTypes[fileType], imageStr);
        DecodeEncode(files[path]);
        Ok((PathDataUrl(MimeTypes[fileType], imageStr), imageStr))
  }

  /** An upper-case extension is not in the table. */
  lemma UpperCaseExtensionFails(stem: string, files: FileSystem)
    requires stem + ".PNG" in files
    ensures GetImageUrl(stem + ".PNG", files) == Err(KeyError("PNG"))
  {
    var path := stem + ".PNG";
    assert path == stem + "." + "PNG";
    ExtensionAfterDot(stem, "PNG");
    assert Extension(path) == "PNG";
    MimeTable();
    assert Extension(path) !in MimeTypes;
  }

  /** `.jpg` and `.jpeg` files get the same MIME type, `image/jpeg`. */
  lemma JpgAndJpegAgree(stem: string, files: FileSystem)
    requires stem + ".jpg" in files && stem + ".jpeg" in files
    requires files[stem + ".jpg"] == files[stem + ".jpeg"]
    ensures GetImageUrl(stem + ".jpg", files) == GetImageUrl(stem + ".jpeg", files)
    ensures var imageStr := Encode(files[stem + ".jpg"]);
      GetImageUrl(stem + ".jpg", files) == Ok((PathDataUrl("image/jpeg", imageStr), imageStr))
  {
    assert stem + ".jpg" == stem + "." + "jpg";
    assert stem + ".jpeg" == stem + "." + "jpeg";
    ExtensionAfterDot(stem, "jpg");
    ExtensionAfterDot(stem, "jpeg");
    MimeTable();
  }

  const ImageTypePrefix: string := "obj must be a string, PIL.Image.Image or an numpy.ndarray. Got "

  /** The message of the `TypeError` of `CustomImage`. */
  function ImageTypeMessage(obj: Value): string {
    ImageTypePrefix + TypeRepr(obj)
  }

  /** `CustomImage(name, obj)`: a path is embedded through `get_image_url`
      as the text of the `<img>` element; a PIL image, or an array turned
      into one, is saved as PNG and embedded as the `src` of the tag; any
      other value is a `TypeError`. */
  function CustomImage(name: string, obj: Value, files: FileSystem, r: Renderers): (res: Result<CustomObject>)
    ensures res.Ok? <==> (obj.Str? && GetImageUrl(obj.s, files).Ok?) || obj.Image? || obj.Array?
    ensures res.Ok? ==> res.value.ImageObject? && res.value.ObjectType() == "image" && res.value.name == name
    ensures obj.Str? && res.Ok? ==>
      GetImageUrl(obj.s, files) == Ok((res.value.imageUrl, res.value.imageStr)) &&
      ImgText(res.value.html) == Some(res.value.imageUrl)
    ensures obj.Str? && res.Err? ==> res == Err(GetImageUrl(obj.s, files).error)
    ensures obj.Image? ==>
      EmbedsPng(res.value.imageStr, res.value.imageUrl, res.value.html, r.pilSavePng(obj.image))
    ensures obj.Array? ==>
      EmbedsPng(res.value.imageStr, res.value.imageUrl, res.value.html, r.pilSavePng(r.pilFromArray(obj.nd)))
    ensures !obj.Str? && !obj.Image? && !obj.Array? ==> res == Err(TypeError(ImageTypeMessage(obj)))
  {
    match obj
    case Str(path) =>
      (match GetImageUrl(path, files)
       case Err(e) => Err(e)
       case Ok((imageUrl, imageStr)) => Ok(ImageObject(name, imageStr, imageUrl, ImgTextTag(imageUrl))))
    case Image(image) =>
      var a := PngAttributes(r.pilSavePng(image));
      Ok(ImageObject(name, a.0, a.1, a.2))
    case Array(nd) =>
      var a := PngAttributes(r.pilSavePng(r.pilFromArray(nd)));
      Ok(ImageObject(name, a.0, a.1, a.2))
    case _ => Err(TypeError(ImageTypeMessage(obj)))
  }

  /** An array is embedded exactly as the image `PIL.Image.fromarray` makes
      of it. */
  lemma ArrayImageIsConvertedImage(name: string, nd: NdArray, files: FileSystem, r: Renderers)
    ensures CustomImage(name, Array(nd), files, r) == CustomImage(name, Image(r.pilFromArray(nd)), files, r)
  {
  }

  /** An image loaded from a path has no `src` attribute, and its URL is not
      a PNG data URL in the RFC 2397 form, not even for a `.png` file. */
  lemma PathImageHasNoSrc(name: string, path: string, files: FileSystem, r: Renderers)
    requires CustomImage(name, Str(path), files, r).Ok?
    ensures ImgSrc(CustomImage(name, Str(path), files, r).value.html) == None
    ensures PngPayload(CustomImage(name, Str(path), files, r).value.imageUrl) == None
  {
    var o := CustomImage(name, Str(path), files, r).value;
    var ext := Extension(path);
    MimeTypeIsPlain(ext);
    ImgTagsDiffer(o.imageUrl, o.imageUrl);
    PathDataUrlIsNotPngDataUrl(MimeTypes[ext], o.imageStr);
  }

  /** A `.png` file and a PIL image whose PNG bytes are the file's get the
      same `image_str` but different URLs and tags. */
  lemma PathAndImageShareThePayload(name: string, stem: string, files: FileSystem, image: PilImage, r: Renderers)
    requires stem + ".png" in files && files[stem + ".png"] == r.pilSavePng(image)
    ensures var p := CustomImage(name, Str(stem + ".png"), files, r);
      var q := CustomImage(name, Image(image), files, r);
      p.Ok? && q.Ok? && p.value.imageStr == q.value.imageStr &&
      p.value.imageUrl != q.value.imageUrl && p.value.html != q.value.html
  {
    var path := stem + ".png";
    assert path == stem + "." + "png";
    ExtensionAfterDot(stem, "png");
    MimeTable();
    assert GetImageUrl(path, files).Ok?;
    var p := CustomImage(name, Str(path), files, r).value;
    var q := CustomImage(name, Image(image), files, r).value;
    EncodeInjective(files[path], r.pilSavePng(image));
    assert Decode(p.imageStr) == Some(files[path]) && Decode(q.imageStr) == Some(files[path]);
    DecodeEncode(files[path]);
    PathImageHasNoSrc(name, path, files, r);
    ImgTagsDiffer(p.imageUrl, q.imageUrl);
  }

  /** `kwargs` after `kwargs.pop("buf", None)`: every other keyword argument
      is handed on unchanged. */
  function WithoutBuf(kwargs: Kwargs): (k: Kwargs)
    ensures "buf" !in k
    ensures forall key :: key != "buf" ==> (key in k <==> key in kwargs)
    ensures forall key :: key in k ==> k[key] == kwargs[key]
  {
    kwargs - {"buf"}
  }

  const DimensionPrefix: string := "numpy.ndarray must not have more than 2 dimensions. Got "

  /** The message of the `ValueError` of `CustomTable`. */
  function DimensionMessage(ndim: nat): string {
    DimensionPrefix + NatToString(ndim)
  }

  const TableTypePrefix: string := "`obj` must be a pandas.DataFrame or a numpy.ndarray. Got "

  /** The message of the `TypeError` of `CustomTable`. */
  function TableTypeMessage(obj: Value): string {
    TableTypePrefix + TypeRepr(obj)
  }

  /** `CustomTable(name, obj, **kwargs)`: a data frame, or an array of at
      most two dimensions made into one, rendered with the keyword arguments
      other than `buf`. */
  function CustomTable(name: string, obj: Value, kwargs: Kwargs, r: Renderers): (res: Result<CustomObject>)
    ensures res.Ok? <==> obj.Frame? || (obj.Array? && obj.nd.ndim <= 2)
    ensures res.Ok? ==> res.value.TableObject? && res.value.ObjectType() == "table" && res.value.name == name
    ensures obj.Frame? ==> res.value.html == r.frameToHtml(obj.frame, WithoutBuf(kwargs))
    ensures obj.Array? && obj.nd.ndim > 2 ==> res == Err(ValueError(DimensionMessage(obj.nd.ndim)))
    ensures !obj.Frame? && !obj.Array? ==> res == Err(TypeError(TableTypeMessage(obj)))
  {
    var kwargs := WithoutBuf(kwargs);
    match obj
    case Frame(frame) => Ok(TableObject(name, r.frameToHtml(frame, kwargs)))
    case Array(nd) =>
      if nd.ndim > 2 then Err(ValueError(DimensionMessage(nd.ndim)))
      else Ok(TableObject(name, r.frameToHtml(r.frameOfArray(nd), kwargs)))
    case _ => Err(TypeError(TableTypeMessage(obj)))
  }

  /** An array of at most two dimensions is rendered exactly as
      `DataFrame(array)`. */
  lemma ArrayTableIsFrameTable(name: string, nd: NdArray, kwargs: Kwargs, r: Renderers)
    requires nd.ndim <= 2
    ensures CustomTable(name, Array(nd), kwargs, r) == CustomTable(name, Frame(r.frameOfArray(nd)), kwargs, r)
  {
  }

  /** A `buf` keyword argument makes no difference. */
  lemma CustomTableIgnoresBuf(name: string, obj: Value, kwargs: Kwargs, buf: Arg, r: Renderers)
    ensures CustomTable(name, obj, kwargs["buf" := buf], r) == CustomTable(name, obj, kwargs, r)
  {
    assert WithoutBuf(kwargs["buf" := buf]) == WithoutBuf(kwargs);
  }

  /** The constructor of `CustomTable` as it runs: `**kwargs` is a new
      dictionary of the call's own, from which `buf` is popped before the
      dispatch on the type of `obj`. */
  method NewCustomTable(name: string, obj: Value, keywords: Kwargs, r: Renderers) returns (res: Result<CustomObject>)
    ensures res == CustomTable(name, obj, keywords, r)
  {
    var kwargs := new PyDict(keywords);
    var _ := kwargs.Pop("buf", NoneArg);
    if obj.Frame? {
      res := Ok(TableObject(name, r.frameToHtml(obj.frame, kwargs.entries)));
    } else if obj.Array? {
      if obj.nd.ndim > 2 {
        res := Err(ValueError(DimensionMessage(obj.nd.ndim)));
      } else {
        res := Ok(TableObject(name, r.frameToHtml(r.frameOfArray(obj.nd), kwargs.entries)));
      }
    } else {
      res := Err(TypeError(TableTypeMessage(obj)));
    }
  }

  /** The keyword arguments that `convert_mplfigure_to_array` hands to
      `savefig`: `dpi` is the figure's own unless the caller gave one; every
      other argument is kept. */
  function SavefigKwargs(figureDpi: real, kwargs: Kwargs): (k: Kwargs)
    ensures "dpi" in k && k["dpi"] == if "dpi" in kwargs then kwargs["dpi"] else FloatArg(figureDpi)
    ensures forall key :: key != "dpi" ==> (key in k <==> key in kwargs)
    ensures forall key :: key in kwargs && key != "dpi" ==> k[key] == kwargs[key]
  {
    if "dpi" !in kwargs then kwargs["dpi" := FloatArg(figureDpi)] else kwargs
  }

  /** Filling in the default twice changes nothing: the first `dpi` stays. */
  lemma SavefigKwargsIdempotent(dpi1: real, dpi2: real, kwargs: Kwargs)
    ensures SavefigKwargs(dpi2, SavefigKwargs(dpi1, kwargs)) == SavefigKwargs(dpi1, kwargs)
  {
  }

  /** The `TypeError` that CPython 3.9 and later raise when `format` is
      given twice: the bound method is named by its module and qualified
      name. */
  const DuplicateFormatMessage: string := "matplotlib.figure.Figure.savefig() got multiple values for keyword argument 'format'"

  /** `convert_mplfigure_to_array(fig, **kwargs)` up to the final reshape:
      the raw RGBA bytes that `savefig(buffer, format="raw", **kwargs)`
      writes once `dpi` has its default in the call's own keyword
      dictionary. A caller's own `format` collides with the explicit one. */
  method ConvertMplfigureToArray(fig: MplFigure, keywords: Kwargs, r: Renderers) returns (res: Result<Bytes>)
    ensures "format" in keywords ==> res == Err(TypeError(DuplicateFormatMessage))
    ensures "format" !in keywords ==>
      res == Ok(r.mplSavefig(fig, [], SavefigKwargs(fig.dpi, keywords)["format" := StrArg("raw")]))
  {
    var kwargs := new PyDict(keywords);
    if "dpi" !in kwargs.entries {
      kwargs.SetItem("dpi", FloatArg(fig.dpi));
    }
    if "format" in kwargs.entries {
      res := Err(TypeError(DuplicateFormatMessage));
    } else {
      res := Ok(r.mplSavefig(fig, [], kwargs.entries["format" := StrArg("raw")]));
    }
  }

  /** `CustomSection(title, customobjects=None)`. The objects list is the
      caller's own list when one is given, so later changes through either
      name are seen by both; any other argument, `None` included, becomes
      the one element of a new list. */
  class CustomSection {
    var title: string
    var customobjects: PyList<Value>

    constructor (title: string, customobjects: Value := NoneValue)
      ensures this.title == title
      ensures customobjects.List? ==> this.customobjects == customobjects.list
      ensures !customobjects.List? ==> fresh(this.customobjects) && this.customobjects.items == [customobjects]
    {
      this.title := title;
      if customobjects.List? {
        this.customobjects := customobjects.list;
      } else {
        this.customobjects := new PyList([customobjects]);
      }
    }

    /** `add_object(customobject)`: a list is added element by element with
        `+=`, anything else is appended; the earlier objects stay in front,
        and the section itself is returned. */
    method AddObject(customobject: Value) returns (section: CustomSection)
      modifies customobjects
      ensures section == this && customobjects == old(customobjects)
      ensures customobject.List? ==> customobjects.items == old(customobjects.items) + old(customobject.list.items)
      ensures !customobject.List? ==> customobjects.items == old(customobjects.items) + [customobject]
    {
      if customobject.List? {
        customobjects.Extend(customobject.list.items);
      } else {
        customobjects.Append(customobject);
      }
      section := this;
    }
  }

  /** A section made without objects holds `[None]`, not `[]`. */
  method DefaultSectionHoldsNone(title: string) returns (items: seq<Value>)
    ensures items == [NoneValue]
  {
    var section := new CustomSection(title);
    items := section.customobjects.items;
  }

  /** Objects added to a section made from a list show up in the caller's
      list, which is the section's list. */
  method SectionSharesCallersList(a: CustomObject, b: CustomObject) returns (callers: seq<Value>, sections: seq<Value>)
    ensures callers == sections == [Object(a), Object(b)]
  {
    var list := new PyList([Object(a)]);
    var section := new CustomSection("", List(list));
    section := section.AddObject(Object(b));
    callers := list.items;
    sections := section.customobjects.items;
  }

  /** Adding a list adds its elements in order, after the earlier ones. */
  method AddObjectFlattensList(a: CustomObject, b: CustomObject, c: CustomObject) returns (items: seq<Value>)
    ensures items == [Object(a), Object(b), Object(c)]
  {
    var section := new CustomSection("", Object(a));
    var list := new PyList([Object(b), Object(c)]);
    section := section.AddObject(List(list));
    items := section.customobjects.items;
  }

  /** Chained calls on a section made without objects: the `None` it
      starts with stays in front of the added objects. */
  method ChainedAddObjects(a: CustomObject, b: CustomObject, c: CustomObject) returns (items: seq<Value>)
    ensures items == [NoneValue, Object(a), Object(b), Object(c)]
  {
    var section := new CustomSection("");
    section := section.AddObject(Object(a));
    var list := new PyList([Object(b), Object(c)]);
    section := section.AddObject(List(list));
    items := section.customobjects.items;
  }

  /** Adding a section's own list to it doubles the list. */
  method AddOwnListDoubles(a: CustomObject, b: CustomObject) returns (items: seq<Value>)
    ensures items == [Object(a), Object(b), Object(a), Object(b)]
  {
    var list := new PyList([Object(a), Object(b)]);
    var section := new CustomSection("", List(list));
    section := section.AddObject(List(list));
    items := list.items;
  }
}
