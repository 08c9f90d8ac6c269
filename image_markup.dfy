/** The strings that both versions of the custom objects build in the same
    way: the MIME table and file extension of `get_image_url`, the two kinds
    of data URL, and the two `<img>` tags. Each builder comes with the
    parser that takes its pieces back out. */
module ImageMarkup {
  import opened Python

  /** The `mime_types` table of `get_image_url`, keyed by extension. */
  const MimeTypes: map<string, string> := map[
    "png" := "image/png",
    "svg" := "image/svg+xml",
    "apng" := "image/apng",
    "avif" := "image/avif",
    "gif" := "image/gif",
    "jpg" := "image/jpeg",
    "jpeg" := "image/jpeg",
    "webp" := "image/webp"
  ]

  /** The table is the eight lower-case extensions; `jpg` and `jpeg` share
      a type. */
  lemma MimeTable()
    ensures MimeTypes.Keys == {"png", "svg", "apng", "avif", "gif", "jpg", "jpeg", "webp"}
    ensures MimeTypes["png"] == "image/png"
    ensures MimeTypes["jpg"] == MimeTypes["jpeg"] == "image/jpeg"
    ensures "PNG" !in MimeTypes && "JPG" !in MimeTypes
  {
  }

  /** No MIME type of the table contains `:` or `;`. */
  lemma MimeTypeIsPlain(ext: string)
    requires ext in MimeTypes
    ensures ':' !in MimeTypes[ext] && ';' !in MimeTypes[ext]
  {
  }

  /** `path.split(".")[-1]`: the text after the last `.` of the path, or the
      whole path when it has no `.`. */
  function Extension(path: string): (ext: string)
    ensures |ext| <= |path| && ext == path[|path| - |ext|..]
    ensures '.' !in ext
    ensures |ext| < |path| ==> path[|path| - |ext| - 1] == '.'
    ensures ext == path <==> '.' !in path
  {
    var parts := Split(path, '.');
    LastPieceFollowsLastSeparator(path, '.');
    var ext := parts[|parts| - 1];
    ext
  }

  /** The extension of `stem + "." + ext` is `ext` whenever `ext` has no `.`. */
  lemma ExtensionAfterDot(stem: string, ext: string)
    requires '.' !in ext
    ensures Extension(stem + "." + ext) == ext
  {
    var path := stem + "." + ext;
    var e := Extension(path);
    assert path[|stem|] == '.';
    assert e == path[|stem| + 1..];
    assert path[|stem| + 1..] == ext;
  }

  /** `s` when the string starts with `open` and ends with `close` (not
      overlapping), the text between them. */
  function Between(s: string, open: string, close: string): Option<string> {
    if |s| >= |open| + |close| && s[..|open|] == open && s[|s| - |close|..] == close
    then Some(s[|open|..|s| - |close|])
    else None
  }

  lemma BetweenWrapped(open: string, mid: string, close: string)
    ensures Between(open + mid + close, open, close) == Some(mid)
  {
    var s := open + mid + close;
    assert s[..|open|] == open;
    assert s[|s| - |close|..] == close;
    assert s[|open|..|s| - |close|] == mid;
  }

  /** A string with a text between `open` and `close` is built from them. */
  lemma BetweenUnwrapped(s: string, open: string, close: string)
    requires Between(s, open, close).Some?
    ensures s == open + Between(s, open, close).value + close
  {
    var mid := Between(s, open, close).value;
    assert s == s[..|open|] + s[|open|..|s| - |close|] + s[|s| - |close|..];
  }

  /** The start of a PNG data URL, in the form of section 3 of RFC 2397. */
  const PngUrlPrefix: string := "data:image/png;base64,"

  /** The payload of a PNG data URL. */
  function PngPayload(url: string): Option<string> {
    Between(url, PngUrlPrefix, "")
  }

  /** `f"data:image/png;base64,{image_str}"` */
  function PngDataUrl(imageStr: string): (url: string)
    ensures PngPayload(url) == Some(imageStr)
  {
    BetweenWrapped(PngUrlPrefix, imageStr, "");
    assert PngUrlPrefix + imageStr + "" == PngUrlPrefix + imageStr;
    PngUrlPrefix + imageStr
  }

  /** A URL has the PNG payload `p` exactly when it is the PNG data URL of `p`. */
  lemma PngDataUrlParsed(url: string, p: string)
    ensures PngPayload(url) == Some(p) <==> url == PngDataUrl(p)
  {
    if PngPayload(url) == Some(p) {
      BetweenUnwrapped(url, PngUrlPrefix, "");
      assert url == PngUrlPrefix + p + "";
      assert PngUrlPrefix + p + "" == PngUrlPrefix + p;
    }
  }

  /** The index of the first `c` in `s`, or `|s|` when there is none. */
  function IndexOf(s: string, c: char): (i: nat)
    ensures i <= |s| && c !in s[..i]
    ensures i < |s| ==> s[i] == c
    decreases |s|
  {
    if |s| == 0 || s[0] == c then 0
    else
      var i := 1 + IndexOf(s[1..], c);
      assert s[..i] == [s[0]] + s[1..][..i - 1];
      i
  }

  /** `f"data:{mime}:base64,{image_str}"`: the URL that `get_image_url`
      builds, with a `:` where RFC 2397 has `;` before `base64`. */
  function PathDataUrl(mime: string, imageStr: string): (url: string)
    ensures |url| == 13 + |mime| + |imageStr|
    ensures url[..5] == "data:" && url[5..5 + |mime|] == mime
    ensures url[5 + |mime|..13 + |mime|] == ":base64," && url[13 + |mime|..] == imageStr
  {
    "data:" + mime + ":base64," + imageStr
  }

  /** The MIME type and the payload of a URL of the `PathDataUrl` form: the
      MIME type ends at the first `:` after `data:`. */
  function PathDataUrlParts(url: string): Option<(string, string)> {
    if |url| < 5 || url[..5] != "data:" then None
    else
      var rest := url[5..];
      var i := IndexOf(rest, ':');
      var tail := rest[i..];
      if |tail| >= 8 && tail[..8] == ":base64," then Some((rest[..i], tail[8..])) else None
  }

  /** A path data URL gives back its MIME type and payload. */
  lemma PathDataUrlRoundTrip(mime: string, imageStr: string)
    requires ':' !in mime
    ensures PathDataUrlParts(PathDataUrl(mime, imageStr)) == Some((mime, imageStr))
  {
    var url := PathDataUrl(mime, imageStr);
    var rest := url[5..];
    assert url[..5] == "data:";
    assert rest == mime + ":base64," + imageStr;
    var i := IndexOf(rest, ':');
    assert rest[|mime|] == ':';
    assert rest[..i] == mime;
    assert rest[i..][..8] == ":base64,";
    assert rest[i..][8..] == imageStr;
  }

  /** A URL parses into a MIME type and a payload exactly when it is built
      from them and the MIME type has no `:`. */
  lemma PathDataUrlParsed(url: string, mime: string, imageStr: string)
    ensures PathDataUrlParts(url) == Some((mime, imageStr)) <==>
      ':' !in mime && url == PathDataUrl(mime, imageStr)
  {
    if PathDataUrlParts(url) == Some((mime, imageStr)) {
      var rest := url[5..];
      var i := IndexOf(rest, ':');
      var tail := rest[i..];
      assert mime == rest[..i];
      assert tail == tail[..8] + tail[8..];
      assert rest == rest[..i] + tail;
      assert url == url[..5] + rest;
    }
    if ':' !in mime && url == PathDataUrl(mime, imageStr) {
      PathDataUrlRoundTrip(mime, imageStr);
    }
  }

  /** A path data URL is never a PNG data URL, whatever the MIME type, as
      long as it has no `;`: the `;base64,` form of RFC 2397 is not met. */
  lemma PathDataUrlIsNotPngDataUrl(mime: string, imageStr: string)
    requires ';' !in mime
    ensures PngPayload(PathDataUrl(mime, imageStr)) == None
  {
    var url := PathDataUrl(mime, imageStr);
    if |mime| >= 10 {
      assert url[14] == mime[9];
      assert url[..22][14] != PngUrlPrefix[14];
    } else if |url| >= 22 {
      assert url[5 + |mime|] == ':';
      assert url[..22][5 + |mime|] != PngUrlPrefix[5 + |mime|];
    }
  }

  const ImgSrcOpen: string := "<img class=\"custom-image\" src=\""
  const ImgSrcClose: string := "\" />"

  /** The URL inside an `<img ... src="..." />` tag. */
  function ImgSrc(html: string): Option<string> {
    Between(html, ImgSrcOpen, ImgSrcClose)
  }

  /** `f'<img class="custom-image" src="{image_url}" />'` */
  function ImgSrcTag(url: string): (html: string)
    ensures ImgSrc(html) == Some(url)
  {
    BetweenWrapped(ImgSrcOpen, url, ImgSrcClose);
    ImgSrcOpen + url + ImgSrcClose
  }

  /** A tag has the `src` `u` exactly when it is the `src` tag of `u`. */
  lemma ImgSrcParsed(html: string, u: string)
    ensures ImgSrc(html) == Some(u) <==> html == ImgSrcTag(u)
  {
    if ImgSrc(html) == Some(u) {
      BetweenUnwrapped(html, ImgSrcOpen, ImgSrcClose);
    }
  }

  const ImgTextOpen: string := "<img class=\"custom-image\">"
  const ImgTextClose: string := "</img>"

  /** The text between `<img class="custom-image">` and `</img>`. */
  function ImgText(html: string): Option<string> {
    Between(html, ImgTextOpen, ImgTextClose)
  }

  /** `'<img class="custom-image">' + image_url + '</img>'`: the URL is the
      element's text, not its `src` attribute. */
  function ImgTextTag(url: string): (html: string)
    ensures ImgText(html) == Some(url)
  {
    BetweenWrapped(ImgTextOpen, url, ImgTextClose);
    ImgTextOpen + url + ImgTextClose
  }

  /** A tag has the text `u` exactly when it is the text tag of `u`. */
  lemma ImgTextParsed(html: string, u: string)
    ensures ImgText(html) == Some(u) <==> html == ImgTextTag(u)
  {
    if ImgText(html) == Some(u) {
      BetweenUnwrapped(html, ImgTextOpen, ImgTextClose);
    }
  }

  /** The two tags never coincide: after `<img class="custom-image"` one
      closes the start tag and the other goes on with a `src` attribute. */
  lemma ImgTagsDiffer(u: string, v: string)
    ensures ImgTextTag(u) != ImgSrcTag(v)
    ensures ImgSrc(ImgTextTag(u)) == None
  {
    assert ImgTextTag(u)[25] == '>';
    assert ImgSrcTag(v)[25] == ' ';
    var h := ImgTextTag(u);
    if |h| >= |ImgSrcOpen| + |ImgSrcClose| {
      assert h[..|ImgSrcOpen|][25] != ImgSrcOpen[25];
    }
  }
}
