# dataprep custom report objects, modelled in Dafny

dataprep's `create_report` can be given user content to embed in a report.
The content is wrapped in *custom objects*, each holding a `name`, an
`object_type` tag and the `html` that the report template inserts. The
objects are grouped into *sections*. The repository has two versions of
this code, and they behave differently:

- `dataprep/custom/custom_objects.py` has wrappers for plotly figures, raw
  HTML, Markdown, dataprep containers, matplotlib figures, images and tables.
  Its `CustomSection` keeps the caller's list itself. Its `add_object`
  splices a list in and appends anything else.
- `dataprep/eda/create_report/custom.py` has wrappers for plotly figures, raw
  HTML and images. Its `CustomSection` always starts from a new list, and
  `add_object` appends whatever it is given as one element. It also has
  `add_section`, which records a section in a report context dictionary in
  place.

Each version is its own module:

- **`CustomObjects`** (`custom_objects.dfy`) models `custom_objects.py`.
- **`CreateReportCustom`** (`create_report_custom.dfy`) models `custom.py`.

Both rest on these shared modules:

- **`Python`** (`python.dfy`) models the runtime pieces the code relies on:
  - exceptions, as `Result`;
  - `list` and `dict` as classes with identity, so that aliasing and
    in-place updates are visible;
  - `str.split` with its inverse `join`;
  - `str(int)`.
- **`Base64`** (`base64.dfy`) is the encoder of section 4 of RFC 4648 behind
  `base64.b64encode(...).decode()`. A decoder comes with it that accepts
  only the canonical encoding (section 3.5 of RFC 4648). The round trip is
  proved in both directions: a text decodes to some bytes exactly when it is
  their encoding.
- **`External`** (`external.dfy`) holds opaque handles for the third-party
  objects. The renderers (plotly, matplotlib, PIL, pandas, markdown and the
  dataprep container) are total functions collected in a `Renderers` record.
  The file system is a map from path to bytes.
- **`ImageMarkup`** (`image_markup.dfy`) holds the strings the two files
  build identically:
  - the MIME table;
  - the file extension;
  - the two data-URL forms;
  - the two `<img>` tags.

  Each builder comes with a parser. One lemma per pair proves that a string
  parses into some pieces exactly when the builder makes it from them.
- **`Versions`** (`versions.dfy`) states where the two versions agree.

Immutable Python objects are datatypes, and the wrapper constructors are
functions. The ones that can raise (`CustomImage`, `CustomTable` and
`get_image_url`) return a `Result`: a `TypeError`, `ValueError`, `KeyError`
or `FileNotFoundError` is an `Err` that carries the key, the path or the
message of the exception. The others (`CustomPlotly`, `CustomHTML`,
`CustomMarkdown`, `CustomDataPrep` and `CustomMatplotlib`) return the
object itself. The
section and the context dictionary change in place, so each is a class:

- `CustomSection` is a class with a `title` and a `customobjects` field
  holding a `PyList`.
- `add_section` is a method that modifies only the components dictionary and
  the sections list.

Behaviour of the code that a reader of its docstrings might not expect:

- The path case of `get_image_url`, in both files, builds
  `data:<mime>:base64,<payload>` with a colon. The PNG cases build
  `data:image/png;base64,...`, the form of section 3 of RFC 2397.
  `ImageMarkup.PathDataUrlIsNotPngDataUrl` proves the colon form is never the
  RFC 2397 form.
- A path image puts its URL in the element's text
  (`<img class="custom-image">URL</img>`), not in a `src` attribute.
- `CustomSection(title)` in `custom_objects.py` holds `[None]`, not an empty
  list.
- Neither version gives `[a, b, c]` for
  `CustomSection(title).add_object(a).add_object([b, c])`:
  - `custom_objects.py` gives `[None, a, b, c]`
    (`CustomObjects.ChainedAddObjects`);
  - `custom.py` gives `[a, [b, c]]` (`CreateReportCustom.ChainedAddObjects`).
- An unknown extension gives `KeyError`, and the lookup is case-sensitive.
  The file is read first, so a missing file gives a file error before the
  extension is looked up.

## Model

| member | source | states |
|---|---|---|
| `Python.Split` | dataprep/custom/custom_objects.py:251 | `str.split` with a one-character separator gives at least one piece, and no piece contains the separator |
| `Python.JoinSplit` | dataprep/custom/custom_objects.py:251 | joining the pieces of a split with the separator gives back the string |
| `Python.SplitJoin` | dataprep/custom/custom_objects.py:251 | splitting a join of separator-free pieces gives back the pieces |
| `Python.LastPieceFollowsLastSeparator` | dataprep/custom/custom_objects.py:251 | the last piece (`[-1]`) is the suffix after the last separator; it is all of the string exactly when there is a single piece |
| `Python.PyList.Append` | dataprep/custom/custom_objects.py:228 | `append` adds one element at the end and keeps the others |
| `Python.PyList.Extend` | dataprep/custom/custom_objects.py:226 | `+=` adds the given elements, as they were before the call, at the end |
| `Python.PyDict.SetItem` | dataprep/eda/create_report/custom.py:150 | item assignment maps the key to the value and leaves every other key as it was |
| `Python.PyDict.Pop` | dataprep/custom/custom_objects.py:194 | `pop(key, default)` removes the key and returns its value, or the default when the key is absent |
| `Base64.EncodeCodes` | dataprep/custom/custom_objects.py:254 | the encoding has four codes for each started group of three bytes |
| `Base64.Encode` | dataprep/custom/custom_objects.py:254 | `b64encode(...).decode()` has length 4·⌈n/3⌉, and every character is in the RFC 4648 alphabet or is the pad |
| `Base64.CodesOfRender` | dataprep/custom/custom_objects.py:254 | reading the rendered characters back gives the codes |
| `Base64.DecodeTriple` | dataprep/custom/custom_objects.py:254 | the four codes of three bytes, in front of any decodable codes, decode to those three bytes followed by the rest |
| `Base64.DecodeEncodeCodes` | dataprep/custom/custom_objects.py:254 | decoding the codes of any byte string gives it back (induction over the groups) |
| `Base64.DecodeEncode` | dataprep/custom/custom_objects.py:254 | `Decode(Encode(b)) == b` for every byte string |
| `Base64.EncodeDecodeCodes` | dataprep/custom/custom_objects.py:254 | codes that decode are exactly the codes of the encoding of the decoded bytes (induction over the groups) |
| `Base64.DecodeIsCanonical` | dataprep/custom/custom_objects.py:254 | a text decodes to some bytes exactly when it is `b64encode` of them, so a payload that decodes to the bytes is their encoding |
| `Base64.EncodeInjective` | dataprep/custom/custom_objects.py:254 | different byte strings have different encodings |
| `ImageMarkup.MimeTable` | dataprep/custom/custom_objects.py:240-249 | the table has exactly the eight lower-case keys; `jpg` and `jpeg` both map to `image/jpeg`; `PNG` and `JPG` are not keys |
| `ImageMarkup.MimeTypeIsPlain` | dataprep/custom/custom_objects.py:240-249 | no MIME type in the table contains `:` or `;` |
| `ImageMarkup.Extension` | dataprep/custom/custom_objects.py:251 | the extension is a suffix of the path without `.`; it is preceded by `.` unless it is the whole path, which happens exactly when the path has no `.` |
| `ImageMarkup.ExtensionAfterDot` | dataprep/custom/custom_objects.py:251 | the extension of `stem + "." + ext` is `ext` whenever `ext` has no `.` |
| `ImageMarkup.PngDataUrl` | dataprep/custom/custom_objects.py:121 | the payload of `data:image/png;base64,<s>` is `s` |
| `ImageMarkup.PngDataUrlParsed` | dataprep/custom/custom_objects.py:121 | a URL has the PNG payload `s` exactly when it is `data:image/png;base64,<s>` |
| `ImageMarkup.IndexOf` | dataprep/custom/custom_objects.py:256 | the index found is the first occurrence of the character, or the length when there is none |
| `ImageMarkup.PathDataUrlRoundTrip` | dataprep/custom/custom_objects.py:256 | `data:<mime>:base64,<s>` parses back into its MIME type and payload when the MIME type has no `:` |
| `ImageMarkup.PathDataUrl` | dataprep/custom/custom_objects.py:256 | the URL of `get_image_url` (also dataprep/eda/create_report/custom.py:127) is `data:`, the MIME type, `:base64,` and the payload, in that order; `PathDataUrlParsed` takes it apart |
| `ImageMarkup.PathDataUrlParsed` | dataprep/custom/custom_objects.py:256 | a URL parses into a MIME type and a payload exactly when it is `data:<mime>:base64,<s>` of them and the MIME type has no `:` |
| `ImageMarkup.PathDataUrlIsNotPngDataUrl` | dataprep/custom/custom_objects.py:256 | a path data URL is never of the RFC 2397 form `data:image/png;base64,...` |
| `ImageMarkup.ImgSrcTag` | dataprep/custom/custom_objects.py:123 | the `src` of `<img class="custom-image" src="u" />` is `u` |
| `ImageMarkup.ImgSrcParsed` | dataprep/custom/custom_objects.py:123 | a tag has the `src` `u` exactly when it is `<img class="custom-image" src="u" />` |
| `ImageMarkup.ImgTextTag` | dataprep/custom/custom_objects.py:148 | the element text of `<img class="custom-image">u</img>` is `u` |
| `ImageMarkup.ImgTextParsed` | dataprep/custom/custom_objects.py:148 | a tag has the element text `u` exactly when it is `<img class="custom-image">u</img>` |
| `ImageMarkup.ImgTagsDiffer` | dataprep/custom/custom_objects.py:144-159 | the text tag is never a `src` tag and has no `src` |
| `ImageMarkup.BetweenWrapped` | dataprep/custom/custom_objects.py:148 | the text between a known opening and closing string is recovered exactly |
| `ImageMarkup.BetweenUnwrapped` | dataprep/custom/custom_objects.py:148 | a string with a text between a known opening and closing string is exactly the three put together |
| `CustomObjects.CustomObject.ObjectType` | dataprep/custom/custom_objects.py:43-193 | `object_type` is `plotly`, `html`, `markdown`, `dataprep`, `matplotlib`, `image` or `table`, and each tag belongs to exactly one class |
| `CustomObjects.ObjectTypeNamesClass` | dataprep/custom/custom_objects.py:43-193 | two objects have the same `object_type` exactly when they are of the same class |
| `CustomObjects.TypeRepr` | dataprep/custom/custom_objects.py:173 | `{type(obj)}` in the `TypeError` messages (also line 202) is the qualified type name quoted inside `<class '...'>`, and can be read back out |
| `CustomObjects.CustomPlotly` | dataprep/custom/custom_objects.py:42-45 | tag `plotly`; the figure is kept; the html is the figure's `to_html(*args, **kwargs)` |
| `CustomObjects.CustomHTML` | dataprep/custom/custom_objects.py:57-59 | tag `html`; the html is the input unchanged |
| `CustomObjects.CustomMarkdown` | dataprep/custom/custom_objects.py:68-70 | tag `markdown`; the html is the converter's output for the text |
| `CustomObjects.CustomDataPrep` | dataprep/custom/custom_objects.py:92-94 | tag `dataprep`; the html is the container's `_repr_html_()` |
| `CustomObjects.EmbedsPngExact` | dataprep/custom/custom_objects.py:155-159 | the attributes embed the bytes exactly when `image_str` is `b64encode` of them, `image_url` is the PNG data URL of `image_str` and `html` is the `src` tag of `image_url` |
| `CustomObjects.PngAttributes` | dataprep/custom/custom_objects.py:155-159 | `image_str` decodes to the bytes under the canonical decoder, so it is their `b64encode` text (`EmbedsPngExact`); `image_url` is the PNG data URL of `image_str`; the tag's `src` is `image_url` |
| `CustomObjects.CustomMatplotlib` | dataprep/custom/custom_objects.py:114-123 | tag `matplotlib`; `image_str`, `image_url` and `html` embed the bytes `savefig` wrote, which by `EmbedsPngExact` fixes all three strings |
| `CustomObjects.GetImageUrl` | dataprep/custom/custom_objects.py:240-257 | a missing file is an error before the lookup; an unknown extension is `KeyError(ext)`; it succeeds exactly when both are fine; the URL parses into the table's MIME type and the returned `image_str`, which is `b64encode` of the file's bytes and decodes back to them |
| `CustomObjects.UpperCaseExtensionFails` | dataprep/custom/custom_objects.py:251-256 | `x.PNG` fails with `KeyError("PNG")` |
| `CustomObjects.JpgAndJpegAgree` | dataprep/custom/custom_objects.py:246-256 | `.jpg` and `.jpeg` files with the same bytes get the same result, an `image/jpeg` URL |
| `CustomObjects.CustomImage` | dataprep/custom/custom_objects.py:141-173 | succeeds exactly for a readable path with a known extension, a PIL image or an ndarray; a path gives the URL as element text; images and arrays embed their PNG bytes in `src`, which by `EmbedsPngExact` fixes `image_str`, `image_url` and `html`; other types raise `TypeError` |
| `CustomObjects.ArrayImageIsConvertedImage` | dataprep/custom/custom_objects.py:160-171 | an array gives the same object as the image `fromarray` makes of it |
| `CustomObjects.PathImageHasNoSrc` | dataprep/custom/custom_objects.py:144-148 | a path image has no `src`, and its URL is not a PNG data URL, even for a `.png` file |
| `CustomObjects.PathAndImageShareThePayload` | dataprep/custom/custom_objects.py:144-159 | a `.png` file and an image with the same PNG bytes share `image_str` but differ in URL and html |
| `CustomObjects.WithoutBuf` | dataprep/custom/custom_objects.py:194 | `buf` is gone, and every other keyword argument is kept with its value |
| `CustomObjects.CustomTable` | dataprep/custom/custom_objects.py:192-202 | succeeds exactly for a DataFrame or an ndarray with `ndim <= 2`; `ndim > 2` raises `ValueError` with the dimension in the message; other types raise `TypeError`; tag `table` |
| `CustomObjects.ArrayTableIsFrameTable` | dataprep/custom/custom_objects.py:197-200 | an array with at most two dimensions renders exactly like `DataFrame(array)` |
| `CustomObjects.CustomTableIgnoresBuf` | dataprep/custom/custom_objects.py:194-200 | a `buf` keyword argument makes no difference to the result |
| `CustomObjects.NewCustomTable` | dataprep/custom/custom_objects.py:186-202 | the constructor pops `buf` from a new keyword dictionary of its own and produces what `CustomTable` specifies for the caller's keyword arguments |
| `CustomObjects.SavefigKwargs` | dataprep/custom/custom_objects.py:265-266 | `dpi` is always present: the caller's if given, otherwise the figure's; every other argument is kept |
| `CustomObjects.SavefigKwargsIdempotent` | dataprep/custom/custom_objects.py:265-266 | filling in the default twice keeps the first `dpi` |
| `CustomObjects.ConvertMplfigureToArray` | dataprep/custom/custom_objects.py:260-271 | the call's own keyword dictionary gets its `dpi` default; the raw buffer is `savefig` with `format="raw"` added to those arguments; a caller's own `format` raises `TypeError` |
| `CustomObjects.CustomSection.constructor` | dataprep/custom/custom_objects.py:210-219 | a list argument becomes the section's list itself (aliased); anything else, `None` included, becomes the element of a new one-element list |
| `CustomObjects.CustomSection.AddObject` | dataprep/custom/custom_objects.py:221-229 | a list is spliced in after the existing objects, anything else is appended once; nothing before changes; returns the section |
| `CustomObjects.DefaultSectionHoldsNone` | dataprep/custom/custom_objects.py:213-219 | a section made without objects holds `[None]` |
| `CustomObjects.SectionSharesCallersList` | dataprep/custom/custom_objects.py:216-229 | an object added to a section made from a list is seen in the caller's list |
| `CustomObjects.AddObjectFlattensList` | dataprep/custom/custom_objects.py:225-226 | adding `[b, c]` to a section holding `[a]` gives `[a, b, c]` |
| `CustomObjects.ChainedAddObjects` | dataprep/custom/custom_objects.py:213-229 | `CustomSection(t).add_object(a).add_object([b, c])` holds `[None, a, b, c]` |
| `CustomObjects.AddOwnListDoubles` | dataprep/custom/custom_objects.py:225-226 | adding a section's own list to it doubles the list |
| `CreateReportCustom.CustomObject.ObjectType` | dataprep/eda/create_report/custom.py:27-56 | `object_type` is `plotly`, `html` or `image`, and each tag belongs to exactly one class |
| `CreateReportCustom.TypeRepr` | dataprep/eda/create_report/custom.py:81 | `{type(obj)}` in the `TypeError` message is the module and name of the type quoted inside `<class '...'>`, and can be read back out |
| `CreateReportCustom.CustomPlotly` | dataprep/eda/create_report/custom.py:26-29 | tag `plotly`; the figure is kept; the html is the figure's `to_html(*args, **kwargs)` |
| `CreateReportCustom.CustomHTML` | dataprep/eda/create_report/custom.py:40-42 | tag `html`; the html is the input unchanged |
| `CreateReportCustom.GetImageUrl` | dataprep/eda/create_report/custom.py:106-128 | same errors and success condition as the other version; the URL alone is returned and parses into the table's MIME type and the base64 text of the file |
| `CreateReportCustom.ShowsPngExact` | dataprep/eda/create_report/custom.py:62-69 | a tag shows the bytes as a PNG exactly when it is the `src` tag of the PNG data URL of their `b64encode` text |
| `CreateReportCustom.PngTag` | dataprep/eda/create_report/custom.py:62-69 | the tag's `src` is a PNG data URL whose payload decodes to the saved bytes under the canonical decoder, which by `ShowsPngExact` fixes the tag |
| `CreateReportCustom.CustomImage` | dataprep/eda/create_report/custom.py:56-81 | succeeds exactly for a readable path with a known extension, a PIL image or an ndarray; a path gives the URL as element text; images and arrays show their PNG bytes in `src`, which by `ShowsPngExact` fixes the tag; other types raise `TypeError` |
| `CreateReportCustom.PathImageIsNotShownAsPng` | dataprep/eda/create_report/custom.py:58-60 | a path image never shows any bytes as a PNG `src` |
| `CreateReportCustom.CustomSection.constructor` | dataprep/eda/create_report/custom.py:88-100 | the list is always new: a custom object gives `[obj]`, a list is copied in order, anything else gives `[]` |
| `CreateReportCustom.CustomSection.AddObject` | dataprep/eda/create_report/custom.py:102-104 | the argument is appended as exactly one element, a list included; returns the section |
| `CreateReportCustom.ItemAssignmentError` | dataprep/eda/create_report/custom.py:150 | `components["has_customsections"] = True` on a non-dictionary: a list gives the string-index `TypeError`, an ndarray the `IndexError`, any other type a `TypeError` naming it |
| `CreateReportCustom.AppendError` | dataprep/eda/create_report/custom.py:152 | `.append` on a non-list gives an `AttributeError` naming the type as CPython does: the bare class name, or `numpy.ndarray` |
| `CreateReportCustom.AddSection` | dataprep/eda/create_report/custom.py:147-155 | missing `components` raises `KeyError`; the flag is set; the section is appended to an existing list in place, or a new `[section]` is stored; a non-list value raises `AttributeError` after the flag is set; returns the same context; only the components dictionary and the sections list change |
| `CreateReportCustom.DefaultSectionIsEmpty` | dataprep/eda/create_report/custom.py:91-100 | a section made without objects is empty |
| `CreateReportCustom.SectionCopiesCallersList` | dataprep/eda/create_report/custom.py:94-104 | adding to a section made from a list leaves the caller's list unchanged |
| `CreateReportCustom.ChainedAddObjects` | dataprep/eda/create_report/custom.py:94-104 | `CustomSection(t).add_object(a).add_object([b, c])` holds `[a, [b, c]]` |
| `CreateReportCustom.AddSectionsInOrder` | dataprep/eda/create_report/custom.py:147-155 | two calls set the flag, keep the other components and record both sections in call order |
| `CreateReportCustom.AddSectionNeedsComponents` | dataprep/eda/create_report/custom.py:150 | a context without `components` raises `KeyError` and is left unchanged |
| `Versions.GetImageUrlVersionsAgree` | dataprep/eda/create_report/custom.py:106-128 | the report version returns the URL half of the other version's pair, and fails alike |
| `Versions.PathImageVersionsAgree` | dataprep/eda/create_report/custom.py:58-60 | both versions build the same tag from a path, and fail alike |
| `Versions.PilImageVersionsAgree` | dataprep/eda/create_report/custom.py:61-69 | both versions build the same tag from a PIL image |

## Left out

- The third-party renderers are not modelled; they are the functions of `External.Renderers`:
  - plotly's `to_html`;
  - matplotlib's `savefig`;
  - PIL's PNG export and `fromarray`;
  - pandas' `to_html` and `DataFrame(array)`;
  - the container's `_repr_html_`;
  - the Markdown converter.

  They are foreign code. Any exception they raise is not modelled, and neither is any restriction on the arguments passed through to them.
- The module-level Markdown instance and its `reset()` state are not modelled, nor is the import-time `ImportWarning` when `markdown` is missing (dataprep/custom/custom_objects.py:15-23). Both are external library state.
- File I/O is not modelled. `open(path).read()` is a lookup in a map from path to bytes. A missing path is the only read failure modelled; permission and directory errors are not.
- `print(file_type)` in both versions of `get_image_url` is not modelled, because it is console output.
- `CustomObjects.ConvertMplfigureToArray`: returns the flat raw byte buffer. It does not model the final `np.reshape` to `(height, width, -1)` with truncated bounding-box sizes, which depends on numpy semantics and floating point.
- `convert_mplfigure_to_array` in dataprep/eda/create_report/custom.py:130-145 is the same code line for line, so its model is `CustomObjects.ConvertMplfigureToArray`.
- `CustomVideo` and `CustomPandasProfiling` are not modelled, because they are empty stubs. The base class `CustomObject` has no behaviour.
- The `CustomMPL` alias is not modelled separately; it is `CustomObjects.CustomMatplotlib` under another name.
- `isinstance` is modelled over a closed set of value kinds. Subclasses such as a `str` subclass or a PIL `PngImageFile` are not distinguished. In the `TypeError` messages, which print `type(obj)`, an image's type shows as `PIL.Image.Image`; in the `AttributeError` of `add_section` it shows as `Image`, the message of Pillow 10 and later (Pillow 9.1 to 9.5 raise `AttributeError('append')` from `Image.__getattr__`).
- `CreateReportCustom.AddSection` models every non-dictionary `components` value (other than a list or an ndarray) and every non-list `customsections` value as lacking item assignment and `append`.
- The `TypeError` message for a duplicate `format` is the one of CPython 3.9 and later, which names the method as `matplotlib.figure.Figure.savefig()`; earlier versions write only `savefig()`.
- `Base64.Decode` is not a model of `base64.b64decode`, which the code never calls and which lets non-zero trailing bits through. It is the reference inverse of `Encode`, and it rejects any text that is not a canonical encoding.
- The `.decode(encoding="utf-8")` of one version and the `.decode()` of the other are modelled as the same call, because base64 text is ASCII.
- dataprep/custom/templates/plotly_colors.py is not part of this model, because it only sets global plotly styling.
- dev/bench/data.js is not part of this model, because it is static benchmark data.
