/** How the two versions relate where they do the same thing: the URL of
    `get_image_url` and the `<img>` tags of `CustomImage`. Where they differ
    (the sections) each module states its own behaviour. */
module Versions {
  import opened Python
  import opened External
  import CustomObjects
  import CreateReportCustom

  /** The `get_image_url` of the report version returns the first half of
      the pair the custom-objects version returns, and fails alike. */
  lemma GetImageUrlVersionsAgree(path: string, files: FileSystem)
    ensures CreateReportCustom.GetImageUrl(path, files) ==
      match CustomObjects.GetImageUrl(path, files)
      case Ok(pair) => Ok(pair.0)
      case Err(e) => Err(e)
  {
  }

  /** Both versions build the same `<img>` tag from a path, and fail with
      the same error. */
  lemma PathImageVersionsAgree(name: string, path: string, files: FileSystem, r: Renderers)
    ensures CustomObjects.CustomImage(name, CustomObjects.Str(path), files, r).Ok? <==>
      CreateReportCustom.CustomImage(name, CreateReportCustom.Str(path), files, r).Ok?
    ensures CustomObjects.CustomImage(name, CustomObjects.Str(path), files, r).Err? ==>
      CustomObjects.CustomImage(name, CustomObjects.Str(path), files, r).error ==
      CreateReportCustom.CustomImage(name, CreateReportCustom.Str(path), files, r).error
    ensures CustomObjects.CustomImage(name, CustomObjects.Str(path), files, r).Ok? ==>
      CustomObjects.CustomImage(name, CustomObjects.Str(path), files, r).value.html ==
      CreateReportCustom.CustomImage(name, CreateReportCustom.Str(path), files, r).value.html
  {
    GetImageUrlVersionsAgree(path, files);
  }

  /** Both versions build the same `<img>` tag from a PIL image. */
  lemma PilImageVersionsAgree(name: string, image: PilImage, files: FileSystem, r: Renderers)
    ensures CustomObjects.CustomImage(name, CustomObjects.Image(image), files, r).value.html ==
      CreateReportCustom.CustomImage(name, CreateReportCustom.Image(image), files, r).value.html
  {
  }
}
