/**
 * The image collection of src/images.rs: image front matter, the template data an image page gets,
 * and `build_images`, which loads and publishes the collection under `i/` and `images/`.
 */
module Images {
  import opened Wrappers
  import opened Paths
  import opened ResourceModel
  import Runs
  import Resource
  import Builder

  /** Where image sources live, and the short output directory of image pages. */
  const ImagesPath: string := "images"
  const ImagesOutPath: string := "i"

  /** `ImageMetadata`: the alt text, an optional description and the image's file path. */
  datatype ImageMetadata = ImageMetadata(alt: string, desc: Option<string>, file: string)

  /** `ImageTemplateData`: the image's URL on the CDN. */
  datatype ImageTemplateData = ImageTemplateData(src: string)

  /** The collection's configuration; the page size comes from the site configuration. */
  function Config(perPage: nat): ResourceBuilderConfig {
    ResourceBuilderConfig(
      ImagesPath, ImagesOutPath, "images",
      "image", "images", "rss/image",
      "zyl's images", "Feed of newly uploaded images from zyl's website.",
      "Images", "Image Tags", "Images",
      perPage)
  }

  function ShortDesc(r: ResourceMetadata<ImageMetadata>): string {
    r.inner.desc.GetOr("")
  }

  /** The extra template data: the CDN URL of the file, whose failure is the page's failure. */
  function ExtraData(cdnUrl: string -> Result<string>, r: ResourceMetadata<ImageMetadata>): Result<ImageTemplateData> {
    var src :- cdnUrl(r.inner.file);
    Ok(ImageTemplateData(src))
  }

  /** The `ResourceMethods` implementation for images; `cdnUrl` is the site configuration's `cdn_url`. */
  function Methods(cdnUrl: string -> Result<string>): ResourceMethods<ImageMetadata, ImageTemplateData> {
    ResourceMethods(
      (r: ResourceMetadata<ImageMetadata>) => ShortDesc(r),
      (r: ResourceMetadata<ImageMetadata>) => ExtraData(cdnUrl, r),
      (r: ResourceMetadata<ImageMetadata>) => DefaultHeadData(r))
  }

  /**
   * The image hooks: the short description is the description or nothing, `src` is the CDN URL of
   * the file and a CDN failure is the hook's error, and images add nothing to the page head.
   */
  lemma MethodsBehave(cdnUrl: string -> Result<string>, r: ResourceMetadata<ImageMetadata>)
    ensures Methods(cdnUrl).shortDesc(r) == (if r.inner.desc.Some? then r.inner.desc.value else "")
    ensures Methods(cdnUrl).extraData(r).Ok? <==> cdnUrl(r.inner.file).Ok?
    ensures cdnUrl(r.inner.file).Ok? ==> Methods(cdnUrl).extraData(r) == Ok(ImageTemplateData(cdnUrl(r.inner.file).value))
    ensures cdnUrl(r.inner.file).Err? ==> Methods(cdnUrl).extraData(r) == Err(cdnUrl(r.inner.file).error)
    ensures Methods(cdnUrl).headData(r) == Ok("")
  {
  }

  /** The configuration reads sources from `images`, writes items under `i` and the list and feed under `images`. */
  lemma ConfigPaths(perPage: nat)
    ensures Config(perPage).sourcePath == "images" && Config(perPage).outputPathShort == "i"
    ensures Config(perPage).outputPathLong == "images" && Config(perPage).resourcesPerPage == perPage
  {
  }

  /**
   * `build_images`: `load_all` over `<site>/images`, then `build_all`. A load error ends the build
   * with that error and nothing written; otherwise the writes are those of `build_all` on the
   * loaded collection. `release` stands for a build without debug assertions.
   */
  method BuildImages(b: Builder.SiteBuilder, env: Builder.Env,
                     ren: Resource.Renderers<ImageMetadata, ImageTemplateData>, feed: Resource.Feed,
                     cdnUrl: string -> Result<string>, src: Resource.LoadSources<ImageMetadata>, release: bool)
    returns (r: Outcome, writes: seq<Write>)
    ensures var config := Config(b.site.config.imagesPerPage);
      var loaded := Resource.LoadAllSpec(src, Join(b.site.sitePath, ImagesPath), release);
      if loaded.outcome.Err? then r == loaded.outcome && writes == []
      else Runs.Run(r, writes) == Resource.BuildAllSpec(config, Resource.Context(b, env, ren, Methods(cdnUrl), feed), loaded.out)
  {
    var config := Config(b.site.config.imagesPerPage);
    var builder := new Resource.ResourceBuilder<ImageMetadata, ImageTemplateData>(config);
    r := builder.LoadAll(src, b.site.sitePath, release);
    if r.Err? {
      return r, [];
    }
    r, writes := builder.BuildAll(Resource.Context(b, env, ren, Methods(cdnUrl), feed));
  }
}
