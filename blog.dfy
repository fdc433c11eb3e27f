/**
 * The blog of src/blog.rs: blog post front matter, the template data a post page gets, and
 * `build_blog`, which loads and publishes the collection under `blog/`.
 */
module Blog {
  import opened Wrappers
  import opened Paths
  import opened ResourceModel
  import Runs
  import Resource
  import Builder

  /** Where posts live, and where their pages, list and feed go. */
  const BlogPath: string := "blog"

  /** `BlogPostMetadata`: description, header image and its alt text, optional CSS fit and position. */
  datatype BlogPostMetadata = BlogPostMetadata(
    desc: string,
    headerImageFile: string,
    headerImageAlt: string,
    imageFit: Option<string>,
    imageCenter: Option<string>)

  /** `BlogPostTemplateData`: the header image's CDN URL and the CSS `object-fit` and `object-position`. */
  datatype BlogPostTemplateData = BlogPostTemplateData(headerImage: string, objectFit: string, objectPosition: string)

  /** The collection's configuration; the page size comes from the site configuration. */
  function Config(perPage: nat): ResourceBuilderConfig {
    ResourceBuilderConfig(
      BlogPath, BlogPath, BlogPath,
      "blog-post", "blog-list", "rss/blog-post",
      "Zyllian's blog", "Feed of recent blog posts on Zyllian's website.",
      "Blog", "Blog Tags", "Blog posts",
      perPage)
  }

  function ShortDesc(r: ResourceMetadata<BlogPostMetadata>): string {
    r.inner.desc
  }

  /** The extra template data: the header image on the CDN, and the fit and position or their defaults. */
  function ExtraData(cdnUrl: string -> Result<string>, r: ResourceMetadata<BlogPostMetadata>): Result<BlogPostTemplateData> {
    var headerImage :- cdnUrl(r.inner.headerImageFile);
    Ok(BlogPostTemplateData(headerImage, r.inner.imageFit.GetOr("cover"), r.inner.imageCenter.GetOr("50% 50%")))
  }

  /** The `ResourceMethods` implementation for posts; `cdnUrl` is the site configuration's `cdn_url`. */
  function Methods(cdnUrl: string -> Result<string>): ResourceMethods<BlogPostMetadata, BlogPostTemplateData> {
    ResourceMethods(
      (r: ResourceMetadata<BlogPostMetadata>) => ShortDesc(r),
      (r: ResourceMetadata<BlogPostMetadata>) => ExtraData(cdnUrl, r),
      (r: ResourceMetadata<BlogPostMetadata>) => DefaultHeadData(r))
  }

  /**
   * The post hooks: the short description is the post's description; the extra data fails exactly
   * when the header image's CDN URL does, with that error, and otherwise holds that URL, the fit
   * (default `cover`) and the position (default `50% 50%`).
   */
  lemma MethodsBehave(cdnUrl: string -> Result<string>, r: ResourceMetadata<BlogPostMetadata>)
    ensures Methods(cdnUrl).shortDesc(r) == r.inner.desc
    ensures Methods(cdnUrl).extraData(r).Err? <==> cdnUrl(r.inner.headerImageFile).Err?
    ensures cdnUrl(r.inner.headerImageFile).Err? ==> Methods(cdnUrl).extraData(r) == Err(cdnUrl(r.inner.headerImageFile).error)
    ensures cdnUrl(r.inner.headerImageFile).Ok? ==>
      var d := Methods(cdnUrl).extraData(r).value;
      && d.headerImage == cdnUrl(r.inner.headerImageFile).value
      && d.objectFit == (if r.inner.imageFit.Some? then r.inner.imageFit.value else "cover")
      && d.objectPosition == (if r.inner.imageCenter.Some? then r.inner.imageCenter.value else "50% 50%")
    ensures Methods(cdnUrl).headData(r) == Ok("")
  {
  }

  /**
   * `build_blog`: `load_all` over `<site>/blog`, then `build_all`. A load error ends the build with
   * that error and nothing written; otherwise the writes are those of `build_all` on the loaded
   * collection. `release` stands for a build without debug assertions.
   */
  method BuildBlog(b: Builder.SiteBuilder, env: Builder.Env,
                   ren: Resource.Renderers<BlogPostMetadata, BlogPostTemplateData>, feed: Resource.Feed,
                   cdnUrl: string -> Result<string>, src: Resource.LoadSources<BlogPostMetadata>, release: bool)
    returns (r: Outcome, writes: seq<Write>)
    ensures var config := Config(b.site.config.blogPostsPerPage);
      var loaded := Resource.LoadAllSpec(src, Join(b.site.sitePath, BlogPath), release);
      if loaded.outcome.Err? then r == loaded.outcome && writes == []
      else Runs.Run(r, writes) == Resource.BuildAllSpec(config, Resource.Context(b, env, ren, Methods(cdnUrl), feed), loaded.out)
  {
    var config := Config(b.site.config.blogPostsPerPage);
    var builder := new Resource.ResourceBuilder<BlogPostMetadata, BlogPostTemplateData>(config);
    r := builder.LoadAll(src, b.site.sitePath, release);
    if r.Err? {
      return r, [];
    }
    r, writes := builder.BuildAll(Resource.Context(b, env, ren, Methods(cdnUrl), feed));
  }
}
