/**
 * The records of src/resource.rs: a resource's metadata as its front matter gives it, the data a
 * resource template receives, the builder's configuration, and the per-type hooks
 * (`ResourceMethods`) that blog posts and images supply.
 */
module ResourceModel {
  import opened Wrappers

  /**
   * `ResourceMetadata<T>`. The timestamp is the instant as an integer (its order is all the model
   * uses); `inner` is the type-specific part that serde flattens into the same front matter.
   */
  datatype ResourceMetadata<M> = ResourceMetadata(
    title: string,
    timestamp: int,
    tags: seq<string>,
    inner: M,
    draft: bool,
    content: string)

  /** `ResourceTemplateData`: a resource, its id and the type-specific extra data, as templates see it. */
  datatype ResourceTemplateData<M, E> = ResourceTemplateData(
    resource: ResourceMetadata<M>,
    id: string,
    extra: E,
    timestamp: int)

  /** `ResourceBuilderConfig`: where resources come from and go to, templates, titles, page size. */
  datatype ResourceBuilderConfig = ResourceBuilderConfig(
    sourcePath: string,
    outputPathShort: string,
    outputPathLong: string,
    resourceTemplate: string,
    resourceListTemplate: string,
    rssTemplate: string,
    rssTitle: string,
    rssDescription: string,
    listTitle: string,
    tagListTitle: string,
    resourceNamePlural: string,
    resourcesPerPage: nat)

  /** `link_list::Link`: a link target and its title. */
  datatype Link = Link(link: string, title: string)

  /**
   * The `ResourceMethods<E>` implementation of one resource type: its short description, the
   * extra template data (which may fail), and extra `<head>` content (by default none).
   * The site configuration these read is fixed for a build, so it is captured in the functions.
   */
  datatype ResourceMethods<!M, E> = ResourceMethods(
    shortDesc: ResourceMetadata<M> -> string,
    extraData: ResourceMetadata<M> -> Result<E>,
    headData: ResourceMetadata<M> -> Result<string>)

  /** The trait's default `get_head_data`: no extra head content. */
  function DefaultHeadData<M>(r: ResourceMetadata<M>): Result<string> {
    Ok("")
  }
}
