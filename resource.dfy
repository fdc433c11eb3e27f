/**
 * `ResourceBuilder` of src/resource.rs: loading a collection of Markdown resources (blog posts,
 * images) and publishing it as item pages, a paginated list, tag lists, a tag index and an RSS feed.
 */
module Resource {
  import opened Wrappers
  import opened Paths
  import opened Runs
  import opened ResourceModel
  import Text
  import Sorting
  import Pagination
  import TagIndex
  import Builder
  import Lib

  type Entry<M> = (string, ResourceMetadata<M>)

  /** `get_id`: the file name once the extension is removed; a path left without a file name panics. */
  function GetId(path: Path): (r: Result<string>)
    ensures r.Err? <==> FileName(WithExtension(path, "")).None?
    ensures r.Err? ==> r.error.Panic?
  {
    GetIdOfName(FileName(WithExtension(path, "")))
  }

  /**
   * The id is the stem of the file name. When the stem is `.` (a file `..md`), `with_extension`
   * leaves a trailing `.` and the id is the file name of the directory; a stem `..` panics.
   */
  lemma GetIdValue(path: Path)
    ensures FileName(path).None? ==> GetId(path).Err?
    ensures FileName(path).Some? ==>
      var stem := SplitAtDot(FileName(path).value).0;
      var dir := TrimCurDir(path)[..|TrimCurDir(path)| - 1];
      && (stem != "." && stem != ".." && stem != "/" ==> GetId(path) == Ok(stem))
      && (stem == ".." || stem == "/" ==> GetId(path).Err?)
      && (stem == "." ==> GetId(path) == GetIdOfName(FileName(dir)))
  {
    if FileName(path).Some? {
      var q := TrimCurDir(path);
      var stem := SplitAtDot(FileName(path).value).0;
      var w := q[..|q| - 1] + [stem];
      assert WithExtension(path, "") == w;
      assert stem != "";
      if stem == "." {
        FileNameCurDir(q[..|q| - 1]);
      } else {
        assert TrimCurDir(w) == w;
      }
    }
  }

  /** `expect` on the file name `get_id` takes. */
  function GetIdOfName(name: Option<string>): (r: Result<string>)
    ensures r.Ok? <==> name.Some?
    ensures r.Ok? ==> r.value == name.value
  {
    match name
    case None => Err(Panic("Should never fail"))
    case Some(n) => Ok(n)
  }

  /** A file named `..md` takes the name of the directory it lies in as its id. */
  lemma GetIdDotStem(dir: Path, name: string)
    requires NormalComponent(name) && name != ".."
    ensures GetId(dir + [name, "..md"]) == Ok(name)
  {
    var p := dir + [name, "..md"];
    assert "..md" != "" && "..md" != "." && "..md" != ".." && "..md" != "/";
    assert TrimCurDir(p) == p;
    assert FileName(p) == Some("..md");
    assert "..md" == "." + "." + "md";
    Paths.LastDotAppend(".", "md");
    assert "..md"[..1] == "." && "..md"[2..] == "md";
    assert SplitAtDot("..md") == (".", Some("md"));
    GetIdValue(p);
    assert p[..|p| - 1] == dir + [name];
    assert TrimCurDir(dir + [name]) == dir + [name];
  }

  /** A resource file `<id>.md`, for an id without a dot, has the id `<id>`. */
  lemma GetIdOfFile(dir: Path, id: string)
    requires NormalComponent(id) && id != ".." && '.' !in id
    ensures GetId(dir + [id + ".md"]) == Ok(id)
  {
    var name := id + ".md";
    assert name == id + "." + "md";
    Paths.LastDotAppend(id, "md");
    assert name != "..";
    assert SplitAtDot(name) == (id, Some("md"));
    assert WithExtension(dir + [name], "") == dir + [id];
  }

  /** The file `...md` has the stem `..`, which is no file name: `get_id` panics on it. */
  lemma GetIdPanics(dir: Path)
    ensures GetId(dir + ["...md"]).Err?
  {
    var name := "...md";
    assert name == ".." + "." + "md";
    Paths.LastDotAppend("..", "md");
    assert name != ".." && name[..2] == ".." && name[3..] == "md";
    assert TrimCurDir(dir + [name]) == dir + [name];
    assert FileName(dir + [name]) == Some(name);
    assert SplitAtDot(name) == ("..", Some("md"));
    assert WithExtension(dir + [name], "") == dir + [".."];
    assert TrimCurDir(dir + [".."]) == dir + [".."];
  }

  /** `build_path`: `<base>/<short>/<id>.html`. */
  function ItemPath(config: ResourceBuilderConfig, base: Path, id: string): Path {
    WithExtension(Join(Join(base, config.outputPathShort), id), "html")
  }

  /** For plain names the item page of `id` is `<base>/<short>/<id>.html`, and distinct ids have distinct pages. */
  lemma ItemPathShape(config: ResourceBuilderConfig, base: Path, id: string, other: string)
    requires NormalComponent(config.outputPathShort)
    requires NormalComponent(id) && '.' !in id && NormalComponent(other) && '.' !in other
    ensures ItemPath(config, base, id) == base + [config.outputPathShort, id + ".html"]
    ensures ItemPath(config, base, id) == ItemPath(config, base, other) ==> id == other
  {
    forall x | NormalComponent(x) && '.' !in x
      ensures ItemPath(config, base, x) == base + [config.outputPathShort, x + ".html"]
    {
      JoinName(base, config.outputPathShort);
      JoinName(base + [config.outputPathShort], x);
      WithExtensionNoDot(base + [config.outputPathShort], x, "html");
      assert x + "." + "html" == x + ".html";
      assert base + [config.outputPathShort] + [x + ".html"] == base + [config.outputPathShort, x + ".html"];
    }
    if ItemPath(config, base, id) == ItemPath(config, base, other) {
      var p := ItemPath(config, base, id);
      assert p[|base| + 1] == id + ".html" == other + ".html";
      assert id == (id + ".html")[..|id|];
      assert other == (other + ".html")[..|other|];
    }
  }

  /** The item page of `<stem>.<x>`, for a plain stem and a suffix without `.` or `/`, is that of `<stem>`. */
  lemma DottedIdPage(config: ResourceBuilderConfig, base: Path, stem: string, x: string)
    requires NormalComponent(stem) && '.' !in stem && '.' !in x && '/' !in x
    ensures ItemPath(config, base, stem + "." + x) == WithExtension(Join(base, config.outputPathShort) + [stem], "html")
  {
    var dir := Join(base, config.outputPathShort);
    var id := stem + "." + x;
    assert id[0] == stem[0];
    assert '/' !in id by {
      forall k | 0 <= k < |id| ensures id[k] != '/' {
        if k < |stem| { assert id[k] == stem[k]; } else if k > |stem| { assert id[k] == x[k - |stem| - 1]; }
      }
    }
    JoinName(dir, id);
    LastDotAppend(stem, x);
    assert id != ".." by {
      assert id[..|stem|] == stem;
    }
    assert id[..|stem|] == stem;
    assert SplitAtDot(id).0 == stem;
    WithExtensionName(dir, id, "html");
    WithExtensionName(dir, stem, "html");
  }

  /**
   * Ids that differ only after their last dot share one page: `a.b` and `a.c` both publish to
   * `<short>/a.html`, so the later item overwrites the earlier one.
   */
  lemma DottedIdsCollide(config: ResourceBuilderConfig, base: Path, stem: string, x: string, y: string)
    requires NormalComponent(stem) && '.' !in stem && '.' !in x && '/' !in x && '.' !in y && '/' !in y
    ensures ItemPath(config, base, stem + "." + x) == ItemPath(config, base, stem + "." + y)
  {
    DottedIdPage(config, base, stem, x);
    DottedIdPage(config, base, stem, y);
  }

  /** What `load` and `load_all` read: the directory listing, files, the front matter and Markdown. */
  datatype LoadSources<!M> = LoadSources(
    readDir: Path -> Result<seq<Result<Path>>>,
    readFile: Path -> Result<string>,
    parseMatter: string -> Option<(ResourceMetadata<M>, string)>,
    markdown: string -> string)

  /** `load`: a resource's id and its metadata, its content replaced by the rendered Markdown body. */
  function Load<M>(src: LoadSources<M>, path: Path): (r: Result<Entry<M>>)
    ensures r.Ok? ==> GetId(path) == Ok(r.value.0) && src.readFile(path).Ok?
    ensures r.Ok? ==> var page := src.parseMatter(src.readFile(path).value);
      page.Some? && r.value.1 == page.value.0.(content := src.markdown(page.value.1))
    ensures GetId(path).Ok? && src.readFile(path).Ok? && src.parseMatter(src.readFile(path).value).None? ==>
      r == Err(Fail("Failed to parse resource front matter"))
  {
    var id :- GetId(path);
    var input :- src.readFile(path);
    match src.parseMatter(input)
    case None => Err(Fail("Failed to parse resource front matter"))
    case Some((data, content)) => Ok((id, data.(content := src.markdown(content))))
  }

  /** What one directory entry contributes to the collection. */
  function LoadStep<M>(src: LoadSources<M>, release: bool, e: Result<Path>): Run<Entry<M>> {
    match e
    case Err(err) => Run(Err(err), [])
    case Ok(p) =>
      if Extension(p) == Some("md") then
        match Load(src, p)
        case Err(err) => Run(Err(err), [])
        case Ok(entry) => if release && entry.1.draft then Run(Done, []) else Run(Done, [entry])
      else Run(Done, [])
  }

  function LoadSteps<M>(src: LoadSources<M>, release: bool): (nat, Result<Path>) -> Run<Entry<M>> {
    (k: nat, e: Result<Path>) => LoadStep(src, release, e)
  }

  function Timestamp<M>(e: Entry<M>): int {
    e.1.timestamp
  }

  /**
   * `load_all` as a run: the list is cleared, then each `.md` entry is loaded and pushed (drafts
   * skipped in a release build) until the first error; only a complete scan is sorted, newest first.
   */
  function LoadAllSpec<M>(src: LoadSources<M>, dir: Path, release: bool): Run<Entry<M>> {
    match src.readDir(dir)
    case Err(e) => Run(Err(e), [])
    case Ok(entries) =>
      var run := Steps(entries, LoadSteps(src, release), |entries|);
      if run.outcome.Err? then run else Run(Done, Sorting.SortDesc(run.out, Timestamp))
  }

  /** The entry `i` of a listing is a `.md` file that loads as `x`. */
  ghost predicate LoadedFrom<M>(src: LoadSources<M>, entries: seq<Result<Path>>, i: int, x: Entry<M>) {
    && 0 <= i < |entries| && entries[i].Ok? && Extension(entries[i].value) == Some("md")
    && Load(src, entries[i].value) == Ok(x)
  }

  /**
   * Whatever `load_all` leaves in the collection, after success or failure, was loaded from a `.md`
   * entry of the listing, and in a release build is no draft.
   */
  lemma LoadAllSound<M>(src: LoadSources<M>, dir: Path, release: bool, j: nat)
    requires j < |LoadAllSpec(src, dir, release).out|
    ensures src.readDir(dir).Ok?
    ensures var x := LoadAllSpec(src, dir, release).out[j];
      (exists i :: LoadedFrom(src, src.readDir(dir).value, i, x)) && (release ==> !x.1.draft)
  {
    var entries := src.readDir(dir).value;
    var f := LoadSteps(src, release);
    var run := Steps(entries, f, |entries|);
    var out := LoadAllSpec(src, dir, release).out;
    var y: Entry<M>;
    if run.outcome.Err? {
      y := run.out[j];
    } else {
      Sorting.SortDescPermutation(run.out, Timestamp);
      assert out[j] in multiset(run.out);
      var jj :| 0 <= jj < |run.out| && run.out[jj] == out[j];
      y := run.out[jj];
    }
    assert y in run.out;
    var jj :| 0 <= jj < |run.out| && run.out[jj] == y;
    var i := StepsOutFrom(entries, f, |entries|, jj);
    assert y in LoadStep(src, release, entries[i]).out;
    assert LoadedFrom(src, entries, i, y);
  }

  /**
   * A successful `load_all` keeps every `.md` entry that loads (in a release build, every one that
   * is not a draft), leaves the collection sorted by timestamp with the newest first, holds exactly
   * the scanned entries, and keeps entries with the same timestamp in scan order.
   */
  lemma LoadAllComplete<M>(src: LoadSources<M>, dir: Path, release: bool)
    requires LoadAllSpec(src, dir, release).outcome.Ok?
    ensures src.readDir(dir).Ok?
    ensures var entries := src.readDir(dir).value;
      var scanned := Steps(entries, LoadSteps(src, release), |entries|).out;
      var out := LoadAllSpec(src, dir, release).out;
      && (forall i, x :: LoadedFrom(src, entries, i, x) && !(release && x.1.draft) ==> x in out)
      && Sorting.SortedDesc(out, Timestamp)
      && multiset(out) == multiset(scanned)
      && (forall t :: Sorting.WithKey(out, Timestamp, t) == Sorting.WithKey(scanned, Timestamp, t))
  {
    var entries := src.readDir(dir).value;
    var f := LoadSteps(src, release);
    var scanned := Steps(entries, f, |entries|).out;
    var out := LoadAllSpec(src, dir, release).out;
    StepsOk(entries, f, |entries|);
    Sorting.SortDescPermutation(scanned, Timestamp);
    Sorting.SortDescSorted(scanned, Timestamp);
    forall t ensures Sorting.WithKey(out, Timestamp, t) == Sorting.WithKey(scanned, Timestamp, t) {
      Sorting.SortDescStable(scanned, Timestamp, t);
    }
    forall i, x | LoadedFrom(src, entries, i, x) && !(release && x.1.draft) ensures x in out {
      assert x in f(i, entries[i]).out;
      ConcatIncludes(entries, f, |entries|, i, x);
      assert x in multiset(scanned);
    }
  }

  /** The data a rendered item page receives next to the page: its extra `<head>` content. */
  datatype ExtraHead = ExtraHead(head: string)

  /** `LinkTemplateData` of src/link_list.rs. */
  datatype LinkTemplateData = LinkTemplateData(links: seq<Link>, title: string)

  /** The template registry, at each data type it is asked to render. */
  datatype Renderers<!M, !E> = Renderers(
    resource: (string, ResourceTemplateData<M, E>) -> Result<string>,
    list: (string, Pagination.ListTemplateData<ResourceTemplateData<M, E>>) -> Result<string>,
    links: (string, LinkTemplateData) -> Result<string>,
    headPage: (string, Builder.TemplateData<ExtraHead>) -> Result<string>,
    page: (string, Builder.TemplateData<()>) -> Result<string>)

  /** An RSS item and channel, as the RSS builders assemble them. */
  datatype RssItem = RssItem(title: string, link: string, description: string, pubDate: string, content: string)

  datatype Channel = Channel(title: string, link: string, description: string, lastBuildDate: string, items: seq<RssItem>)

  /** URL joining, RFC 2822 dates, the clock and the RSS library, as parameters. */
  datatype Feed = Feed(
    urlJoin: (string, string) -> Result<string>,
    rfc2822: int -> Result<string>,
    now: int,
    validate: Channel -> bool,
    serialize: Channel -> string)

  /** Everything `build_all` uses besides the collection. */
  datatype Context<!M, !E> = Context(
    b: Builder.SiteBuilder,
    env: Builder.Env,
    ren: Renderers<M, E>,
    methods: ResourceMethods<M, E>,
    feed: Feed)

  /** `build_page_raw`: a page under a title, in the default template. */
  function Shell<M, E>(ctx: Context<M, E>, title: string, html: string): Result<string> {
    Builder.BuildPageRawExtra(ctx.env, ctx.ren.page, ctx.b, Lib.PageMetadata(Some(title), None), html, ())
  }

  function ListRendererOf<M, E>(ctx: Context<M, E>): Pagination.ListRenderer<ResourceTemplateData<M, E>> {
    Pagination.ListRenderer(
      (t: string, d: Pagination.ListTemplateData<ResourceTemplateData<M, E>>) => ctx.ren.list(t, d),
      (title: string, html: string) => Shell(ctx, title, html))
  }

  /** `build`: one item page, rendered and then put in the shell under the item's title with its extra head. */
  function ItemPage<M, E>(config: ResourceBuilderConfig, ctx: Context<M, E>, entry: Entry<M>): Result<string> {
    var (id, res) := entry;
    var extra :- ctx.methods.extraData(res);
    var out :- ctx.ren.resource(config.resourceTemplate, ResourceTemplateData(res, id, extra, res.timestamp));
    var head :- ctx.methods.headData(res);
    Builder.BuildPageRawExtra(ctx.env, ctx.ren.headPage, ctx.b, Lib.PageMetadata(Some(res.title), None), out, ExtraHead(head))
  }

  function ItemStep<M, E>(config: ResourceBuilderConfig, ctx: Context<M, E>, entry: Entry<M>): Run<Write> {
    match ItemPage(config, ctx, entry)
    case Err(e) => Run(Err(e), [])
    case Ok(page) => Run(Done, [Write(ItemPath(config, ctx.b.buildPath, entry.0), page)])
  }

  function ItemSteps<M, E>(config: ResourceBuilderConfig, ctx: Context<M, E>): (nat, Entry<M>) -> Run<Write> {
    (k: nat, entry: Entry<M>) => ItemStep(config, ctx, entry)
  }

  /** The template data of one loaded resource. */
  function DataOf<M, E>(methods: ResourceMethods<M, E>, entry: Entry<M>): Result<ResourceTemplateData<M, E>> {
    var extra :- methods.extraData(entry.1);
    Ok(ResourceTemplateData(entry.1, entry.0, extra, entry.1.timestamp))
  }

  function DataFn<M, E>(methods: ResourceMethods<M, E>): Entry<M> -> Result<ResourceTemplateData<M, E>> {
    (entry: Entry<M>) => DataOf(methods, entry)
  }

  function TagsOf<M, E>(d: ResourceTemplateData<M, E>): seq<string> {
    d.resource.tags
  }

  /** The page listing every tag, written to `<short>/tags.html`. */
  function TagsPage<M, E>(config: ResourceBuilderConfig, ctx: Context<M, E>, outShort: Path,
                          tags: TagIndex.Index<ResourceTemplateData<M, E>>): Run<Write>
  {
    var links := TagIndex.TagLinks(config.outputPathShort, tags);
    match ctx.ren.links("basic-link-list", LinkTemplateData(links, config.tagListTitle))
    case Err(e) => Run(Err(e), [])
    case Ok(out) =>
      match Shell(ctx, config.tagListTitle, out)
      case Err(e) => Run(Err(e), [])
      case Ok(page) => Run(Done, [Write(outShort + ["tags.html"], page)])
  }

  /** The list of one tag: `<short>/tag/<tag>/`, titled `<plural> tagged <tag>`. */
  function TagList<M, E>(config: ResourceBuilderConfig, ctx: Context<M, E>, outShort: Path,
                         e: (string, seq<ResourceTemplateData<M, E>>)): Run<Write>
  {
    Pagination.ListRun(ListRendererOf(ctx), config.resourceListTemplate, e.1,
      config.resourceNamePlural + " tagged " + e.0, Some(e.0), Join(outShort + ["tag"], e.0), config.resourcesPerPage)
  }

  function TagListSteps<M, E>(config: ResourceBuilderConfig, ctx: Context<M, E>, outShort: Path)
    : (nat, (string, seq<ResourceTemplateData<M, E>>)) -> Run<Write>
  {
    (k: nat, e: (string, seq<ResourceTemplateData<M, E>>)) => TagList(config, ctx, outShort, e)
  }

  /** One RSS item: the resource's title, its link `<base>/<short>/<id>`, its short description, date and content. */
  function RssItemOf<M, E>(config: ResourceBuilderConfig, ctx: Context<M, E>, d: ResourceTemplateData<M, E>): Result<RssItem> {
    var link :- ctx.feed.urlJoin(ctx.b.site.config.baseUrl, config.outputPathShort + "/" + d.id);
    var pubDate :- ctx.feed.rfc2822(d.timestamp);
    var content :- ctx.ren.resource(config.rssTemplate, d);
    Ok(RssItem(d.resource.title, link, ctx.methods.shortDesc(d.resource), pubDate, content))
  }

  function RssFn<M, E>(config: ResourceBuilderConfig, ctx: Context<M, E>): ResourceTemplateData<M, E> -> Result<RssItem> {
    (d: ResourceTemplateData<M, E>) => RssItemOf(config, ctx, d)
  }

  /** The channel, once its items, link and build date are made; a failing link join panics. */
  function ChannelOf<M, E>(config: ResourceBuilderConfig, ctx: Context<M, E>, items: seq<RssItem>): Result<Channel> {
    match ctx.feed.urlJoin(ctx.b.site.config.baseUrl, config.outputPathLong + "/")
    case Err(_) => Err(Panic("Should never fail"))
    case Ok(link) =>
      var date :- ctx.feed.rfc2822(ctx.feed.now);
      Ok(Channel(config.rssTitle, link, config.rssDescription, date, items))
  }

  /** The feed: validated before `<long>/rss.xml` is written. */
  function RssStage<M, E>(config: ResourceBuilderConfig, ctx: Context<M, E>, outLong: Path,
                          data: seq<ResourceTemplateData<M, E>>): Run<Write>
  {
    match Collect(data, RssFn(config, ctx), |data|)
    case Err(e) => Run(Err(e), [])
    case Ok(items) =>
      match ChannelOf(config, ctx, items)
      case Err(e) => Run(Err(e), [])
      case Ok(channel) =>
        if !ctx.feed.validate(channel) then Run(Err(Fail("Failed to validate RSS feed")), [])
        else Run(Done, [Write(outLong + ["rss.xml"], ctx.feed.serialize(channel))])
  }

  /** What `build_all` does once the template data is made: the main list, the tag index, the tag lists, the feed. */
  function Publish<M, E>(config: ResourceBuilderConfig, ctx: Context<M, E>, data: seq<ResourceTemplateData<M, E>>): Run<Write> {
    var outShort := Join(ctx.b.buildPath, config.outputPathShort);
    var outLong := Join(ctx.b.buildPath, config.outputPathLong);
    var main := Pagination.ListRun(ListRendererOf(ctx), config.resourceListTemplate, data, config.listTitle,
                                   None, outLong, config.resourcesPerPage);
    var tags := TagIndex.Aggregate(data, TagsOf);
    var tagLists := Steps(tags, TagListSteps(config, ctx, outShort), |tags|);
    Then(Then(Then(main, TagsPage(config, ctx, outShort, tags)), tagLists), RssStage(config, ctx, outLong, data))
  }

  /** `build_all` on a collection: the item pages, then the template data, then `Publish`. */
  function BuildAllSpec<M, E>(config: ResourceBuilderConfig, ctx: Context<M, E>, lmd: seq<Entry<M>>): Run<Write> {
    var items := Steps(lmd, ItemSteps(config, ctx), |lmd|);
    if items.outcome.Err? then items
    else
      match Collect(lmd, DataFn(ctx.methods), |lmd|)
      case Err(e) => Run(Err(e), items.out)
      case Ok(data) => Then(items, Publish(config, ctx, data))
  }

  /**
   * The feed has one item per resource, in collection order; item `i` carries the title and the
   * short description of resource `i` and links to `<base url>/<short>/<id>`. Any failing item
   * fails the feed with its error.
   */
  lemma RssItemsShape<M, E>(config: ResourceBuilderConfig, ctx: Context<M, E>, data: seq<ResourceTemplateData<M, E>>)
    ensures var items := Collect(data, RssFn(config, ctx), |data|);
      && (items.Ok? <==> forall i :: 0 <= i < |data| ==> RssItemOf(config, ctx, data[i]).Ok?)
      && (items.Ok? ==> |items.value| == |data| && forall i :: 0 <= i < |data| ==>
            && items.value[i].title == data[i].resource.title
            && items.value[i].description == ctx.methods.shortDesc(data[i].resource)
            && ctx.feed.urlJoin(ctx.b.site.config.baseUrl, config.outputPathShort + "/" + data[i].id)
                 == Ok(items.value[i].link))
  {
    CollectOk(data, RssFn(config, ctx), |data|);
  }

  /**
   * The feed is written only after it validates: an invalid channel is the error `Failed to
   * validate RSS feed`, the feed stage writes nothing, and the whole of `build_all` fails.
   */
  lemma InvalidFeedFails<M, E>(config: ResourceBuilderConfig, ctx: Context<M, E>, lmd: seq<Entry<M>>,
                               data: seq<ResourceTemplateData<M, E>>, items: seq<RssItem>)
    requires Collect(data, RssFn(config, ctx), |data|) == Ok(items)
    requires ChannelOf(config, ctx, items).Ok? && !ctx.feed.validate(ChannelOf(config, ctx, items).value)
    ensures RssStage(config, ctx, Join(ctx.b.buildPath, config.outputPathLong), data)
      == Run(Err(Fail("Failed to validate RSS feed")), [])
    ensures Collect(lmd, DataFn(ctx.methods), |lmd|) == Ok(data) ==> BuildAllSpec(config, ctx, lmd).outcome.Err?
  {
  }

  /**
   * A successful `build_all` wrote, in this order: one page per item, at its item path; the main
   * list; the tag index at `<short>/tags.html`; the lists of the tags, in ascending tag order; and
   * the feed at `<long>/rss.xml`, as its last file.
   */
  lemma BuildAllOk<M, E>(config: ResourceBuilderConfig, ctx: Context<M, E>, lmd: seq<Entry<M>>)
    requires BuildAllSpec(config, ctx, lmd).outcome.Ok?
    ensures Collect(lmd, DataFn(ctx.methods), |lmd|).Ok?
    ensures var data := Collect(lmd, DataFn(ctx.methods), |lmd|).value;
      var w := BuildAllSpec(config, ctx, lmd).out;
      && |w| >= |lmd|
      && (forall i :: 0 <= i < |lmd| ==> w[i].path == ItemPath(config, ctx.b.buildPath, lmd[i].0))
      && w[|lmd|..] == Publish(config, ctx, data).out
  {
    var f := ItemSteps(config, ctx);
    var items := Steps(lmd, f, |lmd|);
    ItemWrites(config, ctx, lmd, |lmd|);
  }

  /**
   * A successful publication wrote the main list, then the tag index at `<short>/tags.html`, then
   * the lists of the tags in ascending tag order, and last the feed at `<long>/rss.xml`.
   */
  lemma PublishOk<M, E>(config: ResourceBuilderConfig, ctx: Context<M, E>, data: seq<ResourceTemplateData<M, E>>)
    requires Publish(config, ctx, data).outcome.Ok?
    ensures var outShort := Join(ctx.b.buildPath, config.outputPathShort);
      var outLong := Join(ctx.b.buildPath, config.outputPathLong);
      var tags := TagIndex.Aggregate(data, TagsOf);
      var main := Pagination.ListRun(ListRendererOf(ctx), config.resourceListTemplate, data, config.listTitle,
                                     None, outLong, config.resourcesPerPage);
      var w := Publish(config, ctx, data).out;
      var n := |main.out|;
      && main.outcome.Ok?
      && |w| >= n + 2
      && w[..n] == main.out
      && w[n].path == outShort + ["tags.html"]
      && w[n + 1..|w| - 1] == Concat(tags, TagListSteps(config, ctx, outShort), |tags|)
      && w[|w| - 1].path == outLong + ["rss.xml"]
  {
    var outShort := Join(ctx.b.buildPath, config.outputPathShort);
    var outLong := Join(ctx.b.buildPath, config.outputPathLong);
    var tags := TagIndex.Aggregate(data, TagsOf);
    var main := Pagination.ListRun(ListRendererOf(ctx), config.resourceListTemplate, data, config.listTitle,
                                   None, outLong, config.resourcesPerPage);
    var page := TagsPage(config, ctx, outShort, tags);
    var lists := Steps(tags, TagListSteps(config, ctx, outShort), |tags|);
    var feed := RssStage(config, ctx, outLong, data);
    assert main.outcome.Ok? && page.outcome.Ok? && lists.outcome.Ok? && feed.outcome.Ok?;
    StepsOk(tags, TagListSteps(config, ctx, outShort), |tags|);
    TagsPageOk(config, ctx, outShort, tags);
    RssStageOk(config, ctx, outLong, data);
    var w := Publish(config, ctx, data).out;
    assert w == main.out + page.out + lists.out + feed.out;
    SliceAround(main.out, page.out, lists.out, feed.out);
  }

  /** Where the parts of `a + b + c + d` sit when `b` and `d` hold one element each. */
  lemma SliceAround<T>(a: seq<T>, b: seq<T>, c: seq<T>, d: seq<T>)
    requires |b| == 1 && |d| == 1
    ensures var w := a + b + c + d;
      && |w| >= |a| + 2 && w[..|a|] == a && w[|a|] == b[0]
      && w[|a| + 1..|w| - 1] == c && w[|w| - 1] == d[0]
  {
  }

  lemma TagsPageOk<M, E>(config: ResourceBuilderConfig, ctx: Context<M, E>, outShort: Path,
                         tags: TagIndex.Index<ResourceTemplateData<M, E>>)
    requires TagsPage(config, ctx, outShort, tags).outcome.Ok?
    ensures |TagsPage(config, ctx, outShort, tags).out| == 1
    ensures TagsPage(config, ctx, outShort, tags).out[0].path == outShort + ["tags.html"]
  {
  }

  lemma RssStageOk<M, E>(config: ResourceBuilderConfig, ctx: Context<M, E>, outLong: Path,
                         data: seq<ResourceTemplateData<M, E>>)
    requires RssStage(config, ctx, outLong, data).outcome.Ok?
    ensures |RssStage(config, ctx, outLong, data).out| == 1
    ensures RssStage(config, ctx, outLong, data).out[0].path == outLong + ["rss.xml"]
  {
  }

  lemma ItemStepOk<M, E>(config: ResourceBuilderConfig, ctx: Context<M, E>, entry: Entry<M>)
    requires ItemStep(config, ctx, entry).outcome.Ok?
    ensures |ItemStep(config, ctx, entry).out| == 1
    ensures ItemStep(config, ctx, entry).out[0].path == ItemPath(config, ctx.b.buildPath, entry.0)
  {
  }

  lemma ItemWrites<M, E>(config: ResourceBuilderConfig, ctx: Context<M, E>, lmd: seq<Entry<M>>, n: nat)
    requires n <= |lmd| && Steps(lmd, ItemSteps(config, ctx), n).outcome.Ok?
    ensures var out := Steps(lmd, ItemSteps(config, ctx), n).out;
      |out| == n && forall i :: 0 <= i < n ==> out[i].path == ItemPath(config, ctx.b.buildPath, lmd[i].0)
  {
    var f := ItemSteps(config, ctx);
    forall i | 0 <= i < n && f(i, lmd[i]).outcome.Ok?
      ensures |f(i, lmd[i]).out| == 1 && f(i, lmd[i]).out[0].path == ItemPath(config, ctx.b.buildPath, lmd[i].0)
    {
      ItemStepOk(config, ctx, lmd[i]);
    }
    StepsOk(lmd, f, n);
    StepsSingles(lmd, f, n);
  }

  /**
   * The builder: its configuration and the collection `load_all` fills. Building reads the
   * collection and changes nothing.
   */
  class ResourceBuilder<M, E> {
    const config: ResourceBuilderConfig
    var loadedMetadata: seq<Entry<M>>

    constructor(config: ResourceBuilderConfig)
      ensures this.config == config && loadedMetadata == []
    {
      this.config := config;
      loadedMetadata := [];
    }

    /** `load_all`, scanning `<site>/<source path>`; `release` stands for a build without debug assertions. */
    method LoadAll(src: LoadSources<M>, sitePath: Path, release: bool) returns (r: Outcome)
      modifies this
      ensures Run(r, loadedMetadata) == LoadAllSpec(src, Join(sitePath, config.sourcePath), release)
    {
      loadedMetadata := [];
      var listing := src.readDir(Join(sitePath, config.sourcePath));
      if listing.Err? {
        return Err(listing.error);
      }
      var entries := listing.value;
      ghost var f := LoadSteps(src, release);
      for i := 0 to |entries|
        invariant Steps(entries, f, i) == Run(Done, loadedMetadata)
      {
        assert Steps(entries, f, i + 1) == Then(Steps(entries, f, i), LoadStep(src, release, entries[i]));
        var e := entries[i];
        if e.Err? {
          StepsSticky(entries, f, i + 1, |entries|);
          return Err(e.error);
        }
        var p := e.value;
        if Extension(p) == Some("md") {
          var loaded := Load(src, p);
          if loaded.Err? {
            StepsSticky(entries, f, i + 1, |entries|);
            return Err(loaded.error);
          }
          var (id, metadata) := loaded.value;
          if release && metadata.draft {
            continue;
          }
          loadedMetadata := loadedMetadata + [(id, metadata)];
        }
      }
      loadedMetadata := Sorting.SortDesc(loadedMetadata, Timestamp);
      return Done;
    }

    /** `build_all`: the files it writes, in order, and how it ends. */
    method BuildAll(ctx: Context<M, E>) returns (r: Outcome, writes: seq<Write>)
      ensures Run(r, writes) == BuildAllSpec(config, ctx, loadedMetadata)
    {
      var lmd := loadedMetadata;
      r, writes := RunAll(lmd, ItemSteps(config, ctx));
      if r.Err? {
        return;
      }
      var collected := CollectAll(lmd, DataFn(ctx.methods));
      if collected.Err? {
        return collected.PropagateFailure(), writes;
      }
      var data := collected.value;
      var published;
      r, published := PublishAll(config, ctx, data);
      writes := writes + published;
    }
  }

  /** The rest of `build_all`: the main list, the tag map and index, the tag lists and the feed. */
  method PublishAll<M, E>(config: ResourceBuilderConfig, ctx: Context<M, E>, data: seq<ResourceTemplateData<M, E>>)
    returns (r: Outcome, writes: seq<Write>)
    ensures Run(r, writes) == Publish(config, ctx, data)
  {
    var outShort := Join(ctx.b.buildPath, config.outputPathShort);
    var outLong := Join(ctx.b.buildPath, config.outputPathLong);
    r, writes := Pagination.BuildList(ListRendererOf(ctx), config.resourceListTemplate, data, config.listTitle,
                                      None, outLong, config.resourcesPerPage);
    if r.Err? {
      return;
    }
    var tags := TagIndex.AggregateTags(data, TagsOf);
    var page := TagsPage(config, ctx, outShort, tags);
    writes := writes + page.out;
    if page.outcome.Err? {
      return page.outcome, writes;
    }
    var listed;
    r, listed := BuildTagLists(config, ctx, outShort, tags);
    writes := writes + listed;
    if r.Err? {
      return;
    }
    var feed := BuildFeed(config, ctx, outLong, data);
    r, writes := feed.outcome, writes + feed.out;
  }

  /** `for (tag, data) in tags { build_list(..)? }` */
  method BuildTagLists<M, E>(config: ResourceBuilderConfig, ctx: Context<M, E>, outShort: Path,
                             tags: TagIndex.Index<ResourceTemplateData<M, E>>)
    returns (r: Outcome, writes: seq<Write>)
    ensures Run(r, writes) == Steps(tags, TagListSteps(config, ctx, outShort), |tags|)
  {
    ghost var f := TagListSteps(config, ctx, outShort);
    writes := [];
    for i := 0 to |tags|
      invariant Steps(tags, f, i) == Run(Done, writes)
    {
      var res, out := BuildTagList(config, ctx, outShort, tags[i]);
      if res.Err? {
        StepsNextErr(tags, f, i, writes, Run(res, out));
        return res, writes + out;
      }
      StepsNextOk(tags, f, i, writes, Run(res, out));
      writes := writes + out;
    }
    r := Done;
  }

  /** One tag's list: `build_list` over the tag's bucket, under `<short>/tag/<tag>`. */
  method BuildTagList<M, E>(config: ResourceBuilderConfig, ctx: Context<M, E>, outShort: Path,
                            entry: (string, seq<ResourceTemplateData<M, E>>))
    returns (r: Outcome, writes: seq<Write>)
    ensures Run(r, writes) == TagList(config, ctx, outShort, entry)
  {
    var (tag, bucket) := entry;
    r, writes := Pagination.BuildList(ListRendererOf(ctx), config.resourceListTemplate, bucket,
                                      config.resourceNamePlural + " tagged " + tag, Some(tag),
                                      Join(outShort + ["tag"], tag), config.resourcesPerPage);
  }

  /** The RSS part of `build_all`: the items loop, the channel, validation and the write. */
  method BuildFeed<M, E>(config: ResourceBuilderConfig, ctx: Context<M, E>, outLong: Path,
                         data: seq<ResourceTemplateData<M, E>>)
    returns (run: Run<Write>)
    ensures run == RssStage(config, ctx, outLong, data)
  {
    var items := CollectAll(data, RssFn(config, ctx));
    if items.Err? {
      return Run(Err(items.error), []);
    }
    var channel := ChannelOf(config, ctx, items.value);
    if channel.Err? {
      return Run(Err(channel.error), []);
    }
    if !ctx.feed.validate(channel.value) {
      return Run(Err(Fail("Failed to validate RSS feed")), []);
    }
    return Run(Done, [Write(outLong + ["rss.xml"], ctx.feed.serialize(channel.value))]);
  }
}
