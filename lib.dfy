/**
 * src/lib.rs: the site's records, `Site::new` (configuration and the template and page indexes),
 * and the older private `SiteBuilder` of this file with its `build_page` and `Site::build_once`.
 */
module Lib {
  import opened Wrappers
  import opened Paths
  import Text
  import Html

  /**
   * `SiteConfig`. The last three fields are read by src/builder.rs, src/blog.rs and src/images.rs
   * (Sass sheets, page sizes of the blog and the image lists); lib.rs itself does not declare them.
   */
  datatype SiteConfig = SiteConfig(
    baseUrl: string,
    title: string,
    description: string,
    build: Option<string>,
    sassStyles: seq<string>,
    blogPostsPerPage: nat,
    imagesPerPage: nat)

  /** `PageMetadata`: a page's front matter; its `Default` has neither field. */
  datatype PageMetadata = PageMetadata(title: Option<string>, template: Option<string>)

  const DefaultPageMetadata: PageMetadata := PageMetadata(None, None)

  /** `Site`: where the site lives, its configuration, and the template and page indexes. */
  datatype Site = Site(
    sitePath: Path,
    config: SiteConfig,
    templateIndex: map<string, Path>,
    pageIndex: map<string, Path>)

  /** A WalkDir entry: its path and whether it is a regular file. */
  datatype DirEntry = DirEntry(path: Path, isFile: bool)

  /** The entries an index takes: regular files with the given extension. */
  predicate Selected(e: DirEntry, ext: string) {
    Extension(e.path) == Some(ext) && e.isFile
  }

  /** The index key of a file: its path relative to the walked directory, extension removed, displayed. */
  function IndexKey(rel: Path): string {
    Display(WithExtension(rel, ""))
  }

  /** The index after the first entries of a walk; a failed entry or prefix strip is an error. */
  function IndexSpec(entries: seq<Result<DirEntry>>, root: Path, ext: string, what: string): Result<map<string, Path>> {
    if entries == [] then Ok(map[])
    else
      var m :- IndexSpec(entries[..|entries| - 1], root, ext, what);
      match entries[|entries| - 1]
      case Err(_) => Err(Fail("Failed to read " + what + " entry"))
      case Ok(e) =>
        if Selected(e, ext) then
          match StripPrefix(e.path, root)
          case None => Err(Fail("This really shouldn't have happened"))
          case Some(rel) => Ok(m[IndexKey(rel) := e.path])
        else Ok(m)
  }

  lemma {:induction false} IndexSticky(entries: seq<Result<DirEntry>>, root: Path, ext: string, what: string, n: nat)
    requires n <= |entries| && IndexSpec(entries[..n], root, ext, what).Err?
    ensures IndexSpec(entries, root, ext, what) == IndexSpec(entries[..n], root, ext, what)
  {
    if n < |entries| {
      var init := entries[..|entries| - 1];
      assert init[..n] == entries[..n];
      IndexSticky(init, root, ext, what, n);
    } else {
      assert entries[..n] == entries;
    }
  }

  /** One of the two WalkDir loops of `Site::new`, inserting into a `HashMap`. */
  method BuildIndex(entries: seq<Result<DirEntry>>, root: Path, ext: string, what: string)
    returns (r: Result<map<string, Path>>)
    ensures r == IndexSpec(entries, root, ext, what)
  {
    var index: map<string, Path> := map[];
    for i := 0 to |entries|
      invariant IndexSpec(entries[..i], root, ext, what) == Ok(index)
    {
      assert entries[..i + 1][..i] == entries[..i];
      match entries[i] {
        case Err(_) =>
          IndexSticky(entries, root, ext, what, i + 1);
          return Err(Fail("Failed to read " + what + " entry"));
        case Ok(e) =>
          if Extension(e.path) == Some(ext) && e.isFile {
            var rel := StripPrefix(e.path, root);
            if rel.None? {
              IndexSticky(entries, root, ext, what, i + 1);
              return Err(Fail("This really shouldn't have happened"));
            }
            index := index[IndexKey(rel.value) := e.path];
          }
      }
    }
    assert entries[..|entries|] == entries;
    return Ok(index);
  }

  /** The entry `i` is a selected file under `root` whose key is `k`. */
  ghost predicate Indexed(entries: seq<Result<DirEntry>>, root: Path, ext: string, i: int, k: string) {
    && 0 <= i < |entries| && entries[i].Ok? && Selected(entries[i].value, ext)
    && StripPrefix(entries[i].value.path, root).Some?
    && IndexKey(StripPrefix(entries[i].value.path, root).value) == k
  }

  /** A successful walk read every entry, and every selected file lies under the root. */
  lemma {:induction false} IndexAllRead(entries: seq<Result<DirEntry>>, root: Path, ext: string, what: string)
    requires IndexSpec(entries, root, ext, what).Ok?
    ensures forall i :: 0 <= i < |entries| ==> entries[i].Ok?
    ensures forall i :: 0 <= i < |entries| && entries[i].Ok? && Selected(entries[i].value, ext) ==>
      StripPrefix(entries[i].value.path, root).Some?
  {
    if entries != [] {
      var init := entries[..|entries| - 1];
      IndexAllRead(init, root, ext, what);
      forall i | 0 <= i < |entries| - 1 ensures entries[i] == init[i] {
      }
    }
  }

  /** One more entry of a successful walk: the index before it, with the entry's key set when it is selected. */
  lemma IndexStep(entries: seq<Result<DirEntry>>, root: Path, ext: string, what: string)
    requires entries != [] && IndexSpec(entries, root, ext, what).Ok?
    ensures IndexSpec(entries[..|entries| - 1], root, ext, what).Ok? && entries[|entries| - 1].Ok?
    ensures var e := entries[|entries| - 1].value;
      var m0 := IndexSpec(entries[..|entries| - 1], root, ext, what).value;
      var m := IndexSpec(entries, root, ext, what).value;
      && (Selected(e, ext) ==> StripPrefix(e.path, root).Some? && m == m0[IndexKey(StripPrefix(e.path, root).value) := e.path])
      && (!Selected(e, ext) ==> m == m0)
  {
  }

  /** One more entry of a successful walk keeps the key `k` if it had it, and adds the entry's key when it is selected. */
  lemma IndexKeysStep(entries: seq<Result<DirEntry>>, root: Path, ext: string, what: string, i: int, k: string)
    requires IndexSpec(entries, root, ext, what).Ok? && Indexed(entries, root, ext, i, k)
    ensures IndexSpec(entries[..|entries| - 1], root, ext, what).Ok?
    ensures k in IndexSpec(entries[..|entries| - 1], root, ext, what).value ==> k in IndexSpec(entries, root, ext, what).value
    ensures i == |entries| - 1 ==> k in IndexSpec(entries, root, ext, what).value
  {
    IndexStep(entries, root, ext, what);
  }

  /** Every selected file of a successful walk has its key in the index. */
  lemma {:induction false} IndexComplete(entries: seq<Result<DirEntry>>, root: Path, ext: string, what: string, i: int, k: string)
    requires IndexSpec(entries, root, ext, what).Ok? && Indexed(entries, root, ext, i, k)
    ensures k in IndexSpec(entries, root, ext, what).value
    decreases |entries|
  {
    var n := |entries| - 1;
    var init := entries[..n];
    IndexKeysStep(entries, root, ext, what, i, k);
    if i < n {
      IndexedPrefix(entries, root, ext, n, i, k);
      IndexComplete(init, root, ext, what, i, k);
    }
  }

  lemma IndexedPrefix(entries: seq<Result<DirEntry>>, root: Path, ext: string, n: nat, i: int, k: string)
    requires i < n <= |entries| && Indexed(entries, root, ext, i, k)
    ensures Indexed(entries[..n], root, ext, i, k)
  {
    assert entries[..n][i] == entries[i];
  }

  /** Every key of a successful walk maps to the path of a selected file with that key, which is returned. */
  lemma {:induction false} IndexSound(entries: seq<Result<DirEntry>>, root: Path, ext: string, what: string, k: string)
    returns (i: int)
    requires IndexSpec(entries, root, ext, what).Ok? && k in IndexSpec(entries, root, ext, what).value
    ensures Indexed(entries, root, ext, i, k) && IndexSpec(entries, root, ext, what).value[k] == entries[i].value.path
  {
    var init := entries[..|entries| - 1];
    var n := |entries| - 1;
    IndexStep(entries, root, ext, what);
    if Indexed(entries, root, ext, n, k) {
      i := n;
    } else {
      i := IndexSound(init, root, ext, what, k);
      assert entries[i] == init[i];
    }
  }

  /** A normal path with an extension is its extensionless form with `.ext` put back on the last component. */
  lemma WithoutExtensionShape(r: Path, ext: string)
    requires NormalPath(r) && Extension(r) == Some(ext)
    ensures var w := WithExtension(r, "");
      && |w| == |r| >= 1 && (forall i :: 0 <= i < |w| ==> '/' !in w[i])
      && r == w[..|w| - 1] + [w[|w| - 1] + "." + ext]
  {
    var w := WithExtension(r, "");
    var n := r[|r| - 1];
    var stem := SplitAtDot(n).0;
    assert w == r[..|r| - 1] + [stem];
    forall i | 0 <= i < |w| ensures '/' !in w[i] {
      if i < |r| - 1 {
        assert w[i] == r[i];
      }
    }
    assert n == stem + "." + ext;
    assert r == r[..|r| - 1] + [n];
  }

  /** Two files with the same extension and the same key relative to a directory are the same file. */
  lemma IndexKeyInjective(r1: Path, r2: Path, ext: string)
    requires NormalPath(r1) && NormalPath(r2)
    requires Extension(r1) == Some(ext) && Extension(r2) == Some(ext)
    requires IndexKey(r1) == IndexKey(r2)
    ensures r1 == r2
  {
    WithoutExtensionShape(r1, ext);
    WithoutExtensionShape(r2, ext);
    DisplayInjective(WithExtension(r1, ""), WithExtension(r2, ""));
  }

  /** A walk whose entries below the root have normal relative paths, and whose files lie strictly below it. */
  ghost predicate WellFormedWalk(entries: seq<Result<DirEntry>>, root: Path) {
    forall i :: 0 <= i < |entries| && entries[i].Ok? && StripPrefix(entries[i].value.path, root).Some? ==>
      NormalPath(entries[i].value.path[|root|..]) && (entries[i].value.isFile ==> |root| < |entries[i].value.path|)
  }

  /**
   * A successful walk indexes exactly the selected files: every selected file is the value of its
   * own key, so no file is hidden by another, and every key belongs to a selected file.
   */
  lemma IndexExact(entries: seq<Result<DirEntry>>, root: Path, ext: string, what: string)
    requires IndexSpec(entries, root, ext, what).Ok? && WellFormedWalk(entries, root)
    ensures var m := IndexSpec(entries, root, ext, what).value;
      && (forall k :: k in m <==> exists i :: Indexed(entries, root, ext, i, k))
      && (forall i :: 0 <= i < |entries| && entries[i].Ok? && Selected(entries[i].value, ext) ==>
            && StripPrefix(entries[i].value.path, root).Some?
            && IndexKey(StripPrefix(entries[i].value.path, root).value) in m
            && m[IndexKey(StripPrefix(entries[i].value.path, root).value)] == entries[i].value.path)
  {
    IndexAllRead(entries, root, ext, what);
    var m := IndexSpec(entries, root, ext, what).value;
    forall k ensures k in m <==> exists i :: Indexed(entries, root, ext, i, k) {
      if k in m {
        var i := IndexSound(entries, root, ext, what, k);
      }
      if exists i :: Indexed(entries, root, ext, i, k) {
        var i :| Indexed(entries, root, ext, i, k);
        IndexComplete(entries, root, ext, what, i, k);
      }
    }
    forall i | 0 <= i < |entries| && entries[i].Ok? && Selected(entries[i].value, ext)
      ensures IndexKey(entries[i].value.path[|root|..]) in m
      ensures m[IndexKey(entries[i].value.path[|root|..])] == entries[i].value.path
    {
      var p := entries[i].value.path;
      var k := IndexKey(p[|root|..]);
      IndexComplete(entries, root, ext, what, i, k);
      var j := IndexSound(entries, root, ext, what, k);
      var q := entries[j].value.path;
      RelativeExtension(p, root);
      RelativeExtension(q, root);
      IndexKeyInjective(p[|root|..], q[|root|..], ext);
      assert p == root + p[|root|..] && q == root + q[|root|..];
    }
  }

  lemma RelativeExtension(p: Path, root: Path)
    requires StripPrefix(p, root).Some? && |root| < |p| && NormalPath(p[|root|..])
    ensures Extension(p[|root|..]) == Extension(p)
  {
    var r := p[|root|..];
    assert r[|r| - 1] == p[|p| - 1];
    assert NormalComponent(r[|r| - 1]);
    assert TrimCurDir(r) == r && TrimCurDir(p) == p;
  }

  /** What `Site::new` reads: the configuration file and the two directory walks. */
  datatype SiteSources = SiteSources(
    readFile: Path -> Result<string>,
    parseConfig: string -> Result<SiteConfig>,
    walk: Path -> seq<Result<DirEntry>>)

  /** `Site::new`, with the error each failing step reports. */
  function NewSiteSpec(sitePath: Path, src: SiteSources): Result<Site> {
    match src.readFile(sitePath + ["config.yaml"])
    case Err(_) => Err(Fail("Failed to read site config"))
    case Ok(text) =>
      match src.parseConfig(text)
      case Err(_) => Err(Fail("Failed to parse site config"))
      case Ok(config) =>
        var templates :- IndexSpec(src.walk(sitePath + ["templates"]), sitePath + ["templates"], "hbs", "template");
        var pages :- IndexSpec(src.walk(sitePath + ["pages"]), sitePath + ["pages"], "md", "page");
        Ok(Site(sitePath, config, templates, pages))
  }

  method NewSite(sitePath: Path, src: SiteSources) returns (r: Result<Site>)
    ensures r == NewSiteSpec(sitePath, src)
  {
    var text := src.readFile(sitePath + ["config.yaml"]);
    if text.Err? {
      return Err(Fail("Failed to read site config"));
    }
    var config := src.parseConfig(text.value);
    if config.Err? {
      return Err(Fail("Failed to parse site config"));
    }
    var templatesPath := sitePath + ["templates"];
    var templates := BuildIndex(src.walk(templatesPath), templatesPath, "hbs", "template");
    if templates.Err? {
      return Err(templates.error);
    }
    var pagesPath := sitePath + ["pages"];
    var pages := BuildIndex(src.walk(pagesPath), pagesPath, "md", "page");
    if pages.Err? {
      return Err(pages.error);
    }
    return Ok(Site(sitePath, config.value, templates.value, pages.value));
  }

  /** `site_path.join(build)` when the configuration names a build directory, else `site_path/build`. */
  function BuildPath(sitePath: Path, build: Option<string>): Path {
    match build
    case Some(b) => Join(sitePath, b)
    case None => sitePath + ["build"]
  }

  /** The build directory lies inside the site directory unless the configuration gives an absolute path. */
  lemma BuildPathInsideSite(sitePath: Path, build: Option<string>)
    requires build.Some? ==> !Text.StartsWith(build.value, "/")
    ensures StripPrefix(BuildPath(sitePath, build), sitePath).Some?
    ensures build.None? ==> BuildPath(sitePath, build) == sitePath + ["build"]
    ensures build.Some? && NormalComponent(build.value) ==> BuildPath(sitePath, build) == sitePath + [build.value]
  {
    var p := BuildPath(sitePath, build);
    assert p[..|sitePath|] == sitePath;
    if build.Some? && NormalComponent(build.value) {
      JoinName(sitePath, build.value);
    }
  }

  /** lib.rs's own `SiteBuilder`: the site, its build directory and the optional local-mode base. */
  datatype SiteBuilder = SiteBuilder(site: Site, buildPath: Path, localMode: Option<string>)

  function NewBuilder(site: Site, localMode: Option<string>): (b: SiteBuilder)
    ensures b.site == site && b.localMode == localMode
    ensures b.buildPath == BuildPath(site.sitePath, site.config.build)
  {
    SiteBuilder(site, BuildPath(site.sitePath, site.config.build), localMode)
  }

  /** The outer template a page is rendered with. */
  function TemplateName(meta: PageMetadata): (r: string)
    ensures meta.template.None? ==> r == "base"
    ensures meta.template.Some? ==> r == meta.template.value
  {
    meta.template.GetOr("base")
  }

  /** The `<title>` text: `{site title} / {page title}`, or the site title alone. */
  function PageTitle(siteTitle: string, pageTitle: Option<string>): string {
    match pageTitle
    case Some(t) => siteTitle + " / " + t
    case None => siteTitle
  }

  /**
   * A page title shows the site title first, then (when there is one) ` / ` and the page's title;
   * different page titles give different titles.
   */
  lemma PageTitleShape(siteTitle: string, a: Option<string>, b: Option<string>)
    ensures Text.StartsWith(PageTitle(siteTitle, a), siteTitle)
    ensures a.None? ==> PageTitle(siteTitle, a) == siteTitle
    ensures a.Some? ==> PageTitle(siteTitle, a)[|siteTitle|..] == " / " + a.value
    ensures PageTitle(siteTitle, a) == PageTitle(siteTitle, b) ==> a == b
  {
    var ta, tb := PageTitle(siteTitle, a), PageTitle(siteTitle, b);
    if a.Some? {
      assert ta[|siteTitle|..] == " / " + a.value;
      assert a.value == ta[|siteTitle| + 3..];
    }
    if b.Some? {
      assert b.value == tb[|siteTitle| + 3..];
    }
  }

  /** The `<base href>` of lib.rs' builder: the local-mode base when set, else the configured base URL. */
  function BaseHref(b: SiteBuilder): (r: string)
    ensures b.localMode.Some? ==> r == b.localMode.value
    ensures b.localMode.None? ==> r == b.site.config.baseUrl
  {
    b.localMode.GetOr(b.site.config.baseUrl)
  }

  const Charset: string := "<meta charset=\"utf-8\">"

  function TitleTag(title: string): string {
    "<title>" + title + "</title>"
  }

  function BaseTag(base: string): string {
    "<base href=\"" + base + "\">"
  }

  /** The `head` handler of lib.rs: the charset first; the title and the base at the end. Anchors are untouched. */
  function OldHandlers(title: string, base: string): Html.Handlers {
    Html.Handlers([Charset], [TitleTag(title), BaseTag(base)], m => m)
  }

  /** Every `head` element of the page receives exactly one new title tag and one new base tag. */
  lemma OldHeadInjection(doc: seq<Html.Node>, title: string, base: string)
    ensures var out := Html.RewriteNodes(doc, OldHandlers(title, base));
      && Html.CountRaw(out, TitleTag(title)) == Html.CountRaw(doc, TitleTag(title)) + Html.CountElements(doc, "head")
      && Html.CountRaw(out, BaseTag(base)) == Html.CountRaw(doc, BaseTag(base)) + Html.CountElements(doc, "head")
      && Html.CountElements(out, "head") == Html.CountElements(doc, "head")
  {
    var h := OldHandlers(title, base);
    assert TitleTag(title)[1] == 't' && BaseTag(base)[1] == 'b' && Charset[1] == 'm';
    assert Html.Occurrences(h.prepend, TitleTag(title)) == 0;
    assert Html.Occurrences(h.append, TitleTag(title)) == 1 by {
      assert h.append[1..] == [BaseTag(base)];
      assert h.append[1..][1..] == [];
    }
    assert Html.Occurrences(h.prepend, BaseTag(base)) == 0;
    assert Html.Occurrences(h.append, BaseTag(base)) == 1 by {
      assert h.append[1..] == [BaseTag(base)];
      assert h.append[1..][1..] == [];
    }
    Html.RewriteCountRaw(doc, h, TitleTag(title));
    Html.RewriteCountRaw(doc, h, BaseTag(base));
    Html.RewriteCountElements(doc, h, "head");
  }

  /** The libraries lib.rs' `build_page` calls, as parameters. */
  datatype OldEnv = OldEnv(
    readFile: Path -> Result<string>,
    matterStruct: string -> Result<(PageMetadata, string)>,
    markdown: string -> string,
    render: (string, string) -> Result<string>,
    parseHtml: string -> Result<seq<Html.Node>>,
    serializeHtml: seq<Html.Node> -> string)

  /** `SiteBuilder::build_page` of lib.rs: the file it writes and what it writes there. */
  function BuildPage(env: OldEnv, b: SiteBuilder, name: string): Result<Write> {
    if name !in b.site.pageIndex then Err(Panic("called `Option::unwrap()` on a `None` value"))
    else
      var pagePath := b.site.pageIndex[name];
      match env.readFile(pagePath)
      case Err(_) => Err(Fail("Failed to read page at " + Display(pagePath)))
      case Ok(input) =>
        var (meta, content) :- env.matterStruct(input);
        var out :- env.render(TemplateName(meta), env.markdown(content));
        var title := PageTitle(b.site.config.title, meta.title);
        var doc :- env.parseHtml(out);
        var html := env.serializeHtml(Html.RewriteNodes(doc, OldHandlers(title, BaseHref(b))));
        Ok(Write(WithExtension(Join(b.buildPath, name), "html"), html))
  }

  /**
   * A page is written to `<build path>/<page name>.html`; a page name missing from the index is a
   * panic. For a name with a dot the part after the last dot is replaced by `html`.
   */
  lemma BuildPageTarget(env: OldEnv, b: SiteBuilder, name: string)
    ensures name !in b.site.pageIndex ==> BuildPage(env, b, name).Err? && BuildPage(env, b, name).error.Panic?
    ensures BuildPage(env, b, name).Ok? && NormalComponent(name) && '.' !in name ==>
              BuildPage(env, b, name).value.path == b.buildPath + [name + ".html"]
  {
    if NormalComponent(name) && '.' !in name {
      JoinName(b.buildPath, name);
      WithExtensionNoDot(b.buildPath, name, "html");
      assert name + "." + "html" == name + ".html";
    }
  }

  /** Adding one fresh name, and the value built for it, keeps the loop invariant of `build_once`. */
  lemma Extend<V>(order: seq<string>, writes: seq<V>, name: string, v: V, index: map<string, Path>,
                  remaining: set<string>, built: (string, V) -> bool)
    requires name in remaining && remaining <= index.Keys && built(name, v)
    requires forall k :: k in index ==> (k in remaining <==> k !in order)
    requires forall i, j :: 0 <= i < j < |order| ==> order[i] != order[j]
    requires forall i :: 0 <= i < |order| ==> order[i] in index
    requires |writes| == |order| && forall i :: 0 <= i < |writes| ==> built(order[i], writes[i])
    ensures var o := order + [name]; var w := writes + [v];
      && (forall k :: k in index ==> (k in remaining - {name} <==> k !in o))
      && (forall i, j :: 0 <= i < j < |o| ==> o[i] != o[j])
      && (forall i :: 0 <= i < |o| ==> o[i] in index)
      && |w| == |o| && forall i :: 0 <= i < |w| ==> built(o[i], w[i])
  {
  }

  /**
   * `Site::build_once`: prepare the build directory (its outcome is a parameter), then build every
   * page of the index in the map's iteration order, stopping at the first error. The order taken is
   * returned with the files written.
   */
  method BuildOnce(site: Site, env: OldEnv, prepared: Outcome)
    returns (r: Outcome, order: seq<string>, writes: seq<Write>)
    ensures prepared.Err? ==> r == prepared && order == [] && writes == []
    ensures forall i, j :: 0 <= i < j < |order| ==> order[i] != order[j]
    ensures forall i :: 0 <= i < |order| ==> order[i] in site.pageIndex
    ensures r.Ok? ==> |writes| == |order| && forall k :: k in site.pageIndex <==> k in order
    ensures r.Err? && prepared.Ok? ==>
              |order| == |writes| + 1 && BuildPage(env, NewBuilder(site, None), order[|writes|]) == Err(r.error)
    ensures forall i :: 0 <= i < |writes| ==> BuildPage(env, NewBuilder(site, None), order[i]) == Ok(writes[i])
  {
    order, writes := [], [];
    if prepared.Err? {
      return prepared, order, writes;
    }
    var builder := NewBuilder(site, None);
    var remaining := site.pageIndex.Keys;
    while remaining != {}
      invariant remaining <= site.pageIndex.Keys
      invariant forall k :: k in site.pageIndex ==> (k in remaining <==> k !in order)
      invariant forall i, j :: 0 <= i < j < |order| ==> order[i] != order[j]
      invariant forall i :: 0 <= i < |order| ==> order[i] in site.pageIndex
      invariant |writes| == |order|
      invariant forall i :: 0 <= i < |writes| ==> BuildPage(env, builder, order[i]) == Ok(writes[i])
      decreases remaining
    {
      var name :| name in remaining;
      var w := BuildPage(env, builder, name);
      if w.Err? {
        return Err(w.error), order + [name], writes;
      }
      Extend(order, writes, name, w.value, site.pageIndex, remaining, (k: string, v: Write) => BuildPage(env, builder, k) == Ok(v));
      order := order + [name];
      writes := writes + [w.value];
      remaining := remaining - {name};
    }
    r := Done;
  }
}
