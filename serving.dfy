/**
 * The development server of src/serving.rs: how a file-system event under the site becomes index
 * updates and build actions, when connected browsers are told to reload, and how a request path
 * is resolved to a file in the build directory.
 *
 * The builder's work (building a page, all pages, the images or the Sass, copying and removing
 * files, registering templates) is recorded as a log of actions whose outcomes are a parameter.
 */
module Serving {
  import opened Wrappers
  import opened Paths
  import Text
  import Lib
  import Builder
  import Resource
  import Images

  /** The site's directory layout: the crate's `PAGES_PATH`, `TEMPLATES_PATH`, `STATIC_PATH`, `SASS_PATH` and `ROOT_PATH`. */
  datatype Layout = Layout(pagesPath: Path, templatesPath: Path, staticPath: Path, sassPath: Path, rootPath: Path)

  /** `get_name`: a path without its extension, and its display. */
  function GetName(p: Path): (Path, string) {
    var name := WithExtension(p, "");
    (name, Display(name))
  }

  /** `rel`: a path relative to a prefix, failing when the prefix does not lead it. */
  function Rel(p: Path, prefix: Path): (r: Result<Path>)
    ensures r.Ok? <==> |prefix| <= |p| && p[..|prefix|] == prefix
    ensures r.Ok? ==> p == prefix + r.value
  {
    match StripPrefix(p, prefix)
    case None => Err(Fail("prefix not found"))
    case Some(rest) => Ok(rest)
  }

  /** `skip_path`: events inside the build directory are the server's own output. */
  predicate SkipPath(buildPath: Path, p: Path) {
    StripPrefix(p, buildPath).Some?
  }

  lemma SkipPathUnder(buildPath: Path, p: Path)
    ensures SkipPath(buildPath, p) <==> exists rest: Path :: p == buildPath + rest
  {
    if |buildPath| <= |p| && p[..|buildPath|] == buildPath {
      assert p == buildPath + p[|buildPath|..];
    }
    if exists rest: Path :: p == buildPath + rest {
      var rest: Path :| p == buildPath + rest;
      assert p[..|buildPath|] == buildPath;
    }
  }

  /** What a changed file is, by the first directory of the layout that leads its site-relative path. */
  datatype Kind =
    | PageKind(page: Path)
    | TemplateKind(template: Path)
    | StaticKind
    | ConfigKind
    | SassKind
    | RootKind(rest: Path)
    | ImageKind
    | Unwatched

  predicate Under(rel: Path, dir: Path) {
    StripPrefix(rel, dir).Some?
  }

  /**
   * The `if let … else if …` chain of `create` (`creating`) and `remove`: pages, templates,
   * static files, `config.yaml` (only when creating), Sass, root files, images.
   */
  function Classify(l: Layout, rel: Path, creating: bool): Kind {
    if Under(rel, l.pagesPath) then PageKind(rel[|l.pagesPath|..])
    else if Under(rel, l.templatesPath) then TemplateKind(rel[|l.templatesPath|..])
    else if Under(rel, l.staticPath) then StaticKind
    else if creating && Display(rel) == "config.yaml" then ConfigKind
    else if Under(rel, l.sassPath) then SassKind
    else if Under(rel, l.rootPath) then RootKind(rel[|l.rootPath|..])
    else if Under(rel, [Images.ImagesPath]) then ImageKind
    else Unwatched
  }

  /** The first matching directory wins, in the fixed order; `remove` never treats a path as the configuration. */
  lemma ClassifyFirstMatch(l: Layout, rel: Path, creating: bool)
    ensures var k := Classify(l, rel, creating);
      var config := creating && Display(rel) == "config.yaml";
      && (k.PageKind? <==> Under(rel, l.pagesPath))
      && (k.PageKind? ==> rel == l.pagesPath + k.page)
      && (k.TemplateKind? <==> !Under(rel, l.pagesPath) && Under(rel, l.templatesPath))
      && (k.TemplateKind? ==> rel == l.templatesPath + k.template)
      && (k.StaticKind? <==> !Under(rel, l.pagesPath) && !Under(rel, l.templatesPath) && Under(rel, l.staticPath))
      && (k.ConfigKind? <==>
            !Under(rel, l.pagesPath) && !Under(rel, l.templatesPath) && !Under(rel, l.staticPath) && config)
      && (k.SassKind? <==>
            !Under(rel, l.pagesPath) && !Under(rel, l.templatesPath) && !Under(rel, l.staticPath) && !config
            && Under(rel, l.sassPath))
      && (k.RootKind? <==>
            !Under(rel, l.pagesPath) && !Under(rel, l.templatesPath) && !Under(rel, l.staticPath) && !config
            && !Under(rel, l.sassPath) && Under(rel, l.rootPath))
      && (k.RootKind? ==> rel == l.rootPath + k.rest)
      && (k.ImageKind? <==>
            !Under(rel, l.pagesPath) && !Under(rel, l.templatesPath) && !Under(rel, l.staticPath) && !config
            && !Under(rel, l.sassPath) && !Under(rel, l.rootPath) && Under(rel, [Images.ImagesPath]))
      && (!creating ==> !k.ConfigKind?)
  {
  }

  /** A step of the builder's work that `create` and `remove` ask for. */
  datatype Action =
    | BuildPage(name: string)
    | RefreshTemplate(name: string, path: Path)
    | UnregisterTemplate(name: string)
    | BuildAllPages
    | BuildImages
    | BuildSass
    | CopyFile(from: Path, to: Path)
    | RemoveFile(path: Path)

  /** The file system and the builder as the watcher sees them. */
  datatype Io = Io(
    isDir: Path -> bool,
    perform: Action -> Outcome,
    readFile: Path -> Result<string>,
    parseConfig: string -> Result<Lib.SiteConfig>)

  /**
   * Performing actions in order with `?`: the actions attempted, which are all of them when every
   * one succeeds and otherwise stop at the first failure, whose error is the result.
   */
  function RunActions(io: Io, acts: seq<Action>): (r: (Outcome, seq<Action>))
    ensures r.0.Ok? <==> forall j :: 0 <= j < |acts| ==> io.perform(acts[j]).Ok?
    ensures r.0.Ok? ==> r.1 == acts
    ensures r.0.Err? ==>
      && 0 < |r.1| <= |acts| && r.1 == acts[..|r.1|]
      && r.0 == io.perform(acts[|r.1| - 1])
      && forall j :: 0 <= j < |r.1| - 1 ==> io.perform(acts[j]).Ok?
  {
    if acts == [] then (Done, [])
    else
      var first := io.perform(acts[0]);
      if first.Err? then (first, [acts[0]])
      else
        var (o, rest) := RunActions(io, acts[1..]);
        assert forall j :: 1 <= j < |acts| ==> acts[j] == acts[1..][j - 1];
        (o, [acts[0]] + rest)
  }

  /** A run that fails at `k`, after `k` successes, has attempted `acts[..k + 1]`. */
  lemma {:induction false} RunActionsFailsAt(io: Io, acts: seq<Action>, k: nat)
    requires k < |acts| && io.perform(acts[k]).Err?
    requires forall j :: 0 <= j < k ==> io.perform(acts[j]).Ok?
    ensures RunActions(io, acts) == (io.perform(acts[k]), acts[..k + 1])
  {
    if k > 0 {
      assert forall j :: 0 <= j < k - 1 ==> acts[1..][j] == acts[j + 1];
      RunActionsFailsAt(io, acts[1..], k - 1);
      assert acts[..k + 1] == [acts[0]] + acts[1..][..k];
    }
  }

  /** A single action is attempted, and its outcome is the run's. */
  lemma RunOne(io: Io, a: Action)
    ensures RunActions(io, [a]) == (io.perform(a), [a])
  {
    if io.perform(a).Ok? {
      assert io.perform(a).value == ();
    }
  }

  /** What handling one event did: its result, the site afterwards and the actions attempted. */
  datatype Effect<T> = Effect(result: Result<T>, site: Lib.Site, actions: seq<Action>)

  function Perform(io: Io, site: Lib.Site, acts: seq<Action>): Effect<()> {
    var (o, done) := RunActions(io, acts);
    Effect(o, site, done)
  }

  /** anyhow's `context`: an error is replaced by one carrying the message. */
  function Context(o: Outcome, msg: string): Outcome {
    if o.Err? then Err(Fail(msg)) else o
  }

  function WithContext(e: Effect<()>, msg: string): Effect<()> {
    Effect(Context(e.result, msg), e.site, e.actions)
  }

  /** Rust's `{:?}` of a path: its display in quotes. */
  function Quoted(p: Path): string {
    "\"" + Display(p) + "\""
  }

  /** `create`: a file under the site was created or changed. */
  function CreateSpec(l: Layout, buildPath: Path, site: Lib.Site, io: Io, path: Path, rel: Path, build: bool): Effect<()> {
    if io.isDir(path) then Effect(Done, site, []) else CreateAs(Classify(l, rel, true), buildPath, site, io, path, rel, build)
  }

  /** `create` on a file, once its kind is known. */
  function CreateAs(k: Kind, buildPath: Path, site: Lib.Site, io: Io, path: Path, rel: Path, build: bool): Effect<()> {
    match k
      case PageKind(page) =>
        var name := GetName(page).1;
        Perform(io, site.(pageIndex := site.pageIndex[name := path]), if build then [BuildPage(name)] else [])
      case TemplateKind(template) =>
        var name := GetName(template).1;
        Perform(io, site, [RefreshTemplate(name, path)] + (if build then [BuildAllPages, BuildImages] else []))
      case StaticKind =>
        Perform(io, site, [CopyFile(path, buildPath + rel)])
      case ConfigKind =>
        (match io.readFile(path)
         case Err(e) => Effect(Err(e), site, [])
         case Ok(text) =>
           match io.parseConfig(text)
           case Err(e) => Effect(Err(e), site, [])
           case Ok(config) => Perform(io, site.(config := config), [BuildAllPages]))
      case SassKind =>
        WithContext(Perform(io, site, if build then [BuildSass] else []), "Failed to rebuild Sass")
      case RootKind(rest) =>
        Perform(io, site, [CopyFile(path, buildPath + rest)])
      case ImageKind =>
        Perform(io, site, [BuildImages])
      case Unwatched =>
        Effect(Done, site, [])
  }

  /** Where a removed image's page is: the item page of its id among the images. */
  function ImagePage(site: Lib.Site, buildPath: Path, id: string): Path {
    Resource.ItemPath(Images.Config(site.config.imagesPerPage), buildPath, id)
  }

  /** `remove`: a file under the site was removed. */
  function RemoveSpec(l: Layout, buildPath: Path, site: Lib.Site, io: Io, path: Path, rel: Path): Effect<()> {
    if io.isDir(path) then Effect(Done, site, []) else RemoveAs(Classify(l, rel, false), buildPath, site, io, path, rel)
  }

  /** `remove` on a file, once its kind is known. */
  function RemoveAs(k: Kind, buildPath: Path, site: Lib.Site, io: Io, path: Path, rel: Path): Effect<()> {
    match k
      case PageKind(page) =>
        var (name, nameStr) := GetName(page);
        WithContext(Perform(io, site.(pageIndex := site.pageIndex - {nameStr}), [RemoveFile(buildPath + WithExtension(name, "html"))]),
                    "Failed to remove page at " + Quoted(path))
      case TemplateKind(template) =>
        var name := GetName(template).1;
        var e := WithContext(Perform(io, site.(templateIndex := site.templateIndex - {name}), [BuildAllPages]),
                             "Failed to rebuild pages");
        Effect(e.result, e.site, [UnregisterTemplate(name)] + e.actions)
      case StaticKind =>
        WithContext(Perform(io, site, [RemoveFile(buildPath + rel)]), "Failed to remove file at " + Quoted(buildPath + rel))
      case SassKind =>
        WithContext(Perform(io, site, [BuildSass]), "Failed to rebuild Sass")
      case RootKind(rest) =>
        Perform(io, site, [RemoveFile(buildPath + rest)])
      case ImageKind =>
        (match Resource.GetId(path)
         case Err(e) => Effect(Err(e), site, [])
         case Ok(id) => Perform(io, site, [RemoveFile(ImagePage(site, buildPath, id)), BuildImages]))
      case _ =>
        Effect(Done, site, [])
  }

  /** A directory event changes nothing and succeeds, whether created or removed. */
  lemma DirectoryIgnored(l: Layout, buildPath: Path, site: Lib.Site, io: Io, path: Path, rel: Path, build: bool)
    requires io.isDir(path)
    ensures CreateSpec(l, buildPath, site, io, path, rel, build) == Effect(Done, site, [])
    ensures RemoveSpec(l, buildPath, site, io, path, rel) == Effect(Done, site, [])
  {
  }

  /**
   * A created page is always indexed under its path without the extension, pointing at the file;
   * it is built, and the build's outcome is the result, only when `build` is set.
   */
  lemma CreatePage(l: Layout, buildPath: Path, site: Lib.Site, io: Io, path: Path, rel: Path, build: bool)
    requires !io.isDir(path) && Under(rel, l.pagesPath)
    ensures var e := CreateSpec(l, buildPath, site, io, path, rel, build);
      var name := Display(WithExtension(rel[|l.pagesPath|..], ""));
      && e.site == site.(pageIndex := site.pageIndex[name := path])
      && e.site.pageIndex[name] == path
      && (build ==> e.actions == [BuildPage(name)] && e.result == io.perform(BuildPage(name)))
      && (!build ==> e.actions == [] && e.result == Done)
  {
    var name := Display(WithExtension(rel[|l.pagesPath|..], ""));
    RunOne(io, BuildPage(name));
  }

  /**
   * A removed page leaves the index, and the page built from it, `<build>/<name>.html`, is what
   * gets removed; a failure to remove it is reported with the source path.
   */
  lemma RemovePage(l: Layout, buildPath: Path, site: Lib.Site, io: Io, path: Path, rel: Path)
    requires !io.isDir(path) && Under(rel, l.pagesPath)
    ensures var e := RemoveSpec(l, buildPath, site, io, path, rel);
      var page := rel[|l.pagesPath|..];
      var target := buildPath + WithExtension(WithExtension(page, ""), "html");
      && e.site == site.(pageIndex := site.pageIndex - {Display(WithExtension(page, ""))})
      && e.actions == [RemoveFile(target)]
      && (e.result.Err? <==> io.perform(RemoveFile(target)).Err?)
      && (e.result.Err? ==> e.result == Err(Fail("Failed to remove page at " + Quoted(path))))
  {
  }

  /** For a page `<dir>/<name>.md` with a dot-free name, the removed file is `<build>/<dir>/<name>.html`. */
  lemma RemovedPageFile(dir: Path, name: string)
    requires NormalComponent(name) && '.' !in name
    ensures WithExtension(WithExtension(dir + [name + ".md"], ""), "html") == dir + [name + ".html"]
  {
    var file := name + ".md";
    assert file == name + "." + "md";
    Paths.LastDotAppend(name, "md");
    assert file != ".." by {
      assert file[|name| + 1] == 'm';
    }
    assert |name| > 0;
    assert file[..|name|] == name;
    assert SplitAtDot(file) == (name, Some("md"));
    assert '/' !in file by {
      forall k | 0 <= k < |file| ensures file[k] != '/' {
        if k < |name| { assert file[k] == name[k]; }
      }
    }
    WithExtensionName(dir, file, "");
    assert WithExtension(dir + [file], "") == dir + [name];
    WithExtensionNoDot(dir, name, "html");
    assert name + "." + "html" == name + ".html";
  }

  /** A change to the configuration file replaces the site's configuration and rebuilds every page. */
  lemma CreateConfig(l: Layout, buildPath: Path, site: Lib.Site, io: Io, path: Path, rel: Path, build: bool)
    requires !io.isDir(path) && Classify(l, rel, true) == ConfigKind
    requires io.readFile(path).Ok? && io.parseConfig(io.readFile(path).value).Ok?
    ensures var e := CreateSpec(l, buildPath, site, io, path, rel, build);
      && e.site == site.(config := io.parseConfig(io.readFile(path).value).value)
      && e.actions == [BuildAllPages]
      && e.result == io.perform(BuildAllPages)
  {
    RunOne(io, BuildAllPages);
  }

  /** A file-system event as hotwatch reports it; the kinds the server ignores are `OtherEvent`. */
  datatype Event = Written(path: Path) | Created(path: Path) | Removed(path: Path) | Renamed(from: Path, to: Path) | OtherEvent

  /** A handled event reports a reload unless it failed. */
  function Reload(o: Outcome): Result<bool> {
    if o.Err? then Err(o.error) else Ok(true)
  }

  function Changed(l: Layout, buildPath: Path, site: Lib.Site, io: Io, p: Path, removed: bool): Effect<bool> {
    if SkipPath(buildPath, p) then Effect(Ok(false), site, [])
    else match Rel(p, site.sitePath)
      case Err(e) => Effect(Err(e), site, [])
      case Ok(rel) =>
        var e := if removed then RemoveSpec(l, buildPath, site, io, p, rel) else CreateSpec(l, buildPath, site, io, p, rel, true);
        Effect(Reload(e.result), e.site, e.actions)
  }

  /** The watcher's closure: what an event does, and whether browsers should reload. */
  function HandleSpec(l: Layout, buildPath: Path, site: Lib.Site, io: Io, ev: Event): Effect<bool> {
    match ev
    case Written(p) => Changed(l, buildPath, site, io, p, false)
    case Created(p) => Changed(l, buildPath, site, io, p, false)
    case Removed(p) => Changed(l, buildPath, site, io, p, true)
    case Renamed(from, to) => RenameSpec(l, buildPath, site, io, from, to)
    case OtherEvent => Effect(Ok(false), site, [])
  }

  /** A rename: skipped only when both ends are, and otherwise a create of the new path without building, then a remove of the old. */
  function RenameSpec(l: Layout, buildPath: Path, site: Lib.Site, io: Io, from: Path, to: Path): Effect<bool> {
      if SkipPath(buildPath, from) && SkipPath(buildPath, to) then Effect(Ok(false), site, [])
      else (match Rel(from, site.sitePath)
        case Err(e) => Effect(Err(e), site, [])
        case Ok(fromRel) =>
          match Rel(to, site.sitePath)
          case Err(e) => Effect(Err(e), site, [])
          case Ok(toRel) => MoveSpec(l, buildPath, site, io, from, to, fromRel, toRel))
  }

  lemma Assoc<T>(a: seq<T>, b: seq<T>, c: seq<T>)
    ensures a + b + c == a + (b + c)
  {
  }

  /** The handled rename, once both ends are relative to the site. */
  function MoveSpec(l: Layout, buildPath: Path, site: Lib.Site, io: Io, from: Path, to: Path, fromRel: Path, toRel: Path): Effect<bool> {
    var c := CreateSpec(l, buildPath, site, io, to, toRel, false);
    if c.result.Err? then Effect(Err(c.result.error), c.site, c.actions)
    else
      var r := RemoveSpec(l, buildPath, c.site, io, from, fromRel);
      Effect(Reload(r.result), r.site, c.actions + r.actions)
  }

  /** Events on the server's own output, and events of other kinds, change nothing and reload nothing. */
  lemma SkippedEvents(l: Layout, buildPath: Path, site: Lib.Site, io: Io, ev: Event)
    requires || ev.OtherEvent?
             || ((ev.Written? || ev.Created? || ev.Removed?) && SkipPath(buildPath, ev.path))
             || (ev.Renamed? && SkipPath(buildPath, ev.from) && SkipPath(buildPath, ev.to))
    ensures HandleSpec(l, buildPath, site, io, ev) == Effect(Ok(false), site, [])
  {
  }

  /**
   * A rename with either end outside the build directory is a create of the new path, without
   * building, followed by a remove of the old one against the updated site; it reloads when both succeed.
   */
  lemma RenameIsCreateThenRemove(l: Layout, buildPath: Path, site: Lib.Site, io: Io, from: Path, to: Path)
    requires !(SkipPath(buildPath, from) && SkipPath(buildPath, to))
    requires Rel(from, site.sitePath).Ok? && Rel(to, site.sitePath).Ok?
    ensures var e := HandleSpec(l, buildPath, site, io, Renamed(from, to));
      var c := CreateSpec(l, buildPath, site, io, to, Rel(to, site.sitePath).value, false);
      var r := RemoveSpec(l, buildPath, c.site, io, from, Rel(from, site.sitePath).value);
      && (c.result.Err? ==> e == Effect(Err(c.result.error), c.site, c.actions))
      && (c.result.Ok? ==> e == Effect(Reload(r.result), r.site, c.actions + r.actions))
      && (e.result == Ok(true) <==> c.result.Ok? && r.result.Ok?)
  {
  }

  /**
   * Renaming one page to another moves its index entry and removes the old page's output, but
   * does not build the page under its new name.
   */
  lemma RenamePageNotBuilt(l: Layout, buildPath: Path, site: Lib.Site, io: Io, from: Path, to: Path)
    requires !SkipPath(buildPath, from) && !SkipPath(buildPath, to)
    requires Rel(from, site.sitePath).Ok? && Rel(to, site.sitePath).Ok?
    requires !io.isDir(from) && !io.isDir(to)
    requires Under(Rel(from, site.sitePath).value, l.pagesPath) && Under(Rel(to, site.sitePath).value, l.pagesPath)
    ensures var e := HandleSpec(l, buildPath, site, io, Renamed(from, to));
      var oldName := Display(WithExtension(Rel(from, site.sitePath).value[|l.pagesPath|..], ""));
      var newName := Display(WithExtension(Rel(to, site.sitePath).value[|l.pagesPath|..], ""));
      && e.site.pageIndex == site.pageIndex[newName := to] - {oldName}
      && |e.actions| == 1 && e.actions[0].RemoveFile?
      && forall a :: a in e.actions ==> !a.BuildPage?
  {
    var toRel := Rel(to, site.sitePath).value;
    var fromRel := Rel(from, site.sitePath).value;
    RenameIsCreateThenRemove(l, buildPath, site, io, from, to);
    CreatePage(l, buildPath, site, io, to, toRel, false);
    var c := CreateSpec(l, buildPath, site, io, to, toRel, false);
    assert c.result == Done && c.actions == [];
    RemovePage(l, buildPath, c.site, io, from, fromRel);
    var r := RemoveSpec(l, buildPath, c.site, io, from, fromRel);
    assert HandleSpec(l, buildPath, site, io, Renamed(from, to)) == Effect(Reload(r.result), r.site, [] + r.actions);
  }

  /** A connected browser's address and its WebSocket connection. */
  type Addr = nat

  datatype Socket = Socket(id: nat)

  /** The message that tells a browser to reload. */
  const ReloadMessage: string := "reload"

  /** A server response: a status code and a body. */
  datatype Response = Response(status: nat, body: string)

  /** The build directory as the file route sees it. */
  datatype Fs = Fs(present: Path -> bool, isDir: Path -> bool, readFile: Path -> Result<string>)

  /** The request path (after `/`) that serves the embedded reload script. */
  const DevScriptRequest: string := "static/_dev.js"

  /**
   * The file a request path names: joined to the build directory, tried with `.html` when missing,
   * and taken as `index.html` inside it when that is a directory.
   */
  function ResolvedPath(buildPath: Path, request: string, fs: Fs): Path {
    var p := Join(buildPath, request);
    var p' := if fs.present(p) then p else WithExtension(p, "html");
    if fs.isDir(p') then p' + ["index.html"] else p'
  }

  /** An existing file gets its contents, or a 500 saying why it could not be read. */
  function FileResponse(fs: Fs, p: Path): Response {
    match fs.readFile(p)
    case Ok(body) => Response(200, body)
    case Err(e) => Response(500, "Failed to load: " + e.msg)
  }

  /** The fallback route: `404.html` of the build directory, or a plain text, with status 404. */
  function NotFound(fs: Fs, buildPath: Path): (r: Response)
    ensures r.status == 404
    ensures fs.readFile(buildPath + ["404.html"]).Ok? ==> r.body == fs.readFile(buildPath + ["404.html"]).value
    ensures fs.readFile(buildPath + ["404.html"]).Err? ==> r.body == "404 Not Found"
  {
    match fs.readFile(buildPath + ["404.html"])
    case Ok(body) => Response(404, body)
    case Err(_) => Response(404, "404 Not Found")
  }

  lemma ResolveExisting(buildPath: Path, request: string, fs: Fs)
    requires fs.present(Join(buildPath, request)) && !fs.isDir(Join(buildPath, request))
    ensures ResolvedPath(buildPath, request, fs) == Join(buildPath, request)
  {
  }

  /** A missing path is served from the file of the same name with `.html`. */
  lemma ResolveHtml(buildPath: Path, request: string, fs: Fs)
    requires !fs.present(Join(buildPath, request))
    requires !fs.isDir(WithExtension(Join(buildPath, request), "html"))
    ensures ResolvedPath(buildPath, request, fs) == WithExtension(Join(buildPath, request), "html")
  {
  }

  /** A directory is served from its `index.html`. */
  lemma ResolveDirectory(buildPath: Path, request: string, fs: Fs)
    requires fs.present(Join(buildPath, request)) && fs.isDir(Join(buildPath, request))
    ensures ResolvedPath(buildPath, request, fs) == Join(buildPath, request) + ["index.html"]
  {
  }

  /**
   * Joining is lexical: a request path that starts with `/` after the leading one (`//etc/hosts`)
   * replaces the build directory and so reaches outside it.
   */
  lemma AbsoluteRequestLeavesBuildDirectory(buildPath: Path, p: Path)
    requires p != [] && NormalPath(p)
    ensures Join(buildPath, "/" + Display(p)) == ["/"] + p
  {
    var q := [""] + p;
    assert q[1..] == p;
    assert Display(q) == "/" + Display(p);
    forall i | 0 <= i < |q| ensures '/' !in q[i] {
      if i > 0 {
        assert q[i] == p[i - 1];
      }
    }
    SplitDisplay(q);
    SplitDisplay(p);
    ParseDisplay(p);
    assert KeepNormal(q) == KeepNormal(p);
    assert Text.StartsWith("/" + Display(p), "/");
  }

  /** `..` components are kept, so `/../x` names `x` beside the build directory. */
  lemma ParentRequestLeavesBuildDirectory(buildPath: Path, p: Path)
    requires p != [] && NormalPath(p)
    ensures Join(buildPath, "../" + Display(p)) == buildPath + [".."] + p
  {
    var q := [".."] + p;
    assert q[1..] == p;
    assert Display(q) == "../" + Display(p);
    forall i | 0 <= i < |q| ensures '/' !in q[i] {
      if i > 0 {
        assert q[i] == p[i - 1];
      }
    }
    SplitDisplay(q);
    SplitDisplay(p);
    ParseDisplay(p);
    assert KeepNormal(q) == [".."] + KeepNormal(p);
    assert ("../" + Display(p))[0] == '.';
  }

  /**
   * The request handler: `decode` is percent decoding into UTF-8, whose failure panics, and
   * `devScript` is the embedded reload script.
   */
  method ServeRequest(fullPath: string, buildPath: Path, fs: Fs, decode: string -> Option<string>, devScript: string)
    returns (r: Result<Response>)
    requires fullPath != ""
    ensures decode(fullPath[1..]).None? ==> r == Err(Panic("Failed to decode URL"))
    ensures decode(fullPath[1..]).Some? && decode(fullPath[1..]).value == DevScriptRequest ==>
      r == Ok(Response(200, devScript))
    ensures decode(fullPath[1..]).Some? && decode(fullPath[1..]).value != DevScriptRequest ==>
      var p := ResolvedPath(buildPath, decode(fullPath[1..]).value, fs);
      r == Ok(if fs.present(p) then FileResponse(fs, p) else NotFound(fs, buildPath))
  {
    var decoded := decode(fullPath[1..]);
    if decoded.None? {
      return Err(Panic("Failed to decode URL"));
    }
    var s := decoded.value;
    if s == DevScriptRequest {
      return Ok(Response(200, devScript));
    }
    var p := Join(buildPath, s);
    if !fs.present(p) {
      p := WithExtension(p, "html");
    }
    if fs.isDir(p) {
      p := p + ["index.html"];
    }
    if fs.present(p) {
      var res := Response(200, "");
      var read := fs.readFile(p);
      if read.Ok? {
        res := res.(body := read.value);
      } else {
        res := Response(500, "Failed to load: " + read.error.msg);
      }
      return Ok(res);
    }
    return Ok(NotFound(fs, buildPath));
  }

  /** Building each named page, in order. */
  function PageBuilds(names: seq<string>): (r: seq<Action>)
    ensures |r| == |names| && forall i :: 0 <= i < |names| ==> r[i] == BuildPage(names[i])
  {
    if names == [] then [] else [BuildPage(names[0])] + PageBuilds(names[1..])
  }

  lemma PageBuildsAppend(names: seq<string>, name: string)
    ensures PageBuilds(names + [name]) == PageBuilds(names) + [BuildPage(name)]
  {
    assert |PageBuilds(names + [name])| == |PageBuilds(names) + [BuildPage(name)]|;
  }

  /**
   * A `HashMap`'s iteration order, which the program does not fix: some enumeration of the keys,
   * each exactly once.
   */
  method IterationOrder<K>(keys: set<K>) returns (order: seq<K>)
    ensures |order| == |keys|
    ensures forall k :: k in keys <==> k in order
    ensures forall i, j :: 0 <= i < j < |order| ==> order[i] != order[j]
  {
    order := [];
    var remaining := keys;
    while remaining != {}
      invariant remaining <= keys
      invariant forall k :: k in keys <==> k in remaining || k in order
      invariant forall i :: 0 <= i < |order| ==> order[i] !in remaining
      invariant forall i, j :: 0 <= i < j < |order| ==> order[i] != order[j]
      invariant |remaining| + |order| == |keys|
      decreases remaining
    {
      var k :| k in remaining;
      order := order + [k];
      remaining := remaining - {k};
    }
  }

  /**
   * The server's state: the builder's site, the build directory, the actions performed so far,
   * the connected browsers and the reload messages sent to them.
   */
  class DevServer {
    const layout: Layout
    const buildPath: Path
    var site: Lib.Site
    var performed: seq<Action>
    var peers: map<Addr, Socket>
    var reloadsSent: seq<Addr>

    constructor(layout: Layout, b: Builder.SiteBuilder)
      ensures this.layout == layout && buildPath == b.buildPath && site == b.site
      ensures performed == [] && peers == map[] && reloadsSent == []
    {
      this.layout := layout;
      buildPath := b.buildPath;
      site := b.site;
      performed := [];
      peers := map[];
      reloadsSent := [];
    }

    /** Performs actions in order until one fails. */
    method PerformAll(io: Io, acts: seq<Action>) returns (r: Outcome)
      modifies this
      ensures r == RunActions(io, acts).0 && performed == old(performed) + RunActions(io, acts).1
      ensures site == old(site) && peers == old(peers) && reloadsSent == old(reloadsSent)
    {
      ghost var start := performed;
      var i := 0;
      while i < |acts|
        invariant 0 <= i <= |acts|
        invariant performed == start + acts[..i]
        invariant forall j :: 0 <= j < i ==> io.perform(acts[j]).Ok?
        invariant site == old(site) && peers == old(peers) && reloadsSent == old(reloadsSent)
      {
        performed := performed + [acts[i]];
        var out := io.perform(acts[i]);
        assert performed == start + acts[..i + 1];
        if out.Err? {
          RunActionsFailsAt(io, acts, i);
          return out;
        }
        i := i + 1;
      }
      assert acts[..i] == acts;
      assert RunActions(io, acts).0.value == ();
      return Done;
    }

    method Create(io: Io, path: Path, rel: Path, build: bool) returns (r: Outcome)
      modifies this
      ensures var e := CreateSpec(layout, buildPath, old(site), io, path, rel, build);
        r == e.result && site == e.site && performed == old(performed) + e.actions
      ensures peers == old(peers) && reloadsSent == old(reloadsSent)
    {
      if io.isDir(path) {
        return Done;
      }
      r := CreateKind(io, Classify(layout, rel, true), path, rel, build);
    }

    /** `create` on a file of the kind `k`. */
    method CreateKind(io: Io, k: Kind, path: Path, rel: Path, build: bool) returns (r: Outcome)
      modifies this
      ensures var e := CreateAs(k, buildPath, old(site), io, path, rel, build);
        r == e.result && site == e.site && performed == old(performed) + e.actions
      ensures peers == old(peers) && reloadsSent == old(reloadsSent)
    {
      match k
      case PageKind(page) =>
        var (_, name) := GetName(page);
        site := site.(pageIndex := site.pageIndex[name := path]);
        r := PerformAll(io, if build then [BuildPage(name)] else []);
      case TemplateKind(template) =>
        var (_, name) := GetName(template);
        r := PerformAll(io, [RefreshTemplate(name, path)] + (if build then [BuildAllPages, BuildImages] else []));
      case StaticKind =>
        r := PerformAll(io, [CopyFile(path, buildPath + rel)]);
      case ConfigKind =>
        var text := io.readFile(path);
        if text.Err? {
          return Err(text.error);
        }
        var config := io.parseConfig(text.value);
        if config.Err? {
          return Err(config.error);
        }
        site := site.(config := config.value);
        r := PerformAll(io, [BuildAllPages]);
      case SassKind =>
        r := PerformAll(io, if build then [BuildSass] else []);
        r := Context(r, "Failed to rebuild Sass");
      case RootKind(rest) =>
        r := PerformAll(io, [CopyFile(path, buildPath + rest)]);
      case ImageKind =>
        r := PerformAll(io, [BuildImages]);
      case Unwatched =>
        r := Done;
    }

    method Remove(io: Io, path: Path, rel: Path) returns (r: Outcome)
      modifies this
      ensures var e := RemoveSpec(layout, buildPath, old(site), io, path, rel);
        r == e.result && site == e.site && performed == old(performed) + e.actions
      ensures peers == old(peers) && reloadsSent == old(reloadsSent)
    {
      if io.isDir(path) {
        return Done;
      }
      r := RemoveKind(io, Classify(layout, rel, false), path, rel);
    }

    /** `remove` of a file of the kind `k`. */
    method RemoveKind(io: Io, k: Kind, path: Path, rel: Path) returns (r: Outcome)
      modifies this
      ensures var e := RemoveAs(k, buildPath, old(site), io, path, rel);
        r == e.result && site == e.site && performed == old(performed) + e.actions
      ensures peers == old(peers) && reloadsSent == old(reloadsSent)
    {
      match k
      case PageKind(page) =>
        var (name, nameStr) := GetName(page);
        site := site.(pageIndex := site.pageIndex - {nameStr});
        r := PerformAll(io, [RemoveFile(buildPath + WithExtension(name, "html"))]);
        r := Context(r, "Failed to remove page at " + Quoted(path));
      case TemplateKind(template) =>
        var (_, name) := GetName(template);
        site := site.(templateIndex := site.templateIndex - {name});
        ghost var before := performed;
        performed := performed + [UnregisterTemplate(name)];
        r := PerformAll(io, [BuildAllPages]);
        Assoc(before, [UnregisterTemplate(name)], RunActions(io, [BuildAllPages]).1);
        r := Context(r, "Failed to rebuild pages");
      case StaticKind =>
        var target := buildPath + rel;
        r := PerformAll(io, [RemoveFile(target)]);
        r := Context(r, "Failed to remove file at " + Quoted(target));
      case SassKind =>
        r := PerformAll(io, [BuildSass]);
        r := Context(r, "Failed to rebuild Sass");
      case RootKind(rest) =>
        r := PerformAll(io, [RemoveFile(buildPath + rest)]);
      case ImageKind =>
        var id := Resource.GetId(path);
        if id.Err? {
          return Err(id.error);
        }
        r := PerformAll(io, [RemoveFile(ImagePage(site, buildPath, id.value)), BuildImages]);
      case _ =>
        r := Done;
    }

    /** The watcher's closure, before the broadcast: handles one event and says whether to reload. */
    method HandleEvent(io: Io, ev: Event) returns (r: Result<bool>)
      modifies this
      ensures var e := HandleSpec(layout, buildPath, old(site), io, ev);
        r == e.result && site == e.site && performed == old(performed) + e.actions
      ensures peers == old(peers) && reloadsSent == old(reloadsSent)
    {
      match ev
      case Written(p) =>
        r := HandleChange(io, p, false);
      case Created(p) =>
        r := HandleChange(io, p, false);
      case Removed(p) =>
        r := HandleChange(io, p, true);
      case Renamed(from, to) =>
        r := HandleRename(io, from, to);
      case OtherEvent =>
        r := Ok(false);
    }

    method HandleRename(io: Io, from: Path, to: Path) returns (r: Result<bool>)
      modifies this
      ensures var e := RenameSpec(layout, buildPath, old(site), io, from, to);
        r == e.result && site == e.site && performed == old(performed) + e.actions
      ensures peers == old(peers) && reloadsSent == old(reloadsSent)
    {
      if SkipPath(buildPath, from) && SkipPath(buildPath, to) {
        return Ok(false);
      }
      var fromRel := Rel(from, site.sitePath);
      if fromRel.Err? {
        return Err(fromRel.error);
      }
      var toRel := Rel(to, site.sitePath);
      if toRel.Err? {
        return Err(toRel.error);
      }
      r := Move(io, from, to, fromRel.value, toRel.value);
    }

    method Move(io: Io, from: Path, to: Path, fromRel: Path, toRel: Path) returns (r: Result<bool>)
      modifies this
      ensures var e := MoveSpec(layout, buildPath, old(site), io, from, to, fromRel, toRel);
        r == e.result && site == e.site && performed == old(performed) + e.actions
      ensures peers == old(peers) && reloadsSent == old(reloadsSent)
    {
      ghost var before := performed;
      ghost var ce := CreateSpec(layout, buildPath, site, io, to, toRel, false);
      ghost var spec := MoveSpec(layout, buildPath, site, io, from, to, fromRel, toRel);
      var c := Create(io, to, toRel, false);
      if c.Err? {
        assert spec == Effect(Err(c.error), ce.site, ce.actions);
        return Err(c.error);
      }
      ghost var re := RemoveSpec(layout, buildPath, ce.site, io, from, fromRel);
      assert spec == Effect(Reload(re.result), re.site, ce.actions + re.actions);
      ghost var mid := performed;
      var d := Remove(io, from, fromRel);
      assert d == re.result && site == re.site;
      assert performed == mid + re.actions;
      assert mid == before + ce.actions;
      Assoc(before, ce.actions, re.actions);
      r := Reload(d);
    }

    method HandleChange(io: Io, p: Path, removed: bool) returns (r: Result<bool>)
      modifies this
      ensures var e := Changed(layout, buildPath, old(site), io, p, removed);
        r == e.result && site == e.site && performed == old(performed) + e.actions
      ensures peers == old(peers) && reloadsSent == old(reloadsSent)
    {
      if SkipPath(buildPath, p) {
        return Ok(false);
      }
      var rel := Rel(p, site.sitePath);
      if rel.Err? {
        return Err(rel.error);
      }
      var o;
      if removed {
        o := Remove(io, p, rel.value);
      } else {
        o := Create(io, p, rel.value, true);
      }
      r := Reload(o);
    }

    /**
     * The reload broadcast: every connected browser, in the map's iteration order, is sent one
     * reload message and then dropped from the map, whether or not the send succeeded (send
     * failures are only logged).
     */
    method BroadcastReload() returns (order: seq<Addr>)
      modifies this
      ensures peers == map[]
      ensures reloadsSent == old(reloadsSent) + order
      ensures forall a :: a in old(peers) <==> a in order
      ensures forall i, j :: 0 <= i < j < |order| ==> order[i] != order[j]
      ensures site == old(site) && performed == old(performed)
    {
      order := IterationOrder(peers.Keys);
      SendReloads(order);
      DropPeers(order);
      assert peers.Keys == {};
    }

    /** The sending loop of the broadcast: one reload message per address, in order. */
    method SendReloads(order: seq<Addr>)
      modifies this`reloadsSent
      ensures reloadsSent == old(reloadsSent) + order
    {
      for i := 0 to |order|
        invariant reloadsSent == old(reloadsSent) + order[..i]
      {
        assert order[..i + 1] == order[..i] + [order[i]];
        reloadsSent := reloadsSent + [order[i]];
      }
      assert order[..|order|] == order;
    }

    /** The `to_remove` loop of the broadcast: each address is dropped from the peers. */
    method DropPeers(addrs: seq<Addr>)
      modifies this`peers
      ensures forall a :: a in peers <==> a in old(peers) && a !in addrs
    {
      for i := 0 to |addrs|
        invariant forall a :: a in peers <==> a in old(peers) && a !in addrs[..i]
      {
        assert addrs[..i + 1] == addrs[..i] + [addrs[i]];
        peers := peers - {addrs[i]};
      }
      assert addrs[..|addrs|] == addrs;
    }

    /** The page loop of the initial build: each page is built, and a failure is only logged. */
    method BuildPages(io: Io, order: seq<string>)
      modifies this`performed
      ensures performed == old(performed) + PageBuilds(order)
    {
      for i := 0 to |order|
        invariant performed == old(performed) + PageBuilds(order[..i])
      {
        var _ := io.perform(BuildPage(order[i]));
        PageBuildsAppend(order[..i], order[i]);
        assert order[..i + 1] == order[..i] + [order[i]];
        performed := performed + [BuildPage(order[i])];
      }
      assert order[..|order|] == order;
    }

    /** A WebSocket upgrade: a browser with a known address joins the peers. */
    method Connect(addr: Option<Addr>, socket: Socket) returns (accepted: bool)
      modifies this
      ensures accepted == addr.Some?
      ensures peers == if addr.Some? then old(peers)[addr.value := socket] else old(peers)
      ensures site == old(site) && performed == old(performed) && reloadsSent == old(reloadsSent)
    {
      if addr.None? {
        return false;
      }
      peers := peers[addr.value := socket];
      return true;
    }

    /**
     * One event end to end: handled, and when it asks for a reload, broadcast to every browser.
     * `order` is the order the browsers were sent their reload in, empty when there was none.
     */
    method OnEvent(io: Io, ev: Event) returns (order: seq<Addr>)
      modifies this
      ensures var e := HandleSpec(layout, buildPath, old(site), io, ev);
        && site == e.site && performed == old(performed) + e.actions
        && peers == (if e.result == Ok(true) then map[] else old(peers))
        && reloadsSent == old(reloadsSent) + order
        && (e.result == Ok(true) ==> forall a :: a in old(peers) <==> a in order)
        && (e.result != Ok(true) ==> order == [])
      ensures forall i, j :: 0 <= i < j < |order| ==> order[i] != order[j]
    {
      order := [];
      var r := HandleEvent(io, ev);
      if r == Ok(true) {
        order := BroadcastReload();
      }
    }

    /**
     * The initial build of `serve`: every indexed page once, in the index's iteration order, with
     * failures only logged; then the Sass and the images, whose failures end the start-up.
     */
    method InitialBuild(io: Io) returns (r: Outcome, order: seq<string>)
      modifies this
      ensures site == old(site) && peers == old(peers) && reloadsSent == old(reloadsSent)
      ensures forall k :: k in site.pageIndex <==> k in order
      ensures forall i, j :: 0 <= i < j < |order| ==> order[i] != order[j]
      ensures var sass := io.perform(BuildSass);
        && performed == old(performed) + PageBuilds(order) + (if sass.Err? then [BuildSass] else [BuildSass, BuildImages])
        && r == (if sass.Err? then Err(Fail("Failed to build Sass")) else Context(io.perform(BuildImages), "Failed to build image pages"))
    {
      order := IterationOrder(site.pageIndex.Keys);
      BuildPages(io, order);
      ghost var pages := performed;
      performed := performed + [BuildSass];
      var sass := io.perform(BuildSass);
      if sass.Err? {
        return Err(Fail("Failed to build Sass")), order;
      }
      Assoc(pages, [BuildSass], [BuildImages]);
      performed := performed + [BuildImages];
      r := Context(io.perform(BuildImages), "Failed to build image pages");
    }
  }
}
