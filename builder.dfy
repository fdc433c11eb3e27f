/**
 * src/builder.rs: the `SiteBuilder` that the resource pipeline and the dev server use. It chooses the
 * build directory, renders a page into the outer template, rewrites the HTML (the `<head>` additions
 * and the `<a>` rule) and writes standard pages.
 */
module Builder {
  import opened Wrappers
  import opened Paths
  import Text
  import Html
  import Lib

  /** `TemplateData`: the rendered page and the custom data flattened beside it. */
  datatype TemplateData<T> = TemplateData(page: string, extra: T)

  /** The builder's state that matters here; the template registry is the `render` parameter below. */
  datatype SiteBuilder = SiteBuilder(site: Lib.Site, buildPath: Path, serving: bool)

  /**
   * `SiteBuilder::new`: the configured build directory (or `build`) under the site, except that
   * the dev server always builds into `site/build`.
   */
  function New(site: Lib.Site, serving: bool): (b: SiteBuilder)
    ensures b.site == site && b.serving == serving
    ensures serving || site.config.build.None? ==> b.buildPath == site.sitePath + ["build"]
    ensures !serving && site.config.build.Some? ==> b.buildPath == Join(site.sitePath, site.config.build.value)
  {
    var configured := Lib.BuildPath(site.sitePath, site.config.build);
    SiteBuilder(site, if serving then site.sitePath + ["build"] else configured, serving)
  }

  /** The value of an attribute, or the empty string: `get_attribute(..).unwrap_or_default()`. */
  function AttrOrEmpty(attrs: map<string, string>, name: string): string {
    if name in attrs then attrs[name] else ""
  }

  /**
   * The `$` command of an anchor: an href `command$rest` becomes `rest`; the command `me` also adds
   * ` me` to `rel`. Any other command is dropped. An href without `$` is left alone.
   */
  function CommandRewrite(attrs: map<string, string>): map<string, string>
    requires "href" in attrs
  {
    match Text.SplitOnce(attrs["href"], "$")
    case None => attrs
    case Some((command, rest)) =>
      var withRel := if command == "me" then attrs["rel" := AttrOrEmpty(attrs, "rel") + " me"] else attrs;
      withRel["href" := rest]
  }

  /** Links to another host open in a new tab and send no referrer. */
  function ExternalRewrite(attrs: map<string, string>, hasHost: string -> bool): map<string, string>
    requires "href" in attrs
  {
    if hasHost(attrs["href"]) then
      attrs["rel" := Text.Trim(AttrOrEmpty(attrs, "rel") + " noopener noreferrer", Text.RustWhitespace)]
           ["target" := "_blank"]
    else attrs
  }

  /** The `a` handler of `build_page_raw_extra`; `hasHost` says whether `Url::parse` gives a URL with a host. */
  function AnchorRewrite(attrs: map<string, string>, hasHost: string -> bool): map<string, string> {
    if "href" in attrs then ExternalRewrite(CommandRewrite(attrs), hasHost) else attrs
  }

  lemma NoDollar(s: string)
    requires '$' !in s
    ensures Text.SplitOnce(s, "$").None?
  {
    forall i: nat | i <= |s| ensures !Text.OccursAt(s, "$", i) {
      if i < |s| {
        assert s[i..i + 1] == [s[i]];
      }
    }
  }

  /** An anchor without an href, or whose href has no `$` and no host, is left exactly as it was. */
  lemma AnchorUnchanged(attrs: map<string, string>, hasHost: string -> bool)
    requires "href" in attrs ==> '$' !in attrs["href"] && !hasHost(attrs["href"])
    ensures AnchorRewrite(attrs, hasHost) == attrs
  {
    if "href" in attrs {
      NoDollar(attrs["href"]);
    }
  }

  lemma SplitAtDollar(command: string, rest: string)
    requires '$' !in command
    ensures Text.SplitOnce(command + "$" + rest, "$") == Some((command, rest))
  {
    var s := command + "$" + rest;
    assert Text.OccursAt(s, "$", |command|);
    forall j: nat | j < |command| ensures !Text.OccursAt(s, "$", j) {
      assert s[j..j + 1] == [command[j]];
    }
    var k := Text.IndexOf(s, "$");
    assert k == Some(|command|);
    assert s[..|command|] == command && s[|command| + 1..] == rest;
  }

  /**
   * An href `command$rest` (split at its first `$`) becomes `rest`. Without a host, `rel` gets ` me`
   * appended, untrimmed, exactly when the command is `me`, and is untouched otherwise; with a host,
   * that `rel` gets ` noopener noreferrer` appended and trimmed, and `target` becomes `_blank`.
   */
  lemma AnchorCommand(attrs: map<string, string>, hasHost: string -> bool, command: string, rest: string)
    requires "href" in attrs && attrs["href"] == command + "$" + rest && '$' !in command
    ensures var out := AnchorRewrite(attrs, hasHost);
      var rel := if command == "me" then AttrOrEmpty(attrs, "rel") + " me" else AttrOrEmpty(attrs, "rel");
      && "href" in out && out["href"] == rest
      && (!hasHost(rest) && command == "me" ==> "rel" in out && out["rel"] == AttrOrEmpty(attrs, "rel") + " me")
      && (!hasHost(rest) && command != "me" ==> ("rel" in out <==> "rel" in attrs) && ("rel" in attrs ==> out["rel"] == attrs["rel"]))
      && (!hasHost(rest) ==> ("target" in out <==> "target" in attrs) && ("target" in attrs ==> out["target"] == attrs["target"]))
      && (hasHost(rest) ==> "rel" in out && out["rel"] == Text.Trim(rel + " noopener noreferrer", Text.RustWhitespace))
      && (hasHost(rest) ==> "target" in out && out["target"] == "_blank")
  {
    SplitAtDollar(command, rest);
  }

  /** A link to another host without a `$` command gets `rel` extended and `target="_blank"`, and keeps its href. */
  lemma AnchorExternal(attrs: map<string, string>, hasHost: string -> bool)
    requires "href" in attrs && '$' !in attrs["href"] && hasHost(attrs["href"])
    ensures var out := AnchorRewrite(attrs, hasHost);
      && out["href"] == attrs["href"]
      && out["rel"] == Text.Trim(AttrOrEmpty(attrs, "rel") + " noopener noreferrer", Text.RustWhitespace)
      && out["target"] == "_blank"
  {
    NoDollar(attrs["href"]);
  }

  /** Only `href`, `rel` and `target` can change; every other attribute survives as it was. */
  lemma AnchorOtherAttributes(attrs: map<string, string>, hasHost: string -> bool, k: string)
    requires k != "href" && k != "rel" && k != "target"
    ensures var out := AnchorRewrite(attrs, hasHost);
      (k in out <==> k in attrs) && (k in attrs ==> out[k] == attrs[k])
  {
  }

  /** The element an `a` handler receives: its attributes change in place. */
  class Element {
    var attributes: map<string, string>

    constructor(attributes: map<string, string>)
      ensures this.attributes == attributes
    {
      this.attributes := attributes;
    }

    function GetAttribute(name: string): (r: Option<string>)
      reads this
      ensures r.Some? <==> name in attributes
      ensures r.Some? ==> r.value == attributes[name]
    {
      if name in attributes then Some(attributes[name]) else None
    }

    method SetAttribute(name: string, value: string)
      modifies this
      ensures attributes == old(attributes)[name := value]
    {
      attributes := attributes[name := value];
    }
  }

  /** The `a` handler as the source writes it: read the href, rewrite the command, mark external links. */
  method AnchorHandler(el: Element, hasHost: string -> bool)
    modifies el
    ensures el.attributes == AnchorRewrite(old(el.attributes), hasHost)
  {
    var original := el.GetAttribute("href");
    if original.None? {
      return;
    }
    var href := ApplyCommand(el);
    MarkExternal(el, href, hasHost);
  }

  /** The `$` command part of the `a` handler; it returns the href the element is left with. */
  method ApplyCommand(el: Element) returns (href: string)
    requires "href" in el.attributes
    modifies el
    ensures el.attributes == CommandRewrite(old(el.attributes))
    ensures "href" in el.attributes && href == el.attributes["href"]
  {
    href := el.GetAttribute("href").value;
    var split := Text.SplitOnce(href, "$");
    if split.Some? {
      var (command, newHref) := split.value;
      if command == "me" {
        var rel := el.GetAttribute("rel");
        el.SetAttribute("rel", rel.GetOr("") + " me");
      }
      href := newHref;
      el.SetAttribute("href", href);
    }
  }

  /** The external-link part of the `a` handler. */
  method MarkExternal(el: Element, href: string, hasHost: string -> bool)
    requires "href" in el.attributes && href == el.attributes["href"]
    modifies el
    ensures el.attributes == ExternalRewrite(old(el.attributes), hasHost)
  {
    if hasHost(href) {
      var rel := el.GetAttribute("rel");
      el.SetAttribute("rel", Text.Trim(rel.GetOr("") + " noopener noreferrer", Text.RustWhitespace));
      el.SetAttribute("target", "_blank");
    }
  }

  const DevScript: string := "<script src=\"/_dev.js\"></script>"

  /** The handlers of `build_page_raw_extra`: charset first, then the title, and the reload script when serving. */
  function PageHandlers(title: string, serving: bool, hasHost: string -> bool): Html.Handlers {
    Html.Handlers(
      [Lib.Charset],
      [Lib.TitleTag(title)] + (if serving then [DevScript] else []),
      attrs => AnchorRewrite(attrs, hasHost))
  }

  /**
   * Every `head` gets one title tag, and one reload script exactly when serving: a page built for
   * release carries no more reload scripts than its template had.
   */
  lemma HeadInjection(doc: seq<Html.Node>, title: string, serving: bool, hasHost: string -> bool)
    ensures var out := Html.RewriteNodes(doc, PageHandlers(title, serving, hasHost));
      var heads := Html.CountElements(doc, "head");
      && Html.CountRaw(out, DevScript) == Html.CountRaw(doc, DevScript) + (if serving then heads else 0)
      && Html.CountRaw(out, Lib.TitleTag(title)) == Html.CountRaw(doc, Lib.TitleTag(title)) + heads
  {
    var h := PageHandlers(title, serving, hasHost);
    var tt := Lib.TitleTag(title);
    assert tt[1] == 't' && DevScript[1] == 's' && Lib.Charset[1] == 'm';
    assert Html.Occurrences(h.prepend, DevScript) == 0;
    assert Html.Occurrences(h.prepend, tt) == 0;
    if serving {
      assert h.append[1..] == [DevScript];
      assert h.append[1..][1..] == [];
    } else {
      assert h.append[1..] == [];
    }
    assert Html.Occurrences(h.append, DevScript) == (if serving then 1 else 0);
    assert Html.Occurrences(h.append, tt) == 1;
    Html.RewriteCountRaw(doc, h, DevScript);
    Html.RewriteCountRaw(doc, h, tt);
  }

  /** The libraries `build_page_raw_extra` calls, as parameters. */
  datatype Env = Env(
    parseHtml: string -> Result<seq<Html.Node>>,
    serializeHtml: seq<Html.Node> -> string,
    minify: string -> string,
    hasHost: string -> bool)

  /** The document a rendered template becomes after the rewrite, serialized. */
  function Rewritten(env: Env, doc: seq<Html.Node>, title: string, serving: bool): string {
    env.serializeHtml(Html.RewriteNodes(doc, PageHandlers(title, serving, env.hasHost)))
  }

  /**
   * `build_page_raw_extra`: render the page into its template, rewrite the HTML, and minify it
   * unless serving. `render` is the template registry.
   */
  function BuildPageRawExtra<T>(env: Env, render: (string, TemplateData<T>) -> Result<string>, b: SiteBuilder,
                                meta: Lib.PageMetadata, pageHtml: string, extra: T): Result<string>
  {
    var out :- render(Lib.TemplateName(meta), TemplateData(pageHtml, extra));
    var title := Lib.PageTitle(b.site.config.title, meta.title);
    var doc :- env.parseHtml(out);
    var html := Rewritten(env, doc, title, b.serving);
    Ok(if b.serving then html else env.minify(html))
  }

  /**
   * The page is rendered with its own template, or `base`; its title is composed from the site's;
   * render and parse errors are returned as they are; the rewritten page is minified exactly when
   * not serving.
   */
  lemma BuildPageRawExtraShape<T>(env: Env, render: (string, TemplateData<T>) -> Result<string>, b: SiteBuilder,
                                  meta: Lib.PageMetadata, pageHtml: string, extra: T)
    ensures var r := BuildPageRawExtra(env, render, b, meta, pageHtml, extra);
      var template := if meta.template.Some? then meta.template.value else "base";
      var title := if meta.title.Some? then b.site.config.title + " / " + meta.title.value else b.site.config.title;
      var out := render(template, TemplateData(pageHtml, extra));
      && (out.Err? ==> r == Err(out.error))
      && (out.Ok? && env.parseHtml(out.value).Err? ==> r == Err(env.parseHtml(out.value).error))
      && (out.Ok? && env.parseHtml(out.value).Ok? ==>
            var html := Rewritten(env, env.parseHtml(out.value).value, title, b.serving);
            r == Ok(if b.serving then html else env.minify(html)))
  {
  }

  /** The page sources `build_page` reads: files, the front matter splitter, YAML and Markdown. */
  datatype PageSources = PageSources(
    readFile: Path -> Result<string>,
    matter: string -> (Option<string>, string),
    deserialize: string -> Result<Lib.PageMetadata>,
    markdown: string -> string)

  /** The metadata of a page: its front matter deserialized, or the default without front matter. */
  function PageMeta(src: PageSources, data: Option<string>): Result<Lib.PageMetadata> {
    match data
    case None => Ok(Lib.DefaultPageMetadata)
    case Some(d) => src.deserialize(d)
  }

  /** `SiteBuilder::build_page`: the file it writes and what goes into it. */
  function BuildPage(env: Env, render: (string, TemplateData<()>) -> Result<string>, src: PageSources,
                     b: SiteBuilder, name: string): Result<Write>
  {
    if name !in b.site.pageIndex then Err(Panic("Missing page"))
    else
      var pagePath := b.site.pageIndex[name];
      match src.readFile(pagePath)
      case Err(_) => Err(Fail("Failed to read page at " + Display(pagePath)))
      case Ok(input) =>
        var (data, content) := src.matter(input);
        var meta :- PageMeta(src, data);
        var out :- BuildPageRawExtra(env, render, b, meta, src.markdown(content), ());
        Ok(Write(WithExtension(Join(b.buildPath, name), "html"), out))
  }

  /**
   * A page name missing from the index panics. A page without front matter is built exactly as
   * with the default metadata, so in the `base` template under the site's own title. A plain page
   * name is written to `<build path>/<name>.html`.
   */
  lemma BuildPageShape(env: Env, render: (string, TemplateData<()>) -> Result<string>, src: PageSources,
                       b: SiteBuilder, name: string)
    ensures name !in b.site.pageIndex ==> BuildPage(env, render, src, b, name) == Err(Panic("Missing page"))
    ensures name in b.site.pageIndex && src.readFile(b.site.pageIndex[name]).Ok? ==>
      var (data, content) := src.matter(src.readFile(b.site.pageIndex[name]).value);
      data.None? ==>
        var out := BuildPageRawExtra(env, render, b, Lib.PageMetadata(None, None), src.markdown(content), ());
        && (out.Err? ==> BuildPage(env, render, src, b, name) == Err(out.error))
        && (out.Ok? ==> BuildPage(env, render, src, b, name) == Ok(Write(WithExtension(Join(b.buildPath, name), "html"), out.value)))
    ensures BuildPage(env, render, src, b, name).Ok? && NormalComponent(name) && '.' !in name ==>
              BuildPage(env, render, src, b, name).value.path == b.buildPath + [name + ".html"]
  {
    var r := BuildPage(env, render, src, b, name);
    if r.Ok? && NormalComponent(name) && '.' !in name {
      assert r.value.path == WithExtension(Join(b.buildPath, name), "html");
      PageFileOf(b.buildPath, name);
    }
  }

  /** `build_path.join(name).with_extension("html")` for a plain page name. */
  lemma PageFileOf(buildPath: Path, name: string)
    requires NormalComponent(name) && '.' !in name
    ensures WithExtension(Join(buildPath, name), "html") == buildPath + [name + ".html"]
  {
    JoinName(buildPath, name);
    WithExtensionNoDot(buildPath, name, "html");
    assert name + "." + "html" == name + ".html";
  }
}
