/**
 * The page extras of src/extras.rs: a page's front matter may name an extra, a modification of
 * its built HTML. The one extra, `index`, adds a sidebar of the latest blog posts to the page's
 * `#content` element.
 */
module Extras {
  import opened Wrappers
  import opened ResourceModel
  import Html
  import Sorting
  import Resource
  import Blog

  /** `SidebarTemplateData`: the posts the sidebar lists. */
  datatype SidebarTemplateData = SidebarTemplateData(resources: seq<ResourceMetadata<Blog.BlogPostMetadata>>)

  /**
   * What `index` takes from the builder: the blog's loaded posts, the template registry, and the
   * HTML parser and serializer of the rewrite.
   */
  datatype ExtraEnv = ExtraEnv(
    blogLoaded: seq<Resource.Entry<Blog.BlogPostMetadata>>,
    render: (string, SidebarTemplateData) -> Result<string>,
    parseHtml: string -> Result<seq<Html.Node>>,
    serializeHtml: seq<Html.Node> -> string)

  /** `Extra`: a function from a page's HTML to its modified HTML. */
  datatype Extra = HtmlModification(transform: (string, ExtraEnv) -> Result<string>)

  /** `get_extra`: `index` names the sidebar extra, and no other name names anything. */
  function GetExtra(name: string): (r: Option<Extra>)
    ensures r.Some? <==> name == "index"
    ensures r.Some? ==> forall page, env :: r.value.transform(page, env) == Index(page, env)
  {
    if name == "index" then Some(HtmlModification((page: string, env: ExtraEnv) => Index(page, env))) else None
  }

  /** `iter().take(3)` of the loaded posts, without their ids. */
  function Sidebar(lmd: seq<Resource.Entry<Blog.BlogPostMetadata>>): (r: seq<ResourceMetadata<Blog.BlogPostMetadata>>)
    ensures |r| == (if |lmd| < 3 then |lmd| else 3)
    ensures forall i :: 0 <= i < |r| ==> r[i] == lmd[i].1
  {
    var n := if |lmd| < 3 then |lmd| else 3;
    Sorting.MapSeq(lmd[..n], (e: Resource.Entry<Blog.BlogPostMetadata>) => e.1)
  }

  /**
   * On a collection as `load_all` leaves it (newest first), the sidebar holds the most recent
   * posts: none of the posts left out is newer than any post shown.
   */
  lemma SidebarMostRecent(lmd: seq<Resource.Entry<Blog.BlogPostMetadata>>)
    requires Sorting.SortedDesc(lmd, Resource.Timestamp)
    ensures var shown := Sidebar(lmd);
      forall i, j :: 0 <= i < |shown| <= j < |lmd| ==> shown[i].timestamp >= lmd[j].1.timestamp
  {
    var shown := Sidebar(lmd);
    forall i, j | 0 <= i < |shown| <= j < |lmd|
      ensures shown[i].timestamp >= lmd[j].1.timestamp
    {
      assert Resource.Timestamp(lmd[i]) >= Resource.Timestamp(lmd[j]);
    }
  }

  predicate IsContent(attrs: map<string, string>) {
    "id" in attrs && attrs["id"] == "content"
  }

  /** The `#content` handler: every element whose id is `content` gets `html` appended to its content. */
  function AppendToContent(ns: seq<Html.Node>, html: string): (r: seq<Html.Node>)
    ensures |r| == |ns|
    ensures forall i :: 0 <= i < |r| ==> r[i] == AppendToContentNode(ns[i], html)
    decreases ns
  {
    if ns == [] then [] else [AppendToContentNode(ns[0], html)] + AppendToContent(ns[1..], html)
  }

  function AppendToContentNode(n: Html.Node, html: string): Html.Node
    decreases n
  {
    match n
    case Raw(_) => n
    case Element(name, attrs, children) =>
      var inner := AppendToContent(children, html);
      Html.Element(name, attrs, if IsContent(attrs) then inner + [Html.Raw(html)] else inner)
  }

  /** How many `#content` elements a document has. */
  function CountContent(ns: seq<Html.Node>): nat
    decreases ns
  {
    if ns == [] then 0 else CountContentNode(ns[0]) + CountContent(ns[1..])
  }

  function CountContentNode(n: Html.Node): nat
    decreases n
  {
    match n
    case Raw(_) => 0
    case Element(_, attrs, children) => (if IsContent(attrs) then 1 else 0) + CountContent(children)
  }

  /** The sidebar appears once more in the document for every `#content` element. */
  lemma {:induction false} AppendCount(ns: seq<Html.Node>, html: string)
    ensures Html.CountRaw(AppendToContent(ns, html), html) == Html.CountRaw(ns, html) + CountContent(ns)
    decreases ns
  {
    if ns != [] {
      AppendCountNode(ns[0], html);
      AppendCount(ns[1..], html);
    }
  }

  lemma {:induction false} AppendCountNode(n: Html.Node, html: string)
    ensures Html.CountRawNode(AppendToContentNode(n, html), html) == Html.CountRawNode(n, html) + CountContentNode(n)
    decreases n
  {
    match n
    case Raw(_) =>
    case Element(name, attrs, children) =>
      AppendCount(children, html);
      if IsContent(attrs) {
        var inner := AppendToContent(children, html);
        Html.CountRawConcat(inner, [Html.Raw(html)], html);
        assert Html.CountRaw([Html.Raw(html)], html) == 1 + Html.CountRaw([], html);
      }
  }

  /** An element is rewritten into one with the same tag and attributes, ending in the sidebar when it is `#content`. */
  lemma AppendToContentNodeShape(n: Html.Node, html: string)
    requires n.Element?
    ensures var m := AppendToContentNode(n, html);
      && m.Element? && m.name == n.name && m.attrs == n.attrs
      && |m.children| == |n.children| + (if IsContent(n.attrs) then 1 else 0)
      && (IsContent(n.attrs) ==> m.children[|m.children| - 1] == Html.Raw(html))
  {
  }

  /**
   * `index`: the sidebar template is rendered with the first three loaded posts and appended to
   * the page's `#content`; a render or rewrite failure is the extra's failure.
   */
  function Index(page: string, env: ExtraEnv): Result<string> {
    var sidebar :- env.render("extras/index-injection", SidebarTemplateData(Sidebar(env.blogLoaded)));
    var doc :- env.parseHtml(page);
    Ok(env.serializeHtml(AppendToContent(doc, sidebar)))
  }

  /** The extra fails exactly when rendering the sidebar or parsing the page fails, with the first such error. */
  lemma IndexErrors(page: string, env: ExtraEnv)
    ensures var rendered := env.render("extras/index-injection", SidebarTemplateData(Sidebar(env.blogLoaded)));
      && (rendered.Err? ==> Index(page, env) == Err(rendered.error))
      && (rendered.Ok? && env.parseHtml(page).Err? ==> Index(page, env) == Err(env.parseHtml(page).error))
      && (rendered.Ok? && env.parseHtml(page).Ok? ==>
            Index(page, env) == Ok(env.serializeHtml(AppendToContent(env.parseHtml(page).value, rendered.value))))
  {
  }
}
