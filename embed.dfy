/**
 * `EmbedMetadata::build` (src/resource.rs): the OpenGraph / Twitter `<meta>` tags for a page,
 * appended to a string one after the other. Field values are inserted as they are, unescaped.
 */
module Embed {
  import opened Wrappers

  datatype EmbedMetadata = EmbedMetadata(
    title: string,
    siteName: string,
    description: Option<string>,
    url: Option<string>,
    image: Option<string>,
    themeColor: string,
    largeImage: bool)

  /** The kinds of tag, in the order `build` emits them. */
  datatype Kind = OgTitle | OgSiteName | OgDescription | OgUrl | OgImage | ThemeColor | TwitterCard

  function Rank(k: Kind): nat {
    match k
    case OgTitle => 0
    case OgSiteName => 1
    case OgDescription => 2
    case OgUrl => 3
    case OgImage => 4
    case ThemeColor => 5
    case TwitterCard => 6
  }

  /** One emitted tag: its kind and the value it carries (the card tag carries none). */
  datatype Tag = Tag(kind: Kind, content: string)

  /** `<meta content="{content}" property="{property}">` */
  function MetaProperty(content: string, property: string): string {
    "<meta content=\"" + content + "\" property=\"" + property + "\">"
  }

  /** `<meta content="{content}" name="{name}">` */
  function MetaName(content: string, name: string): string {
    "<meta content=\"" + content + "\" name=\"" + name + "\">"
  }

  const CardTag: string := "<meta name=\"twitter:card\" content=\"summary_large_image\">"

  /** The HTML of one tag. */
  function Render(t: Tag): string {
    match t.kind
    case OgTitle => MetaProperty(t.content, "og:title")
    case OgSiteName => MetaProperty(t.content, "og:site_name")
    case OgDescription => MetaProperty(t.content, "og:description")
    case OgUrl => MetaProperty(t.content, "og:url")
    case OgImage => MetaProperty(t.content, "og:image")
    case ThemeColor => MetaName(t.content, "theme-color")
    case TwitterCard => CardTag
  }

  function OptionalTag(kind: Kind, v: Option<string>): seq<Tag> {
    match v
    case None => []
    case Some(c) => [Tag(kind, c)]
  }

  /** The tags an embed stands for, in emission order. */
  function Tags(e: EmbedMetadata): seq<Tag> {
    [Tag(OgTitle, e.title), Tag(OgSiteName, e.siteName)]
    + OptionalTag(OgDescription, e.description)
    + OptionalTag(OgUrl, e.url)
    + OptionalTag(OgImage, e.image)
    + [Tag(ThemeColor, e.themeColor)]
    + (if e.largeImage then [Tag(TwitterCard, "")] else [])
  }

  function RenderAll(tags: seq<Tag>): string {
    if tags == [] then "" else RenderAll(tags[..|tags| - 1]) + Render(tags[|tags| - 1])
  }

  /** The value of the first tag of a kind, if there is one. */
  function TagOf(tags: seq<Tag>, k: Kind): Option<string> {
    if tags == [] then None
    else if tags[0].kind == k then Some(tags[0].content)
    else TagOf(tags[1..], k)
  }

  ghost predicate Increasing(t: seq<Tag>) {
    forall i, j :: 0 <= i < j < |t| ==> Rank(t[i].kind) < Rank(t[j].kind)
  }

  lemma {:induction false} TagOfConcat(a: seq<Tag>, b: seq<Tag>)
    ensures forall k :: TagOf(a + b, k) == if TagOf(a, k).Some? then TagOf(a, k) else TagOf(b, k)
  {
    if a == [] {
      assert a + b == b;
    } else {
      assert (a + b)[0] == a[0];
      assert (a + b)[1..] == a[1..] + b;
      TagOfConcat(a[1..], b);
    }
  }

  lemma TagOfOptional(kind: Kind, v: Option<string>)
    ensures forall k :: TagOf(OptionalTag(kind, v), k) == if k == kind then v else None
  {
    if v.Some? {
      assert OptionalTag(kind, v)[1..] == [];
    }
  }

  lemma TagOfPair(a: Tag, b: Tag)
    ensures forall k :: TagOf([a, b], k) == if a.kind == k then Some(a.content) else if b.kind == k then Some(b.content) else None
  {
    forall k ensures TagOf([a, b], k) == if a.kind == k then Some(a.content) else if b.kind == k then Some(b.content) else None {
      assert [a, b][1..] == [b];
      assert [b][1..] == [];
      assert TagOf([b], k) == if b.kind == k then Some(b.content) else None;
    }
  }

  ghost predicate RanksIn(a: seq<Tag>, lo: nat, hi: nat) {
    forall i :: 0 <= i < |a| ==> lo <= Rank(a[i].kind) < hi
  }

  lemma IncreasingConcat(a: seq<Tag>, b: seq<Tag>, lo: nat, mid: nat, hi: nat)
    requires lo <= mid <= hi
    requires Increasing(a) && Increasing(b) && RanksIn(a, lo, mid) && RanksIn(b, mid, hi)
    ensures Increasing(a + b) && RanksIn(a + b, lo, hi)
  {
  }

  /**
   * The emitted tags come in the fixed kind order, each kind at most once; og:title, og:site_name
   * and theme-color are always there with their values; og:description, og:url and og:image are
   * there exactly when the field is set, with its value; the card tag exactly when `large_image` is set.
   */
  lemma TagsShape(e: EmbedMetadata)
    ensures var t := Tags(e);
      && Increasing(t)
      && TagOf(t, OgTitle) == Some(e.title)
      && TagOf(t, OgSiteName) == Some(e.siteName)
      && TagOf(t, OgDescription) == e.description
      && TagOf(t, OgUrl) == e.url
      && TagOf(t, OgImage) == e.image
      && TagOf(t, ThemeColor) == Some(e.themeColor)
      && (TagOf(t, TwitterCard).Some? <==> e.largeImage)
  {
    TagsIncreasing(e);
    TagsValues(e);
  }

  lemma TagsIncreasing(e: EmbedMetadata)
    ensures Increasing(Tags(e))
  {
    var p0 := [Tag(OgTitle, e.title), Tag(OgSiteName, e.siteName)];
    var d := OptionalTag(OgDescription, e.description);
    var u := OptionalTag(OgUrl, e.url);
    var g := OptionalTag(OgImage, e.image);
    var th := [Tag(ThemeColor, e.themeColor)];
    var c: seq<Tag> := if e.largeImage then [Tag(TwitterCard, "")] else [];
    assert Tags(e) == p0 + d + u + g + th + c;
    IncreasingConcat(p0, d, 0, 2, 3);
    IncreasingConcat(p0 + d, u, 0, 3, 4);
    IncreasingConcat(p0 + d + u, g, 0, 4, 5);
    IncreasingConcat(p0 + d + u + g, th, 0, 5, 6);
    IncreasingConcat(p0 + d + u + g + th, c, 0, 6, 7);
  }

  lemma TagsValues(e: EmbedMetadata)
    ensures var t := Tags(e);
      && TagOf(t, OgTitle) == Some(e.title)
      && TagOf(t, OgSiteName) == Some(e.siteName)
      && TagOf(t, OgDescription) == e.description
      && TagOf(t, OgUrl) == e.url
      && TagOf(t, OgImage) == e.image
      && TagOf(t, ThemeColor) == Some(e.themeColor)
      && (TagOf(t, TwitterCard).Some? <==> e.largeImage)
  {
    var p0 := [Tag(OgTitle, e.title), Tag(OgSiteName, e.siteName)];
    var d := OptionalTag(OgDescription, e.description);
    var u := OptionalTag(OgUrl, e.url);
    var g := OptionalTag(OgImage, e.image);
    var th := OptionalTag(ThemeColor, Some(e.themeColor));
    var c := OptionalTag(TwitterCard, if e.largeImage then Some("") else None);
    assert Tags(e) == p0 + d + u + g + th + c;
    TagOfPair(p0[0], p0[1]);
    TagOfOptional(OgDescription, e.description);
    TagOfOptional(OgUrl, e.url);
    TagOfOptional(OgImage, e.image);
    TagOfOptional(ThemeColor, Some(e.themeColor));
    TagOfOptional(TwitterCard, if e.largeImage then Some("") else None);
    TagOfConcat(p0, d);
    TagOfConcat(p0 + d, u);
    TagOfConcat(p0 + d + u, g);
    TagOfConcat(p0 + d + u + g, th);
    TagOfConcat(p0 + d + u + g + th, c);
  }

  lemma RenderAppend(tags: seq<Tag>, t: Tag)
    ensures RenderAll(tags + [t]) == RenderAll(tags) + Render(t)
  {
    assert (tags + [t])[..|tags|] == tags;
  }

  /** The `if let Some(…)` pushes of `build`: the tag's HTML when the value is present, nothing otherwise. */
  function OptionalHtml(v: Option<string>, property: string): string {
    match v
    case None => ""
    case Some(c) => MetaProperty(c, property)
  }

  /** The HTML of an embed, piece by piece in the order `build` pushes it. */
  function EmbedHtml(e: EmbedMetadata): string {
    MetaProperty(e.title, "og:title") + MetaProperty(e.siteName, "og:site_name")
    + OptionalHtml(e.description, "og:description") + OptionalHtml(e.url, "og:url")
    + OptionalHtml(e.image, "og:image") + MetaName(e.themeColor, "theme-color")
    + (if e.largeImage then CardTag else "")
  }

  lemma RenderPushOptional(x: seq<Tag>, k: Kind, v: Option<string>, property: string)
    requires v.Some? ==> Render(Tag(k, v.value)) == MetaProperty(v.value, property)
    ensures RenderAll(x + OptionalTag(k, v)) == RenderAll(x) + OptionalHtml(v, property)
  {
    if v.Some? {
      RenderAppend(x, Tag(k, v.value));
    } else {
      assert x + [] == x;
    }
  }

  /** The two tags every embed opens with. */
  lemma FirstPair(e: EmbedMetadata)
    ensures RenderAll([Tag(OgTitle, e.title), Tag(OgSiteName, e.siteName)]) == MetaProperty(e.title, "og:title") + MetaProperty(e.siteName, "og:site_name")
  {
    var p0 := [Tag(OgTitle, e.title), Tag(OgSiteName, e.siteName)];
    var title := MetaProperty(e.title, "og:title");
    RenderAppend([], p0[0]);
    assert [] + [p0[0]] == [p0[0]] && "" + title == title;
    RenderAppend([p0[0]], p0[1]);
    assert [p0[0]] + [p0[1]] == p0;
  }
  /** `Tags` as the concatenation of its pieces. */
  lemma TagsSplit(e: EmbedMetadata)
    ensures Tags(e) == [Tag(OgTitle, e.title), Tag(OgSiteName, e.siteName)] + OptionalTag(OgDescription, e.description)
      + OptionalTag(OgUrl, e.url) + OptionalTag(OgImage, e.image) + [Tag(ThemeColor, e.themeColor)] + (if e.largeImage then [Tag(TwitterCard, "")] else [])
  {}

  lemma RenderPushCard(x: seq<Tag>, largeImage: bool)
    ensures RenderAll(x + (if largeImage then [Tag(TwitterCard, "")] else [])) == RenderAll(x) + (if largeImage then CardTag else "")
  {
    if largeImage {
      RenderAppend(x, Tag(TwitterCard, ""));
    } else {
      assert x + [] == x;
    }
  }
  /** The pushes of `build` render, one by one, the tags `Tags` lists. */
  lemma EmbedHtmlTags(e: EmbedMetadata)
    ensures EmbedHtml(e) == RenderAll(Tags(e))
  {
    var p0 := [Tag(OgTitle, e.title), Tag(OgSiteName, e.siteName)];
    var d := OptionalTag(OgDescription, e.description);
    var u := OptionalTag(OgUrl, e.url);
    var g := OptionalTag(OgImage, e.image);
    var th := Tag(ThemeColor, e.themeColor);
    TagsSplit(e);
    FirstPair(e);
    RenderPushOptional(p0, OgDescription, e.description, "og:description");
    RenderPushOptional(p0 + d, OgUrl, e.url, "og:url");
    RenderPushOptional(p0 + d + u, OgImage, e.image, "og:image");
    RenderAppend(p0 + d + u + g, th);
    RenderPushCard(p0 + d + u + g + [th], e.largeImage);
  }

  /** An `if let Some(v) = …` push of `build`. */
  method PushOptional(s: string, v: Option<string>, property: string) returns (s': string)
    ensures s' == s + OptionalHtml(v, property)
  {
    s' := s;
    if v.Some? {
      s' := s' + MetaProperty(v.value, property);
    } else {
      assert s' == s + "";
    }
  }

  /** The closing push of `build`: the large-image card, when asked for. */
  method PushCard(s: string, largeImage: bool) returns (s': string)
    ensures s' == s + (if largeImage then CardTag else "")
  {
    s' := s;
    if largeImage {
      s' := s' + CardTag;
    } else {
      assert s' == s + "";
    }
  }

  /** `build`: the string grows by one tag at a time, in the order of `Tags`. */
  method Build(e: EmbedMetadata) returns (s: string)
    ensures s == EmbedHtml(e)
    ensures s == RenderAll(Tags(e))
  {
    s := MetaProperty(e.title, "og:title");
    s := s + MetaProperty(e.siteName, "og:site_name");
    s := PushOptional(s, e.description, "og:description");
    s := PushOptional(s, e.url, "og:url");
    s := PushOptional(s, e.image, "og:image");
    s := s + MetaName(e.themeColor, "theme-color");
    s := PushCard(s, e.largeImage);
    EmbedHtmlTags(e);
  }
}
