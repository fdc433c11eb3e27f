/**
 * The inner `build_list` of `ResourceBuilder::build_all` (src/resource.rs): a list of resources is cut
 * into pages of `resources_per_page` items; each page is rendered with its number, the page count
 * and the numbers of its neighbours, wrapped in the page shell and written to `<n>.html`, the first
 * page also to `index.html`.
 */
module Pagination {
  import opened Wrappers
  import opened Runs
  import opened Paths
  import Text

  function Min(a: nat, b: nat): nat {
    if a <= b then a else b
  }

  /** The page count `len / per + min(len % per, 1)`. */
  function PageMax(len: nat, per: nat): nat
    requires per > 0
  {
    len / per + Min(len % per, 1)
  }

  /** `PageMax` is the least number of pages of `per` items that hold `len` items, so zero exactly for an empty list. */
  lemma PageMaxCovers(len: nat, per: nat)
    requires per > 0
    ensures var r := PageMax(len, per);
      && len <= r * per
      && (r > 0 ==> (r - 1) * per < len)
      && (r == 0 <==> len == 0)
  {
    var q, m := len / per, len % per;
    assert len == q * per + m;
    if m == 0 {
      assert q > 0 ==> (q - 1) * per == q * per - per;
    } else {
      assert (q + 1) * per == q * per + per;
    }
  }

  /** A page count is determined by the covering condition: `PageMax` is the only count meeting it. */
  lemma PageCountUnique(len: nat, per: nat, c: nat)
    requires per > 0
    requires len <= c * per && (c > 0 ==> (c - 1) * per < len)
    ensures c == PageMax(len, per)
  {
    PageMaxCovers(len, per);
    var r := PageMax(len, per);
    if c < r {
      MulMono(c, r - 1, per);
    } else if r < c {
      MulMono(r, c - 1, per);
    }
  }

  lemma MulMono(a: nat, b: nat, per: nat)
    requires a <= b
    ensures a * per <= b * per
  {
    assert b * per == a * per + (b - a) * per;
  }

  /** Itertools' `chunks(per)`: consecutive runs of `per` items, the last one possibly shorter. */
  function Chunks<T>(s: seq<T>, per: nat): (r: seq<seq<T>>)
    requires per > 0
    decreases |s|
  {
    if s == [] then [] else if |s| <= per then [s] else [s[..per]] + Chunks(s[per..], per)
  }

  function Flatten<T>(ss: seq<seq<T>>): seq<T> {
    if ss == [] then [] else ss[0] + Flatten(ss[1..])
  }

  /** The chunks, in order, concatenate back to the list. */
  lemma {:induction false} ChunksFlatten<T>(s: seq<T>, per: nat)
    requires per > 0
    ensures Flatten(Chunks(s, per)) == s
    decreases |s|
  {
    if s != [] && |s| > per {
      ChunksFlatten(s[per..], per);
      assert Chunks(s, per)[1..] == Chunks(s[per..], per);
      assert s == s[..per] + s[per..];
    }
  }

  /** There are `PageMax` chunks; each holds between one and `per` items, and all but the last exactly `per`. */
  lemma ChunksSizes<T>(s: seq<T>, per: nat)
    requires per > 0
    ensures |Chunks(s, per)| == PageMax(|s|, per)
    ensures forall k :: 0 <= k < |Chunks(s, per)| ==> 1 <= |Chunks(s, per)[k]| <= per
    ensures forall k :: 0 <= k < |Chunks(s, per)| - 1 ==> |Chunks(s, per)[k]| == per
  {
    ChunksCount(s, per);
    ChunksBounds(s, per);
  }

  lemma {:induction false} ChunksCount<T>(s: seq<T>, per: nat)
    requires per > 0
    ensures |Chunks(s, per)| == PageMax(|s|, per)
    decreases |s|
  {
    if s == [] {
    } else if |s| <= per {
      PageCountUnique(|s|, per, 1);
    } else {
      ChunksCount(s[per..], per);
      PageCountStep(|s|, per);
    }
  }

  /** One more full page: `PageMax(len, per)` is one more than `PageMax(len - per, per)`. */
  lemma PageCountStep(len: nat, per: nat)
    requires 0 < per < len
    ensures PageMax(len, per) == PageMax(len - per, per) + 1
  {
    var n := PageMax(len - per, per);
    PageMaxCovers(len - per, per);
    assert (n + 1) * per == n * per + per;
    assert n > 0;
    assert (n - 1) * per == n * per - per;
    PageCountUnique(len, per, n + 1);
  }

  lemma {:induction false} ChunksBounds<T>(s: seq<T>, per: nat)
    requires per > 0
    ensures forall k :: 0 <= k < |Chunks(s, per)| ==> 1 <= |Chunks(s, per)[k]| <= per
    ensures forall k :: 0 <= k < |Chunks(s, per)| - 1 ==> |Chunks(s, per)[k]| == per
    decreases |s|
  {
    if s != [] && |s| > per {
      ChunksBounds(s[per..], per);
      assert Chunks(s, per) == [s[..per]] + Chunks(s[per..], per);
    }
  }

  /** `ResourceListTemplateData`: one page of a list, as the list template sees it. */
  datatype ListTemplateData<T> = ListTemplateData(
    resources: seq<T>,
    tag: Option<string>,
    page: nat,
    pageMax: nat,
    previous: Option<nat>,
    next: Option<nat>)

  /** The list pages that `build_list` renders, described page by page. */
  function ListPages<T>(list: seq<T>, per: nat, tag: Option<string>): seq<ListTemplateData<T>>
    requires per > 0
  {
    var chunks := Chunks(list, per);
    var pageMax := PageMax(|list|, per);
    seq(|chunks|, k requires 0 <= k < |chunks| =>
      ListTemplateData(chunks[k], tag, k + 1, pageMax,
        if k == 0 then None else Some(k),
        if k + 1 != pageMax then Some(k + 2) else None))
  }

  function Resources<T>(pages: seq<ListTemplateData<T>>): seq<seq<T>> {
    seq(|pages|, k requires 0 <= k < |pages| => pages[k].resources)
  }

  /** Page `k` of the list, as `build_list` numbers and links it. */
  lemma ListPageAt<T>(list: seq<T>, per: nat, tag: Option<string>, k: nat)
    requires per > 0 && k < |Chunks(list, per)|
    ensures var pages := ListPages(list, per, tag); var pageMax := PageMax(|list|, per);
      && |pages| == |Chunks(list, per)| && pages[k].resources == Chunks(list, per)[k]
      && pages[k].page == k + 1 && pages[k].pageMax == pageMax && pages[k].tag == tag
      && pages[k].previous == (if k == 0 then None else Some(k))
      && pages[k].next == (if k + 1 != pageMax then Some(k + 2) else None)
  {
  }

  /**
   * The pages: `PageMax` of them, numbered 1 to `PageMax`, their items in list order and
   * concatenating back to the list, full except perhaps the last.
   */
  lemma ListPagesShape<T>(list: seq<T>, per: nat, tag: Option<string>)
    requires per > 0
    ensures var pages := ListPages(list, per, tag);
      && |pages| == PageMax(|list|, per)
      && Flatten(Resources(pages)) == list
      && (forall k :: 0 <= k < |pages| ==>
            && pages[k].page == k + 1 && pages[k].pageMax == |pages| && pages[k].tag == tag
            && 1 <= |pages[k].resources| <= per
            && (k < |pages| - 1 ==> |pages[k].resources| == per))
  {
    var pages := ListPages(list, per, tag);
    var chunks := Chunks(list, per);
    ChunksSizes(list, per);
    ChunksFlatten(list, per);
    forall k | 0 <= k < |pages| ensures pages[k].resources == chunks[k] {
      ListPageAt(list, per, tag, k);
    }
    assert Resources(pages) == chunks;
  }

  /**
   * The links between pages: `previous` is absent on the first page and the number of the page
   * before otherwise; `next` is absent on the last page and the number of the page after otherwise.
   */
  lemma ListPagesLinks<T>(list: seq<T>, per: nat, tag: Option<string>)
    requires per > 0
    ensures var pages := ListPages(list, per, tag);
      && (forall k :: 0 <= k < |pages| ==> (pages[k].previous.None? <==> k == 0))
      && (forall k :: 0 < k < |pages| ==> pages[k].previous == Some(pages[k - 1].page))
      && (forall k :: 0 <= k < |pages| ==> (pages[k].next.None? <==> k == |pages| - 1))
      && (forall k :: 0 <= k < |pages| - 1 ==> pages[k].next == Some(pages[k + 1].page))
  {
    ChunksSizes(list, per);
  }

  /** An empty list has no pages at all. */
  lemma EmptyListNoPages<T>(per: nat, tag: Option<string>)
    requires per > 0
    ensures ListPages<T>([], per, tag) == []
  {
  }

  /** `out_path.join(n.to_string()).with_extension("html")`. */
  function PageFile(outPath: Path, n: nat): Path {
    WithExtension(outPath + [Text.NatToString(n)], "html")
  }

  /** A page file is `<n>.html` in the list's directory; distinct pages have distinct files. */
  lemma PageFileName(outPath: Path, m: nat, n: nat)
    ensures PageFile(outPath, n) == outPath + [Text.NatToString(n) + ".html"]
    ensures PageFile(outPath, m) == PageFile(outPath, n) ==> m == n
  {
    PageFileIs(outPath, n);
    PageFileIs(outPath, m);
    var d := Text.NatToString(n);
    var e := Text.NatToString(m);
    if PageFile(outPath, m) == PageFile(outPath, n) {
      assert (outPath + [e + ".html"])[|outPath|] == (outPath + [d + ".html"])[|outPath|];
      assert |e| == |d|;
      assert e == (e + ".html")[..|e|] == (d + ".html")[..|d|] == d;
      Text.NatToStringInjective(m, n);
    }
  }

  lemma PageFileIs(outPath: Path, n: nat)
    ensures PageFile(outPath, n) == outPath + [Text.NatToString(n) + ".html"]
  {
    var d := Text.NatToString(n);
    assert '.' !in d by {
      assert forall i :: 0 <= i < |d| ==> '0' <= d[i] <= '9';
    }
    WithExtensionNoDot(outPath, d, "html");
    assert d + "." + "html" == d + ".html";
  }

  /**
   * How a list page is rendered: the list template, then the page shell under the list's title.
   * Both are parameters standing for the Handlebars registry and `SiteBuilder::build_page_raw`.
   */
  datatype ListRenderer<!T> = ListRenderer(
    render: (string, ListTemplateData<T>) -> Result<string>,
    shell: (string, string) -> Result<string>)

  /** What rendering and writing page `k` does. */
  function PageStep<T>(ren: ListRenderer<T>, template: string, title: string, outPath: Path,
                       k: nat, d: ListTemplateData<T>): Run<Write>
  {
    match ren.render(template, d)
    case Err(e) => Run(Err(e), [])
    case Ok(html) =>
      match ren.shell(title, html)
      case Err(e) => Run(Err(e), [])
      case Ok(out) =>
        Run(Done, (if k == 0 then [Write(outPath + ["index.html"], out)] else [])
                  + [Write(PageFile(outPath, k + 1), out)])
  }

  /** The step function of the page loop. */
  function PageSteps<T>(ren: ListRenderer<T>, template: string, title: string, outPath: Path)
    : (nat, ListTemplateData<T>) -> Run<Write>
  {
    (k: nat, d: ListTemplateData<T>) => PageStep(ren, template, title, outPath, k, d)
  }

  /** The whole of `build_list`: a zero page size panics in the division; otherwise the pages in order. */
  function ListRun<T>(ren: ListRenderer<T>, template: string, list: seq<T>, title: string,
                      tag: Option<string>, outPath: Path, per: nat): Run<Write>
  {
    if per == 0 then Run(Err(Panic("attempt to divide by zero")), [])
    else
      var pages := ListPages(list, per, tag);
      Steps(pages, PageSteps(ren, template, title, outPath), |pages|)
  }

  /** `build_list` itself: the chunk loop, carrying `previous` from one page to the next. */
  method BuildList<T>(ren: ListRenderer<T>, template: string, list: seq<T>, title: string,
                      tag: Option<string>, outPath: Path, per: nat)
    returns (res: Outcome, writes: seq<Write>)
    ensures Run(res, writes) == ListRun(ren, template, list, title, tag, outPath, per)
  {
    if per == 0 {
      return Err(Panic("attempt to divide by zero")), [];
    }
    var pageMax := |list| / per + Min(|list| % per, 1);
    var chunks := Chunks(list, per);
    res, writes := ChunkLoop(ren, template, list, title, tag, outPath, per, chunks, pageMax);
  }

  /** The chunk loop of `build_list`, carrying `previous` from one page to the next. */
  method ChunkLoop<T>(ren: ListRenderer<T>, template: string, list: seq<T>, title: string,
                      tag: Option<string>, outPath: Path, per: nat, chunks: seq<seq<T>>, pageMax: nat)
    returns (res: Outcome, writes: seq<Write>)
    requires per > 0 && chunks == Chunks(list, per) && pageMax == PageMax(|list|, per)
    ensures Run(res, writes) == Steps(ListPages(list, per, tag), PageSteps(ren, template, title, outPath),
                                      |ListPages(list, per, tag)|)
  {
    ghost var pages := ListPages(list, per, tag);
    ghost var f := PageSteps(ren, template, title, outPath);
    var previous: Option<nat> := None;
    var page := 0;
    writes := [];
    while page < |chunks|
      invariant page <= |chunks| == |pages|
      invariant previous == if page == 0 then None else Some(page)
      invariant Steps(pages, f, page) == Run(Done, writes)
    {
      var next := if page + 1 != pageMax then Some(page + 2) else None;
      var data := ListTemplateData(chunks[page], tag, page + 1, pageMax, previous, next);
      PageDataAt(list, per, tag, page, previous, pageMax);
      var r, pageWrites := BuildListPage(ren, template, title, outPath, page, data);
      if r.Err? {
        StepsNextErr(pages, f, page, writes, Run(r, pageWrites));
        return r, writes + pageWrites;
      }
      StepsNextOk(pages, f, page, writes, Run(r, pageWrites));
      writes := writes + pageWrites;
      previous := Some(page + 1);
      page := page + 1;
    }
    res := Done;
  }

  /** The template data the loop builds for page `k` is that page of `ListPages`. */
  lemma PageDataAt<T>(list: seq<T>, per: nat, tag: Option<string>, k: nat, previous: Option<nat>, pageMax: nat)
    requires per > 0 && k < |Chunks(list, per)| && pageMax == PageMax(|list|, per)
    requires previous == if k == 0 then None else Some(k)
    ensures |ListPages(list, per, tag)| == |Chunks(list, per)|
    ensures ListPages(list, per, tag)[k] == ListTemplateData(Chunks(list, per)[k], tag, k + 1, pageMax, previous,
                                                               if k + 1 != pageMax then Some(k + 2) else None)
  {
    ListPageAt(list, per, tag, k);
  }

  /** One iteration of the chunk loop: render page `k`, wrap it in the shell, write it (page 0 also as `index.html`). */
  method BuildListPage<T>(ren: ListRenderer<T>, template: string, title: string, outPath: Path,
                          k: nat, data: ListTemplateData<T>)
    returns (r: Outcome, writes: seq<Write>)
    ensures Run(r, writes) == PageStep(ren, template, title, outPath, k, data)
  {
    var rendered := ren.render(template, data);
    if rendered.Err? {
      return Err(rendered.error), [];
    }
    var out := ren.shell(title, rendered.value);
    if out.Err? {
      return Err(out.error), [];
    }
    writes := [Write(PageFile(outPath, k + 1), out.value)];
    if k == 0 {
      writes := [Write(outPath + ["index.html"], out.value)] + writes;
    }
    r := Done;
  }

  /** The HTML of a page whose rendering and shell succeed. */
  function PageHtml<T>(ren: ListRenderer<T>, template: string, title: string, d: ListTemplateData<T>): string {
    match ren.render(template, d)
    case Err(_) => ""
    case Ok(html) =>
      match ren.shell(title, html)
      case Err(_) => ""
      case Ok(out) => out
  }

  /** A successful page step renders the page, wraps it in the shell, and writes it (the first page twice). */
  lemma PageStepOk<T>(ren: ListRenderer<T>, template: string, title: string, outPath: Path,
                      k: nat, d: ListTemplateData<T>)
    requires PageStep(ren, template, title, outPath, k, d).outcome.Ok?
    ensures ren.render(template, d).Ok?
    ensures ren.shell(title, ren.render(template, d).value) == Ok(PageHtml(ren, template, title, d))
    ensures PageStep(ren, template, title, outPath, k, d).out ==
      (if k == 0 then [Write(outPath + ["index.html"], PageHtml(ren, template, title, d))] else [])
      + [Write(PageFile(outPath, k + 1), PageHtml(ren, template, title, d))]
  {
  }

  /** The files a successful run of the first `n` pages wrote, with the HTML of each page. */
  lemma StepsWrites<T>(ren: ListRenderer<T>, template: string, title: string,
                       outPath: Path, pages: seq<ListTemplateData<T>>, n: nat)
    requires n <= |pages|
    requires Steps(pages, PageSteps(ren, template, title, outPath), n).outcome.Ok?
    ensures var w := Steps(pages, PageSteps(ren, template, title, outPath), n).out;
      && |w| == (if n == 0 then 0 else n + 1)
      && (n > 0 ==> w[0] == Write(outPath + ["index.html"], PageHtml(ren, template, title, pages[0])))
      && (forall k :: 0 <= k < n ==> w[k + 1] == Write(PageFile(outPath, k + 1), PageHtml(ren, template, title, pages[k])))
    ensures forall k :: 0 <= k < n ==>
      && ren.render(template, pages[k]).Ok?
      && ren.shell(title, ren.render(template, pages[k]).value) == Ok(PageHtml(ren, template, title, pages[k]))
  {
    PageStepsShaped(ren, template, title, outPath, pages, n);
    Runs.StepsHeaded(pages, PageSteps(ren, template, title, outPath), n,
                     IndexWriteAt(ren, template, title, outPath, pages), PageWriteAt(ren, template, title, outPath, pages));
    forall k | 0 <= k < n
      ensures ren.render(template, pages[k]).Ok?
      ensures ren.shell(title, ren.render(template, pages[k]).value) == Ok(PageHtml(ren, template, title, pages[k]))
    {
      PageStepOk(ren, template, title, outPath, k, pages[k]);
    }
  }

  /** The `index.html` write of page `k`. */
  function IndexWriteAt<T>(ren: ListRenderer<T>, template: string, title: string, outPath: Path,
                           pages: seq<ListTemplateData<T>>): nat -> Write
  {
    (k: nat) => Write(outPath + ["index.html"], if k < |pages| then PageHtml(ren, template, title, pages[k]) else "")
  }

  /** The `<k + 1>.html` write of page `k`. */
  function PageWriteAt<T>(ren: ListRenderer<T>, template: string, title: string, outPath: Path,
                          pages: seq<ListTemplateData<T>>): nat -> Write
  {
    (k: nat) => Write(PageFile(outPath, k + 1), if k < |pages| then PageHtml(ren, template, title, pages[k]) else "")
  }

  lemma PageStepsShaped<T>(ren: ListRenderer<T>, template: string, title: string,
                           outPath: Path, pages: seq<ListTemplateData<T>>, n: nat)
    requires n <= |pages|
    ensures forall i :: 0 <= i < n && PageSteps(ren, template, title, outPath)(i, pages[i]).outcome.Ok? ==>
      PageSteps(ren, template, title, outPath)(i, pages[i]).out
        == (if i == 0 then [IndexWriteAt(ren, template, title, outPath, pages)(i)] else [])
           + [PageWriteAt(ren, template, title, outPath, pages)(i)]
  {
    forall i | 0 <= i < n && PageSteps(ren, template, title, outPath)(i, pages[i]).outcome.Ok?
      ensures PageSteps(ren, template, title, outPath)(i, pages[i]).out
        == (if i == 0 then [IndexWriteAt(ren, template, title, outPath, pages)(i)] else [])
           + [PageWriteAt(ren, template, title, outPath, pages)(i)]
    {
      PageStepOk(ren, template, title, outPath, i, pages[i]);
    }
  }

  /**
   * A successful list build writes every page to `<n>.html` for its number `n`, the first page's
   * output also to `index.html`, and nothing else: the first page's HTML goes to both `index.html`
   * and `1.html`, and an empty list writes no file.
   */
  lemma ListWrites<T>(ren: ListRenderer<T>, template: string, list: seq<T>, title: string,
                      tag: Option<string>, outPath: Path, per: nat)
    requires ListRun(ren, template, list, title, tag, outPath, per).outcome.Ok?
    ensures var w := ListRun(ren, template, list, title, tag, outPath, per).out;
      var n := PageMax(|list|, per);
      && |w| == (if n == 0 then 0 else n + 1)
      && (list == [] ==> w == [])
      && (n > 0 ==> w[0].path == outPath + ["index.html"] && w[1].path == outPath + ["1.html"]
                    && w[0].contents == w[1].contents)
      && (forall k :: 1 <= k <= n ==> w[k].path == outPath + [Text.NatToString(k) + ".html"])
  {
    var pages := ListPages(list, per, tag);
    var n := PageMax(|list|, per);
    assert |pages| == n by {
      ChunksSizes(list, per);
    }
    var w := Steps(pages, PageSteps(ren, template, title, outPath), n).out;
    assert w == ListRun(ren, template, list, title, tag, outPath, per).out;
    StepsWrites(ren, template, title, outPath, pages, n);
    forall k | 1 <= k <= n
      ensures w[k].path == outPath + [Text.NatToString(k) + ".html"]
    {
      assert w[(k - 1) + 1] == Write(PageFile(outPath, k), PageHtml(ren, template, title, pages[k - 1]));
      PageFileName(outPath, k, k);
    }
    if n > 0 {
      assert w[0 + 1] == Write(PageFile(outPath, 1), PageHtml(ren, template, title, pages[0]));
      FirstPageFile(outPath);
    }
  }

  lemma FirstPageFile(outPath: Path)
    ensures PageFile(outPath, 1) == outPath + ["1.html"]
  {
    PageFileName(outPath, 1, 1);
    assert Text.NatToString(1) == "1";
    assert Text.NatToString(1) + ".html" == "1.html";
  }

  /** A failed list build stops at the first page whose rendering fails; its writes are exactly those of the earlier pages. */
  lemma ListFailure<T>(ren: ListRenderer<T>, template: string, list: seq<T>, title: string,
                       tag: Option<string>, outPath: Path, per: nat) returns (k: nat)
    requires per > 0
    requires ListRun(ren, template, list, title, tag, outPath, per).outcome.Err?
    ensures var pages := ListPages(list, per, tag);
      && k < |pages|
      && (forall i :: 0 <= i < k ==> PageStep(ren, template, title, outPath, i, pages[i]).outcome.Ok?)
      && PageStep(ren, template, title, outPath, k, pages[k]).outcome.Err?
      && ListRun(ren, template, list, title, tag, outPath, per).outcome
           == PageStep(ren, template, title, outPath, k, pages[k]).outcome
      && ListRun(ren, template, list, title, tag, outPath, per).out
           == Concat(pages, PageSteps(ren, template, title, outPath), k)
  {
    var pages := ListPages(list, per, tag);
    k := StepsErr(pages, PageSteps(ren, template, title, outPath), |pages|);
  }
}
