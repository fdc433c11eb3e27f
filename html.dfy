/**
 * The part of `lol_html::HtmlRewriter` the program relies on: element handlers selected by tag name
 * that prepend or append raw HTML to an element's content or change its attributes. The document
 * is modelled as a tree; tokenizing and serializing it are left to parameters.
 */
module Html {
  /** A node of a document: raw HTML (text, or content a handler inserted) or an element. */
  datatype Node = Raw(html: string) | Element(name: string, attrs: map<string, string>, children: seq<Node>)

  /**
   * The handlers of one rewrite: what every `head` element gets prepended and appended
   * (in order), and how every `a` element's attributes change.
   */
  datatype Handlers = Handlers(
    prepend: seq<string>,
    append: seq<string>,
    anchor: map<string, string> -> map<string, string>)

  function RawNodes(ss: seq<string>): (r: seq<Node>)
    ensures |r| == |ss| && forall i :: 0 <= i < |ss| ==> r[i] == Raw(ss[i])
  {
    if ss == [] then [] else [Raw(ss[0])] + RawNodes(ss[1..])
  }

  /** One node after the rewrite: handlers run on every element, nested ones included. */
  function RewriteNode(n: Node, h: Handlers): Node
    decreases n
  {
    match n
    case Raw(_) => n
    case Element(name, attrs, children) =>
      var inner := RewriteNodes(children, h);
      if name == "head" then Element(name, attrs, RawNodes(h.prepend) + inner + RawNodes(h.append))
      else if name == "a" then Element(name, h.anchor(attrs), inner)
      else Element(name, attrs, inner)
  }

  function RewriteNodes(ns: seq<Node>, h: Handlers): (r: seq<Node>)
    ensures |r| == |ns|
    decreases ns
  {
    if ns == [] then [] else [RewriteNode(ns[0], h)] + RewriteNodes(ns[1..], h)
  }

  /** How many raw nodes holding exactly `s` a document has. */
  function CountRaw(ns: seq<Node>, s: string): nat
    decreases ns
  {
    if ns == [] then 0 else CountRawNode(ns[0], s) + CountRaw(ns[1..], s)
  }

  function CountRawNode(n: Node, s: string): nat
    decreases n
  {
    match n
    case Raw(h) => if h == s then 1 else 0
    case Element(_, _, children) => CountRaw(children, s)
  }

  /** How many elements named `name` a document has. */
  function CountElements(ns: seq<Node>, name: string): nat
    decreases ns
  {
    if ns == [] then 0 else CountElementsNode(ns[0], name) + CountElements(ns[1..], name)
  }

  function CountElementsNode(n: Node, name: string): nat
    decreases n
  {
    match n
    case Raw(_) => 0
    case Element(x, _, children) => (if x == name then 1 else 0) + CountElements(children, name)
  }

  /** How many of `ss` equal `s`. */
  function Occurrences(ss: seq<string>, s: string): nat {
    if ss == [] then 0 else (if ss[0] == s then 1 else 0) + Occurrences(ss[1..], s)
  }

  lemma {:induction false} CountRawConcat(a: seq<Node>, b: seq<Node>, s: string)
    ensures CountRaw(a + b, s) == CountRaw(a, s) + CountRaw(b, s)
  {
    if a == [] {
      assert a + b == b;
    } else {
      assert (a + b)[0] == a[0];
      assert (a + b)[1..] == a[1..] + b;
      CountRawConcat(a[1..], b, s);
    }
  }

  lemma {:induction false} CountRawNodes(ss: seq<string>, s: string)
    ensures CountRaw(RawNodes(ss), s) == Occurrences(ss, s)
  {
    if ss != [] {
      CountRawNodes(ss[1..], s);
    }
  }

  /**
   * A raw HTML string the head handler inserts at most once gains one copy per `head` element
   * when it is inserted, and none when it is not.
   */
  lemma {:induction false} RewriteCountRaw(ns: seq<Node>, h: Handlers, s: string)
    requires Occurrences(h.prepend, s) + Occurrences(h.append, s) <= 1
    ensures CountRaw(RewriteNodes(ns, h), s)
      == CountRaw(ns, s) + (if Occurrences(h.prepend, s) + Occurrences(h.append, s) == 0 then 0 else CountElements(ns, "head"))
    decreases ns
  {
    if ns != [] {
      RewriteCountRawNode(ns[0], h, s);
      RewriteCountRaw(ns[1..], h, s);
    }
  }

  lemma {:induction false} RewriteCountRawNode(n: Node, h: Handlers, s: string)
    requires Occurrences(h.prepend, s) + Occurrences(h.append, s) <= 1
    ensures CountRawNode(RewriteNode(n, h), s)
      == CountRawNode(n, s) + (if Occurrences(h.prepend, s) + Occurrences(h.append, s) == 0 then 0 else CountElementsNode(n, "head"))
    decreases n
  {
    match n
    case Raw(_) =>
    case Element(x, attrs, children) =>
      RewriteCountRaw(children, h, s);
      if x == "head" {
        var inner := RewriteNodes(children, h);
        var pre, post := RawNodes(h.prepend), RawNodes(h.append);
        CountRawConcat(pre + inner, post, s);
        CountRawConcat(pre, inner, s);
        CountRawNodes(h.prepend, s);
        CountRawNodes(h.append, s);
      }
  }

  /** Every element survives the rewrite and none is added. */
  lemma {:induction false} RewriteCountElements(ns: seq<Node>, h: Handlers, name: string)
    ensures CountElements(RewriteNodes(ns, h), name) == CountElements(ns, name)
    decreases ns
  {
    if ns != [] {
      RewriteCountElementsNode(ns[0], h, name);
      RewriteCountElements(ns[1..], h, name);
    }
  }

  lemma {:induction false} RewriteCountElementsNode(n: Node, h: Handlers, name: string)
    ensures CountElementsNode(RewriteNode(n, h), name) == CountElementsNode(n, name)
    decreases n
  {
    match n
    case Raw(_) =>
    case Element(x, attrs, children) =>
      RewriteCountElements(children, h, name);
      if x == "head" {
        var inner := RewriteNodes(children, h);
        var pre, post := RawNodes(h.prepend), RawNodes(h.append);
        CountElementsConcat(pre + inner, post, name);
        CountElementsConcat(pre, inner, name);
        CountElementsRaw(h.prepend, name);
        CountElementsRaw(h.append, name);
      }
  }

  lemma {:induction false} CountElementsConcat(a: seq<Node>, b: seq<Node>, name: string)
    ensures CountElements(a + b, name) == CountElements(a, name) + CountElements(b, name)
  {
    if a == [] {
      assert a + b == b;
    } else {
      assert (a + b)[0] == a[0];
      assert (a + b)[1..] == a[1..] + b;
      CountElementsConcat(a[1..], b, name);
    }
  }

  lemma {:induction false} CountElementsRaw(ss: seq<string>, name: string)
    ensures CountElements(RawNodes(ss), name) == 0
  {
    if ss != [] {
      CountElementsRaw(ss[1..], name);
    }
  }

  /** The rewrite with identity anchors and nothing to insert leaves the document as it is. */
  lemma {:induction false} RewriteIdentity(ns: seq<Node>, h: Handlers)
    requires h.prepend == [] && h.append == [] && forall m :: h.anchor(m) == m
    ensures RewriteNodes(ns, h) == ns
    decreases ns
  {
    if ns != [] {
      RewriteIdentityNode(ns[0], h);
      RewriteIdentity(ns[1..], h);
    }
  }

  lemma {:induction false} RewriteIdentityNode(n: Node, h: Handlers)
    requires h.prepend == [] && h.append == [] && forall m :: h.anchor(m) == m
    ensures RewriteNode(n, h) == n
    decreases n
  {
    match n
    case Raw(_) =>
    case Element(x, attrs, children) =>
      RewriteIdentity(children, h);
  }
}
