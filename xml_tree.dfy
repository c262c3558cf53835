/**
 * A small XML element tree and its serialisation. The WLAN profile and the
 * property list templates are proved to be the serialisation of such trees,
 * so that their structure can be stated element by element.
 */
module XmlTree {
  import opened Wrappers
  import opened Text
  import opened XmlUtils

  datatype Node =
    | Element(tag: string, attributes: seq<(string, string)>, children: seq<Node>)
    | EmptyElement(tag: string)
    | CharData(content: string)

  /** An element holding only text. */
  function Leaf(tag: string, content: string): Node {
    Element(tag, [], [CharData(content)])
  }

  function StartTag(tag: string, attributes: seq<(string, string)>): string {
    "<" + tag + RenderAttributes(attributes) + ">"
  }

  function CloseTag(tag: string): string {
    "</" + tag + ">"
  }

  /** Attribute values are entity-escaped. */
  function RenderAttributes(attributes: seq<(string, string)>): string
  {
    if attributes == [] then []
    else " " + attributes[0].0 + "=\"" + EscapeXmlChars(attributes[0].1) + "\"" + RenderAttributes(attributes[1..])
  }

  /**
   * The serialisation as a list of pieces: a tag, or a run of escaped
   * character data. `Render` joins them.
   */
  function Pieces(n: Node): seq<string>
    decreases n
  {
    match n
    case CharData(t) => [EscapeXmlChars(t)]
    case EmptyElement(tag) => ["<" + tag + "/>"]
    case Element(tag, attributes, children) => [StartTag(tag, attributes)] + ChildPieces(children) + [CloseTag(tag)]
  }

  function ChildPieces(ns: seq<Node>): seq<string>
    decreases ns
  {
    if ns == [] then [] else Pieces(ns[0]) + ChildPieces(ns[1..])
  }

  /** The serialisation of a node. */
  function Render(n: Node): string {
    Concat(Pieces(n))
  }

  /** The first child element named `tag`. */
  function ChildNamed(ns: seq<Node>, tag: string): (r: Option<Node>)
    ensures r.Some? ==> r.value in ns && r.value.Element? && r.value.tag == tag
    ensures r.None? ==> forall i :: 0 <= i < |ns| ==> !(ns[i].Element? && ns[i].tag == tag)
  {
    if ns == [] then None
    else if ns[0].Element? && ns[0].tag == tag then Some(ns[0])
    else ChildNamed(ns[1..], tag)
  }

  /** The element reached by following child names from `n`. */
  function Find(n: Node, path: seq<string>): Option<Node>
    decreases |path|
  {
    if path == [] then Some(n)
    else if !n.Element? then None
    else match ChildNamed(n.children, path[0])
      case None => None
      case Some(c) => Find(c, path[1..])
  }

  /** The character data directly inside a node. */
  function TextOf(n: Node): string
  {
    match n
    case CharData(t) => t
    case EmptyElement(_) => []
    case Element(_, _, children) => TextOfChildren(children)
  }

  function TextOfChildren(ns: seq<Node>): string
  {
    if ns == [] then []
    else (if ns[0].CharData? then ns[0].content else []) + TextOfChildren(ns[1..])
  }

  /** The text of the element at `path`, if there is one. */
  function TextAt(n: Node, path: seq<string>): Option<string>
  {
    match Find(n, path)
    case None => None
    case Some(e) => Some(TextOf(e))
  }

  lemma ChildPiecesCons(n: Node, rest: seq<Node>)
    ensures ChildPieces([n] + rest) == Pieces(n) + ChildPieces(rest)
  {
    assert ([n] + rest)[1..] == rest;
  }

  lemma ChildPiecesOne(a: Node)
    ensures ChildPieces([a]) == Pieces(a)
  {
    ChildPiecesCons(a, []);
    assert [a] + [] == [a];
  }

  lemma ChildPiecesTwo(a: Node, b: Node)
    ensures ChildPieces([a, b]) == Pieces(a) + Pieces(b)
  {
    ChildPiecesOne(b);
    assert [a] + [b] == [a, b];
    ChildPiecesCons(a, [b]);
  }

  lemma ChildPiecesThree(a: Node, b: Node, c: Node)
    ensures ChildPieces([a, b, c]) == Pieces(a) + Pieces(b) + Pieces(c)
  {
    ChildPiecesTwo(b, c);
    assert [a] + [b, c] == [a, b, c];
    ChildPiecesCons(a, [b, c]);
  }

  lemma ChildPiecesFive(a: Node, b: Node, c: Node, d: Node, e: Node)
    ensures ChildPieces([a, b, c, d, e]) == Pieces(a) + (Pieces(b) + (Pieces(c) + (Pieces(d) + Pieces(e))))
  {
    ChildPiecesOne(e);
    ChildPiecesCons(d, [e]);
    assert [d] + [e] == [d, e];
    ChildPiecesCons(c, [d, e]);
    assert [c] + [d, e] == [c, d, e];
    ChildPiecesCons(b, [c, d, e]);
    assert [b] + [c, d, e] == [b, c, d, e];
    ChildPiecesCons(a, [b, c, d, e]);
    assert [a] + [b, c, d, e] == [a, b, c, d, e];
  }

  lemma {:induction false} ChildPiecesAppend(a: seq<Node>, b: seq<Node>)
    ensures ChildPieces(a + b) == ChildPieces(a) + ChildPieces(b)
  {
    if a == [] {
      assert a + b == b;
    } else {
      assert (a + b)[1..] == a[1..] + b;
      ChildPiecesAppend(a[1..], b);
    }
  }

  /** A leaf is its start tag, its escaped text and its end tag. */
  lemma LeafPieces(tag: string, content: string)
    ensures Pieces(Leaf(tag, content)) == [StartTag(tag, []), EscapeXmlChars(content), CloseTag(tag)]
  {
    ChildPiecesOne(CharData(content));
  }

  /** A leaf whose text needs no escaping holds that text as it is. */
  lemma PlainLeafPieces(tag: string, content: string)
    requires IsPlainXmlText(content)
    ensures Pieces(Leaf(tag, content)) == [StartTag(tag, []), content, CloseTag(tag)]
  {
    LeafPieces(tag, content);
    EscapeXmlCharsPlain(content);
  }

  /** A start tag without attributes. */
  lemma BareStartTag(tag: string)
    ensures StartTag(tag, []) == "<" + tag + ">"
  {
  }

  /** A start tag with one attribute whose value needs no escaping. */
  lemma AttributedStartTag(tag: string, name: string, value: string)
    requires IsPlainXmlText(value)
    ensures StartTag(tag, [(name, value)]) == "<" + tag + " " + name + "=\"" + value + "\">"
  {
    EscapeXmlCharsPlain(value);
    assert RenderAttributes([(name, value)]) == " " + name + "=\"" + value + "\"" + RenderAttributes([]);
  }

  /** A first child that is not an element with the wanted tag is passed over. */
  lemma ChildNamedSkip(ns: seq<Node>, tag: string)
    requires ns != [] && ns[0].Element? && ns[0].tag != tag
    ensures ChildNamed(ns, tag) == ChildNamed(ns[1..], tag)
  { }

  /** Following a path one step: into the first child with the path's first name. */
  lemma FindStep(n: Node, path: seq<string>, c: Node)
    requires path != [] && n.Element? && ChildNamed(n.children, path[0]) == Some(c)
    ensures Find(n, path) == Find(c, path[1..])
  {
  }

  /** The text of a leaf is exactly what was put in it. */
  lemma LeafText(tag: string, content: string)
    ensures TextOf(Leaf(tag, content)) == content
  {
    assert TextOfChildren([CharData(content)]) == content + TextOfChildren([]);
  }

  // ---------------------------------------------------------------------
  // Rendered text of sub-trees

  /** Each child's text occurs in the text of its siblings. */
  lemma {:induction false} ChildPiecesContain(ns: seq<Node>, k: int)
    requires 0 <= k < |ns|
    ensures Contains(Concat(ChildPieces(ns)), Render(ns[k]))
  {
    var rest := Concat(ChildPieces(ns[1..]));
    ChildPiecesCons(ns[0], ns[1..]);
    assert [ns[0]] + ns[1..] == ns;
    ConcatAppend(Pieces(ns[0]), ChildPieces(ns[1..]));
    if k == 0 {
      ContainsInfix([], Render(ns[0]), rest);
      assert [] + Render(ns[0]) + rest == Render(ns[0]) + rest;
    } else {
      ChildPiecesContain(ns[1..], k - 1);
      ContainsInfix(Render(ns[0]), rest, []);
      assert Render(ns[0]) + rest + [] == Render(ns[0]) + rest;
      ContainsTransitive(Concat(ChildPieces(ns)), rest, Render(ns[k]));
    }
  }

  /** An element's text contains the text of each of its children. */
  lemma RenderContainsChild(n: Node, k: int)
    requires n.Element? && 0 <= k < |n.children|
    ensures Contains(Render(n), Render(n.children[k]))
  {
    var inner := ChildPieces(n.children);
    ConcatAppend([StartTag(n.tag, n.attributes)] + inner, [CloseTag(n.tag)]);
    ConcatAppend([StartTag(n.tag, n.attributes)], inner);
    ContainsInfix(Concat([StartTag(n.tag, n.attributes)]), Concat(inner), Concat([CloseTag(n.tag)]));
    ChildPiecesContain(n.children, k);
    ContainsTransitive(Render(n), Concat(inner), Render(n.children[k]));
  }

  /** Whatever `Find` reaches is rendered inside the text of the tree. */
  lemma {:induction false} FindContained(n: Node, path: seq<string>)
    requires Find(n, path).Some?
    ensures Contains(Render(n), Render(Find(n, path).value))
    decreases |path|
  {
    if path == [] {
      ContainsInfix([], Render(n), []);
      assert [] + Render(n) + [] == Render(n);
    } else {
      var c := ChildNamed(n.children, path[0]).value;
      var k :| 0 <= k < |n.children| && n.children[k] == c;
      RenderContainsChild(n, k);
      FindContained(c, path[1..]);
      ContainsTransitive(Render(n), Render(c), Render(Find(c, path[1..]).value));
    }
  }

  /** The text of a leaf element. */
  lemma RenderLeaf(tag: string, content: string)
    ensures Render(Leaf(tag, content)) == StartTag(tag, []) + EscapeXmlChars(content) + CloseTag(tag)
  {
    var e := EscapeXmlChars(content);
    LeafPieces(tag, content);
    assert [StartTag(tag, []), e, CloseTag(tag)] == [StartTag(tag, [])] + ([e] + [CloseTag(tag)]);
    ConcatAppend([StartTag(tag, [])], [e] + [CloseTag(tag)]);
    ConcatAppend([e], [CloseTag(tag)]);
    assert Concat([CloseTag(tag)]) == CloseTag(tag) + Concat([]);
    assert Concat([e]) == e + Concat([]);
    assert Concat([StartTag(tag, [])]) == StartTag(tag, []) + Concat([]);
  }

  /** An element's text starts with its start tag. */
  lemma RenderContainsStartTag(n: Node)
    requires n.Element?
    ensures Contains(Render(n), StartTag(n.tag, n.attributes))
  {
    var rest := ChildPieces(n.children) + [CloseTag(n.tag)];
    assert Pieces(n) == [StartTag(n.tag, n.attributes)] + rest;
    ConcatContainsPart(Pieces(n), 0);
  }
}
