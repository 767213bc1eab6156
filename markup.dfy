/**
 * The tokenizer's output as the parser sees it: start tags with their
 * attribute lists, end tags and text. Also well-nested documents, from
 * which well-nested event streams are drawn.
 */
module Markup {
  import opened Options
  import opened Text

  /** Attributes in document order; a valueless attribute (`<td nowrap>`) has no value. */
  type Attrs = seq<(String, Option<String>)>

  datatype Event =
    | Start(tag: String, attrs: Attrs)  // `handle_starttag`
    | End(tag: String)                  // `handle_endtag`
    | Data(text: String)                // `handle_data`

  /** An attribute as `dict(attrs)` holds it; the last occurrence of a name wins. */
  datatype AttrValue = Missing | Valueless | Valued(text: String)

  function Lookup(attrs: Attrs, name: String): (r: AttrValue)
    ensures r.Missing? <==> forall i :: 0 <= i < |attrs| ==> attrs[i].0 != name
  {
    if attrs == [] then Missing
    else if attrs[|attrs| - 1].0 == name then
      (if attrs[|attrs| - 1].1.Some? then Valued(attrs[|attrs| - 1].1.value) else Valueless)
    else
      var r := Lookup(attrs[..|attrs| - 1], name);
      assert forall i :: 0 <= i < |attrs| - 1 ==> attrs[..|attrs| - 1][i] == attrs[i];
      r
  }

  /** `attr_map.get(name)`: `None` both when the attribute is missing and when it has no value. */
  function Attr(attrs: Attrs, name: String): (r: Option<String>)
    ensures r.Some? <==> Lookup(attrs, name).Valued?
  {
    match Lookup(attrs, name)
    case Valued(t) => Some(t)
    case _ => None
  }

  /** The first of two attributes that has a non-empty value. */
  function AttrEither(attrs: Attrs, a: String, b: String): Option<String> {
    OrElse(Attr(attrs, a), Attr(attrs, b))
  }

  /** An attribute value with surrounding whitespace removed, or `None` when nothing is left. */
  function StrippedOrNone(o: Option<String>): (r: Option<String>)
    ensures r.Some? ==> r.value != [] && o.Some?
    ensures r.None? <==> o.None? || AllSpace(o.value)
  {
    var t := Strip(o.GetOr(""));
    if t == [] then None else Some(t)
  }

  /**
   * The whitespace-separated tokens of an attribute's value, none when the
   * attribute is missing. `AsWritten` is `None` where the
   * handler raises: a valueless attribute reads as `None`, which has no
   * `split`.
   */
  function TokensAsWritten(attrs: Attrs, name: String): (r: Option<seq<String>>)
    ensures r.None? <==> Lookup(attrs, name).Valueless?
  {
    match Lookup(attrs, name)
    case Missing => Some([])
    case Valueless => None
    case Valued(t) => Some(Words(t))
  }

  /** The `class` tokens, a valueless `class` read as no class at all. */
  function ClassTokens(attrs: Attrs): (r: seq<String>)
    ensures forall t :: t in r ==> t != [] && NoSpace(t)
    ensures Lookup(attrs, "class").Valueless? ==> r == []
    ensures TokensAsWritten(attrs, "class").Some? ==> r == TokensAsWritten(attrs, "class").value
  {
    match Lookup(attrs, "class")
    case Valued(t) => Words(t)
    case _ => []
  }

  /** `<span class>`: the handler as written stops with an error, the corrected reading finds no class. */
  lemma ValuelessClassAborts()
    ensures TokensAsWritten([("class", None)], "class").None?
    ensures ClassTokens([("class", None)]) == []
  {
  }

  /** A `<script>` whose `type`, lower-cased, is the JSON-LD media type; a valueless `type` is no match. */
  predicate IsJsonLdScript(tag: String, attrs: Attrs) {
    tag == "script" && Lookup(attrs, "type").Valued? && Lower(Lookup(attrs, "type").text) == "application/ld+json"
  }

  /** A class token naming the block `prefix` or one of its `--` modifiers or `__` elements. */
  predicate TokenMatches(token: String, prefix: String) {
    token == prefix || StartsWith(token, prefix + "--") || StartsWith(token, prefix + "__")
  }

  /** `_class_matches`: some class token names the block `prefix`. */
  predicate ClassMatches(tokens: seq<String>, prefix: String) {
    exists i :: 0 <= i < |tokens| && TokenMatches(tokens[i], prefix)
  }

  /** Only the set of tokens matters, as the source tests a `set`. */
  lemma ClassMatchesSetwise(a: seq<String>, b: seq<String>, prefix: String)
    requires forall t :: t in a <==> t in b
    ensures ClassMatches(a, prefix) <==> ClassMatches(b, prefix)
  {
    if ClassMatches(a, prefix) {
      var i :| 0 <= i < |a| && TokenMatches(a[i], prefix);
      assert a[i] in b;
    }
    if ClassMatches(b, prefix) {
      var i :| 0 <= i < |b| && TokenMatches(b[i], prefix);
      assert b[i] in a;
    }
  }

  /** An element class such as `detailpage__description` also names its block `detailpage`. */
  lemma ElementNamesBlock(tokens: seq<String>, block: String, element: String)
    requires ClassMatches(tokens, block + "__" + element)
    ensures ClassMatches(tokens, block)
  {
    var i :| 0 <= i < |tokens| && TokenMatches(tokens[i], block + "__" + element);
    var p := block + "__";
    assert (block + "__" + element)[..|p|] == p;
    assert tokens[i][..|p|] == p;
    assert TokenMatches(tokens[i], block);
  }

  predicate EndsWith(s: String, suffix: String) {
    |suffix| <= |s| && s[|s| - |suffix|..] == suffix
  }

  /** The element that opens the product's detail page. */
  predicate IsDetailpageRoot(tokens: seq<String>) {
    ClassMatches(tokens, "detailpage") || exists i :: 0 <= i < |tokens| && EndsWith(tokens[i], "detailpage")
  }

  predicate IsHeading(tag: String) {
    tag in {"h1", "h2", "h3", "h4", "h5", "h6"}
  }

  /** A well-nested document: an element with its children, or text. */
  datatype Node = Element(tag: String, attrs: Attrs, kids: seq<Node>) | Text(text: String)

  /** The events the tokenizer reports for a node. */
  function Events(n: Node): seq<Event>
    decreases n, 1
  {
    match n
    case Text(t) => [Data(t)]
    case Element(tag, attrs, kids) => [Start(tag, attrs)] + KidEvents(n, 0) + [End(tag)]
  }

  /** The events of the children of `parent` from the `from`-th on. */
  function KidEvents(parent: Node, from: nat): seq<Event>
    requires parent.Element? && from <= |parent.kids|
    decreases parent, 0, |parent.kids| - from
  {
    if from == |parent.kids| then []
    else Events(parent.kids[from]) + KidEvents(parent, from + 1)
  }
}
