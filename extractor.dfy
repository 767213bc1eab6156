/**
 * `ProductHTMLParser` as a state machine: the parser's fields as one value,
 * and what a start tag, an end tag and a run of text do to it. The class
 * in `Parser` holds the same fields and runs these steps on them.
 */
module Extractor {
  import opened Options
  import opened Text
  import opened Markup
  import opened Http
  import opened Regions
  import opened Ingredients
  import Tooltips

  /** `_current_link_type`: the anchor being read points at an ingredient page or at a brand page. */
  datatype LinkKind = IngredientLink | BrandLink

  /** The parser's fields between two events; `h1Text` is `_current_text`. */
  datatype ParserState = ParserState(
    inH1: bool,
    h1Text: seq<String>,
    jsonLdBlocks: seq<String>,
    inJsonLd: bool,
    jsonBuffer: seq<String>,
    meta: map<String, String>,
    brandLinks: set<String>,
    linkKind: Option<LinkKind>,
    linkHref: Option<String>,
    linkText: seq<String>,
    hrefStack: seq<String>,
    ingredients: Dict,
    title: Option<String>,
    detailDepth: nat,
    descriptionDepth: nat,
    descriptionBuffer: seq<String>,
    detailDescription: Option<String>,
    materialsDepth: nat,
    materialItemDepth: nat,
    materialText: seq<String>,
    materials: seq<String>,
    functionStack: seq<BlockFrame>,
    functions: seq<Entry>,
    highlightStack: seq<BlockFrame>,
    highlights: seq<Entry>,
    ingredientStack: seq<Tooltips.Frame>)

  /** `_reset_state` */
  const Initial: ParserState := ParserState(
    false, [], [], false, [], map[], {}, None, None, [], [], EmptyDict, None,
    0, 0, [], None, 0, 0, [], [], [], [], [], [], [])

  /** The tags that title a function block. */
  const Headings: set<String> := {"h1", "h2", "h3", "h4", "h5", "h6"}

  /** The tags that title a highlight block. */
  const HighlightTitleTags: set<String> := {"h1", "h2", "h3", "h4", "h5", "h6", "strong"}

  /** The key a `meta` tag is stored under: its `property`, else its `name`, stripped and lower-cased. */
  function MetaKey(attrs: Attrs): (k: String)
    ensures Lower(k) == k
  {
    LowerIdempotent(Strip(TextOr(OrElse(Attr(attrs, "property"), Attr(attrs, "name")))));
    Lower(Strip(TextOr(OrElse(Attr(attrs, "property"), Attr(attrs, "name")))))
  }

  /** A `meta` tag with a key and a non-empty `content` stores the stripped content; a later tag with the same key wins. */
  function MetaAfter(meta: map<String, String>, key: String, content: Option<String>): (r: map<String, String>)
    ensures forall k :: k in r ==> k in meta || (k == key && k != [])
    ensures forall k :: k in meta ==> k in r
    ensures key != [] && Present(content) ==> key in r && r[key] == Strip(content.value)
    ensures key == [] || !Present(content) ==> r == meta
  {
    if key != [] && Present(content) then meta[key := Strip(content.value)] else meta
  }

  /** The JSON-LD script, `meta` and `h1` handling of a start tag. */
  function OpenSpecial(s: ParserState, tag: String, attrs: Attrs): (r: ParserState)
    ensures r.(inJsonLd := s.inJsonLd, jsonBuffer := s.jsonBuffer, meta := s.meta, inH1 := s.inH1, h1Text := s.h1Text) == s
  {
    if IsJsonLdScript(tag, attrs) then s.(inJsonLd := true, jsonBuffer := [])
    else if tag == "meta" then s.(meta := MetaAfter(s.meta, MetaKey(attrs), Attr(attrs, "content")))
    else if tag == "h1" then s.(inH1 := true, h1Text := [])
    else s
  }

  /**
   * The depth counters of a start tag: the detail page (opened by its root
   * class anywhere), and inside it the description and the materials list;
   * an `li` in the materials list goes one item level deeper.
   */
  function OpenRegions(s: ParserState, tag: String, tokens: seq<String>): (r: ParserState)
    ensures r.(detailDepth := s.detailDepth, descriptionDepth := s.descriptionDepth, descriptionBuffer := s.descriptionBuffer, materialsDepth := s.materialsDepth, materialItemDepth := s.materialItemDepth, materialText := s.materialText) == s
  {
    var detail := CounterOpen(s.detailDepth, IsDetailpageRoot(tokens));
    var inside := detail > 0;
    var opensDescription := inside && ClassMatches(tokens, "detailpage__description");
    var materials := CounterOpen(s.materialsDepth, inside && ClassMatches(tokens, "detailpage__materials"));
    var opensItem := materials > 0 && tag == "li";
    s.(detailDepth := detail,
       descriptionDepth := CounterOpen(s.descriptionDepth, opensDescription),
       descriptionBuffer := if opensDescription && s.descriptionDepth == 0 then [] else s.descriptionBuffer,
       materialsDepth := materials,
       materialItemDepth := if opensItem then s.materialItemDepth + 1 else s.materialItemDepth,
       materialText := if opensItem && s.materialItemDepth == 0 then [] else s.materialText)
  }

  /** Whether an element inside the detail page opens a function block. */
  predicate OpensFunction(tokens: seq<String>, attrs: Attrs) {
    ClassMatches(tokens, "detailpage__function") || Present(Attr(attrs, "data-function"))
  }

  /** Whether an element inside the detail page opens a highlight block. */
  predicate OpensHighlight(tokens: seq<String>) {
    ClassMatches(tokens, "detailpage__highlight") || "highlight" in tokens
  }

  /** The tooltip bookkeeping of a start tag, in the innermost ingredient frame if there is one. */
  function TooltipStartTop(stack: seq<Tooltips.Frame>, tokens: seq<String>, attrs: Attrs, tag: String, base: String): (r: seq<Tooltips.Frame>)
    ensures |r| == |stack|
    ensures stack == [] ==> r == []
    ensures stack != [] ==>
      r[..|r| - 1] == stack[..|stack| - 1] && r[|r| - 1] == Tooltips.TooltipStart(stack[|stack| - 1], tokens, attrs, tag, base)
  {
    if stack == [] then stack
    else Tooltips.WithTop(stack, Tooltips.TooltipStart(stack[|stack| - 1], tokens, attrs, tag, base))
  }

  /** The ingredient frames on a start tag: open or deepen, then the tooltip bookkeeping of the innermost frame. */
  function IngredientStart(stack: seq<Tooltips.Frame>, opens: bool, tokens: seq<String>, attrs: Attrs, tag: String, base: String): (r: seq<Tooltips.Frame>)
    ensures |r| == if opens then |stack| + 1 else |stack|
    ensures opens ==> r == stack + [Tooltips.TooltipStart(Tooltips.NewFrame(attrs, base), tokens, attrs, tag, base)]
    ensures !opens && stack == [] ==> r == []
    ensures !opens && stack != [] ==>
      var top := stack[|stack| - 1];
      r[..|r| - 1] == stack[..|stack| - 1]
      && r[|r| - 1] == Tooltips.TooltipStart(top.(depth := top.depth + 1), tokens, attrs, tag, base)
  {
    var pushed := Tooltips.IngredientOpen(stack, opens, attrs, base);
    assert opens ==> pushed[..|stack|] == stack;
    var r := TooltipStartTop(pushed, tokens, attrs, tag, base);
    assert opens ==> r == r[..|stack|] + [r[|stack|]];
    r
  }

  /** The function, highlight and ingredient stacks on a start tag; blocks open only inside the detail page. */
  function OpenBlocks(s: ParserState, tag: String, tokens: seq<String>, attrs: Attrs, base: String): (r: ParserState)
    ensures r.(functionStack := s.functionStack, highlightStack := s.highlightStack, ingredientStack := s.ingredientStack) == s
  {
    var inside := s.detailDepth > 0;
    s.(functionStack := BlockStart(s.functionStack, inside && OpensFunction(tokens, attrs), StrippedOrNone(Attr(attrs, "data-function")), tag, Headings),
       highlightStack := BlockStart(s.highlightStack, inside && OpensHighlight(tokens), None, tag, HighlightTitleTags),
       ingredientStack := IngredientStart(s.ingredientStack, inside && ClassMatches(tokens, "detailpage__ingredient"), tokens, attrs, tag, base))
  }

  /**
   * An anchor start tag: its href is pushed; a link to an ingredient page
   * starts reading the anchor's text (and records the ingredient at once
   * when the anchor carries `data-name` or `title`), a link to a brand page
   * records the brand; any other anchor stops reading link text.
   */
  function OpenAnchor(s: ParserState, tag: String, attrs: Attrs, base: String): (r: ParserState)
    ensures r.(hrefStack := s.hrefStack, linkKind := s.linkKind, linkHref := s.linkHref, linkText := s.linkText,
               brandLinks := s.brandLinks, ingredients := s.ingredients) == s
  {
    if tag != "a" then s
    else
      var href := TextOr(Attr(attrs, "href"));
      var s1 := s.(hrefStack := s.hrefStack + [href]);
      if StartsWith(href, "/ingredients/") then
        var dataName := OrElse(Attr(attrs, "data-name"), Attr(attrs, "title"));
        var s2 := s1.(linkKind := Some(IngredientLink), linkHref := Some(href), linkText := []);
        if Present(dataName) then
          var full := Resolve(base, href);
          s2.(ingredients := s2.ingredients.Put(IngredientKey(full, dataName), Ingredient(Strip(dataName.value), full, map[])))
        else s2
      else if StartsWith(href, "/brand") || StartsWith(href, "/brands/") then
        s1.(brandLinks := s1.brandLinks + {Resolve(base, href)}, linkKind := Some(BrandLink), linkHref := Some(href), linkText := [])
      else s1.(linkKind := None, linkHref := None, linkText := [])
  }

  /** `handle_starttag` */
  function StartStep(s: ParserState, base: String, tag: String, attrs: Attrs): ParserState {
    var tokens := ClassTokens(attrs);
    OpenAnchor(OpenBlocks(OpenRegions(OpenSpecial(s, tag, attrs), tag, tokens), tag, tokens, attrs, base), tag, attrs, base)
  }

  /** The name an ingredient link gets from its href when its anchor has no text: the last path segment, dashes as spaces, title-cased. */
  function SlugName(href: String): String {
    Title(ReplaceChar(AfterLast(href, '/'), '-', ' '))
  }

  /**
   * A closing ingredient anchor records the ingredient under its lower-cased
   * URL: a new one named by the anchor text (or its slug), an existing one
   * renamed when the text is non-empty. The innermost ingredient frame
   * takes a missing key or hint from the anchor.
   */
  function IngredientAnchorEnd(s: ParserState, base: String, href: String, text: String): (r: ParserState)
    ensures r.(ingredients := s.ingredients, ingredientStack := s.ingredientStack) == s
  {
    var full := Resolve(base, href);
    var key := IngredientKey(full, Some(text));
    s.(ingredients := AnchorDict(s.ingredients, key, text, full, href),
       ingredientStack := AnchorFrames(s.ingredientStack, key, text, full))
  }

  /** The dictionary after an ingredient link closes. */
  function AnchorDict(d: Dict, key: String, text: String, full: String, href: String): Dict {
    if key !in d.entries then d.Put(key, Ingredient(if text != [] then text else SlugName(href), full, map[]))
    else if text != [] then d.Put(key, d.entries[key].(name := text))
    else d
  }

  /** The ingredient contexts after an ingredient link closes. */
  function AnchorFrames(ins: seq<Tooltips.Frame>, key: String, text: String, full: String): seq<Tooltips.Frame> {
    if ins == [] then ins else Tooltips.WithTop(ins, Tooltips.AnchorHints(ins[|ins| - 1], key, text, full))
  }

  /** The href an anchor closes with: the innermost pushed href, else the current link's. */
  function ClosingHref(s: ParserState): Option<String> {
    if s.hrefStack != [] then Some(s.hrefStack[|s.hrefStack| - 1])
    else if Present(s.linkHref) then s.linkHref
    else None
  }

  /** What a closing anchor records: an ingredient link its ingredient, a brand link with text its brand (and the first brand name seen). */
  function AnchorRecord(s: ParserState, base: String, kind: Option<LinkKind>, href: Option<String>, text: String): (r: ParserState)
    ensures r.(ingredients := s.ingredients, ingredientStack := s.ingredientStack, brandLinks := s.brandLinks, meta := s.meta) == s
  {
    if kind == Some(IngredientLink) && Present(href) then IngredientAnchorEnd(s, base, href.value, text)
    else if kind == Some(BrandLink) && text != [] && Present(href) then
      s.(brandLinks := s.brandLinks + {Resolve(base, href.value)},
         meta := if "brand:text" in s.meta then s.meta else s.meta["brand:text" := text])
    else s
  }

  /**
   * An anchor end tag: the ingredient or brand link is recorded, the
   * absolute href joins the innermost function and highlight blocks, and
   * link reading stops.
   */
  function CloseAnchor(s: ParserState, base: String): (r: ParserState)
    ensures r.(hrefStack := s.hrefStack, ingredients := s.ingredients, ingredientStack := s.ingredientStack, brandLinks := s.brandLinks, meta := s.meta, functionStack := s.functionStack, highlightStack := s.highlightStack, linkKind := s.linkKind, linkHref := s.linkHref, linkText := s.linkText) == s
  {
    var hrefRaw := ClosingHref(s);
    var absolute := if Present(hrefRaw) then Some(Resolve(base, hrefRaw.value)) else None;
    var s1 := s.(hrefStack := if s.hrefStack != [] then s.hrefStack[..|s.hrefStack| - 1] else s.hrefStack);
    var s2 := AnchorRecord(s1, base, s.linkKind, s.linkHref, JoinStripped(s.linkText));
    s2.(functionStack := BlockAddLink(s2.functionStack, absolute),
        highlightStack := BlockAddLink(s2.highlightStack, absolute),
        linkKind := None, linkHref := None, linkText := [])
  }

  /** The JSON-LD script, `h1` and anchor handling of an end tag. */
  function CloseSpecial(s: ParserState, base: String, tag: String): (r: ParserState)
    ensures r.(inJsonLd := s.inJsonLd, jsonLdBlocks := s.jsonLdBlocks, inH1 := s.inH1, title := s.title, hrefStack := s.hrefStack, ingredients := s.ingredients, ingredientStack := s.ingredientStack, brandLinks := s.brandLinks, meta := s.meta, functionStack := s.functionStack, highlightStack := s.highlightStack, linkKind := s.linkKind, linkHref := s.linkHref, linkText := s.linkText) == s
  {
    if tag == "script" && s.inJsonLd then
      var block := Strip(JoinWith("", s.jsonBuffer));
      s.(inJsonLd := false, jsonLdBlocks := if block != [] then s.jsonLdBlocks + [block] else s.jsonLdBlocks)
    else if tag == "h1" && s.inH1 then
      var text := JoinStripped(s.h1Text);
      s.(inH1 := false, title := if text != [] then Some(text) else s.title)
    else if tag == "a" then CloseAnchor(s, base)
    else s
  }

  /** An end tag in the materials list: a closing `li` at item level 1 completes a material. */
  function CloseMaterials(s: ParserState, tag: String): (r: ParserState)
    ensures r.(materialItemDepth := s.materialItemDepth, materials := s.materials, materialText := s.materialText, materialsDepth := s.materialsDepth) == s
  {
    if s.materialsDepth == 0 then s
    else
      var closesItem := tag == "li" && s.materialItemDepth > 0;
      var done := closesItem && s.materialItemDepth == 1;
      var text := NormalizeText(s.materialText);
      s.(materialItemDepth := if closesItem then s.materialItemDepth - 1 else s.materialItemDepth,
         materials := if done && text != [] then s.materials + [text] else s.materials,
         materialText := if done then [] else s.materialText,
         materialsDepth := s.materialsDepth - 1)
  }

  /** An end tag in the description: when it closes, its normalized text, if any, becomes the detail description. */
  function CloseDescription(s: ParserState): (r: ParserState)
    ensures r.(descriptionDepth := s.descriptionDepth, detailDescription := s.detailDescription, descriptionBuffer := s.descriptionBuffer) == s
  {
    if s.descriptionDepth == 0 then s
    else if s.descriptionDepth > 1 then s.(descriptionDepth := s.descriptionDepth - 1)
    else
      var text := NormalizeText(s.descriptionBuffer);
      s.(descriptionDepth := 0,
         detailDescription := if text != [] then Some(text) else s.detailDescription,
         descriptionBuffer := [])
  }

  /** The function, highlight and ingredient stacks on an end tag. */
  function CloseBlocks(s: ParserState, base: String, tag: String): (r: ParserState)
    ensures r.(functionStack := s.functionStack, functions := s.functions, highlightStack := s.highlightStack, highlights := s.highlights, ingredientStack := s.ingredientStack, ingredients := s.ingredients) == s
  {
    var f := BlockEnd(s.functionStack, s.functions, tag);
    var h := BlockEnd(s.highlightStack, s.highlights, tag);
    var i := Tooltips.IngredientEnd(s.ingredientStack, s.ingredients, tag, base);
    s.(functionStack := f.0, functions := f.1, highlightStack := h.0, highlights := h.1,
       ingredientStack := i.0, ingredients := i.1)
  }

  /** `handle_endtag` */
  function EndStep(s: ParserState, base: String, tag: String): ParserState {
    var s1 := CloseBlocks(CloseDescription(CloseMaterials(CloseSpecial(s, base, tag), tag)), base, tag);
    s1.(detailDepth := CounterClose(s1.detailDepth))
  }

  /** The tooltip text of the innermost ingredient frame, if there is one. */
  function TooltipDataTop(stack: seq<Tooltips.Frame>, data: String): (r: seq<Tooltips.Frame>)
    ensures |r| == |stack|
    ensures stack == [] ==> r == []
    ensures stack != [] ==>
      r[..|r| - 1] == stack[..|stack| - 1] && r[|r| - 1] == Tooltips.TooltipData(stack[|stack| - 1], data)
  {
    if stack == [] then stack else Tooltips.WithTop(stack, Tooltips.TooltipData(stack[|stack| - 1], data))
  }

  /** `handle_data`: the text joins every buffer whose element is open. */
  function DataStep(s: ParserState, data: String): (r: ParserState)
    ensures r.(jsonBuffer := s.jsonBuffer, h1Text := s.h1Text, linkText := s.linkText, descriptionBuffer := s.descriptionBuffer, materialText := s.materialText, functionStack := s.functionStack, highlightStack := s.highlightStack, ingredientStack := s.ingredientStack) == s
  {
    s.(jsonBuffer := if s.inJsonLd then s.jsonBuffer + [data] else s.jsonBuffer,
       h1Text := if s.inH1 then s.h1Text + [data] else s.h1Text,
       linkText := if s.linkKind.Some? then s.linkText + [data] else s.linkText,
       descriptionBuffer := if s.descriptionDepth > 0 then s.descriptionBuffer + [data] else s.descriptionBuffer,
       materialText := if s.materialItemDepth > 0 then s.materialText + [data] else s.materialText,
       functionStack := BlockData(s.functionStack, data),
       highlightStack := BlockData(s.highlightStack, data),
       ingredientStack := TooltipDataTop(s.ingredientStack, data))
  }

  function Handle(s: ParserState, base: String, e: Event): ParserState {
    match e
    case Start(tag, attrs) => StartStep(s, base, tag, attrs)
    case End(tag) => EndStep(s, base, tag)
    case Data(text) => DataStep(s, text)
  }

  /** The state after a stream of events, one at a time. */
  function Run(s: ParserState, base: String, events: seq<Event>): ParserState
    decreases |events|
  {
    if events == [] then s else Run(Handle(s, base, events[0]), base, events[1..])
  }
}
