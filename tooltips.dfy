/**
 * The stack of open ingredient elements of the detail page. Each frame
 * remembers the ingredient it belongs to (by key, name and URL hints) and
 * collects the text and links of its tooltip; when the tooltip closes, and
 * again when the ingredient element closes, what was collected is
 * registered as the ingredient's extras.
 */
module Tooltips {
  import opened Options
  import opened Text
  import opened Ordering
  import opened Markup
  import opened Http
  import opened Ingredients

  datatype Frame = Frame(
    depth: int,
    key: Option<String>,
    nameHint: Option<String>,
    urlHint: Option<String>,
    tooltipDepth: nat,
    bodyParts: seq<String>,
    titleParts: seq<String>,
    links: seq<String>,
    titleStack: seq<String>,
    anchorDepth: nat,
    dataTooltipText: Option<String>,
    dataTooltipLink: Option<String>)

  /** The frame of an element of class `detailpage__ingredient`, read from its attributes. */
  function NewFrame(attrs: Attrs, base: String): (f: Frame)
    ensures f.depth == 1 && f.tooltipDepth == 0 && f.anchorDepth == 0
    ensures f.bodyParts == [] && f.links == [] && f.titleStack == []
    ensures f.key.Some? ==> f.key.value != []
    ensures f.urlHint.Some? <==> Present(Attr(attrs, "data-ingredient-url"))
    ensures f.urlHint.Some? ==> f.urlHint.value == Resolve(base, Attr(attrs, "data-ingredient-url").value)
    ensures f.nameHint == StrippedOrNone(AttrEither(attrs, "data-name", "data-ingredient-name"))
    ensures f.key.Some? <==> f.urlHint.Some? || f.nameHint.Some?
    ensures f.key.Some? ==> f.key.value == IngredientKey(TextOr(f.urlHint), f.nameHint)
    ensures Present(Attr(attrs, "data-tooltip-title")) ==> f.titleParts == [Attr(attrs, "data-tooltip-title").value]
    ensures !Present(Attr(attrs, "data-tooltip-title")) && Present(Attr(attrs, "data-title")) ==>
      f.titleParts == [Attr(attrs, "data-title").value]
    ensures !Present(Attr(attrs, "data-tooltip-title")) && !Present(Attr(attrs, "data-title")) ==> f.titleParts == []
    ensures f.dataTooltipText == Attr(attrs, "data-tooltip-text")
    ensures f.dataTooltipLink == Attr(attrs, "data-tooltip-link")
  {
    var rawUrl := TextOr(Attr(attrs, "data-ingredient-url"));
    var url := if rawUrl != [] then Resolve(base, rawUrl) else [];
    ResolveNonEmpty(base, rawUrl);
    var nameHint := StrippedOrNone(AttrEither(attrs, "data-name", "data-ingredient-name"));
    var key := IngredientKey(url, nameHint);
    LowerNonEmpty(url);
    NameKeyNonEmpty(AttrEither(attrs, "data-name", "data-ingredient-name"));
    var titleAttr := AttrEither(attrs, "data-tooltip-title", "data-title");
    Frame(1, if key != [] then Some(key) else None, nameHint, if url != [] then Some(url) else None,
          0, [], if Present(titleAttr) then [titleAttr.value] else [], [], [], 0,
          Attr(attrs, "data-tooltip-text"), Attr(attrs, "data-tooltip-link"))
  }

  /** A name hint, once stripped to something, gives a non-empty key. */
  lemma NameKeyNonEmpty(o: Option<String>)
    ensures StrippedOrNone(o).Some? ==> Lower(Strip(StrippedOrNone(o).value)) != []
  {
    var t := Strip(o.GetOr(""));
    if t != [] {
      StrippedNonEmpty(t);
      LowerNonEmpty(Strip(t));
    }
  }

  lemma ResolveNonEmpty(base: String, ref: String)
    ensures Resolve(base, ref) != []
  {
  }

  /** A text that does not start with whitespace stays non-empty when stripped. */
  lemma StrippedNonEmpty(s: String)
    requires s != [] && !IsSpace(s[0])
    ensures Strip(s) != []
  {
  }

  lemma LowerNonEmpty(s: String)
    ensures Lower(s) == [] <==> s == []
  {
  }

  /** Replaces the innermost frame. */
  function WithTop(stack: seq<Frame>, f: Frame): (r: seq<Frame>)
    requires stack != []
    ensures |r| == |stack| && r[|r| - 1] == f && r[..|r| - 1] == stack[..|stack| - 1]
  {
    stack[..|stack| - 1] + [f]
  }

  /** A start tag: a new frame for an ingredient element, otherwise one level deeper in the innermost frame. */
  function IngredientOpen(stack: seq<Frame>, opens: bool, attrs: Attrs, base: String): (r: seq<Frame>)
    ensures opens ==> r == stack + [NewFrame(attrs, base)]
    ensures !opens && stack != [] ==> r == WithTop(stack, stack[|stack| - 1].(depth := stack[|stack| - 1].depth + 1))
    ensures !opens && stack == [] ==> r == []
  {
    if opens then stack + [NewFrame(attrs, base)]
    else if stack != [] then
      var top := stack[|stack| - 1];
      WithTop(stack, top.(depth := top.depth + 1))
    else stack
  }

  /** Whether an element opens a tooltip: a `tooltip` or `ingredient-tooltip` class, or a non-empty `data-tooltip`. */
  predicate IsTooltip(tokens: seq<String>, attrs: Attrs) {
    ClassMatches(tokens, "tooltip") || ClassMatches(tokens, "ingredient-tooltip") || Present(Attr(attrs, "data-tooltip"))
  }

  /** Whether an element inside a tooltip holds its title. */
  predicate IsTooltipTitle(tokens: seq<String>, attrs: Attrs, tag: String) {
    ClassMatches(tokens, "tooltip__title") || Attr(attrs, "data-role") == Some("title")
      || tag in {"strong", "b", "h1", "h2", "h3", "h4", "h5", "h6"}
  }

  /**
   * The tooltip bookkeeping of a start tag in the innermost frame: entering
   * a tooltip starts fresh body and links (the title collected so far is
   * kept), a title element is pushed, and an anchor adds its link and goes
   * one anchor level deeper.
   */
  function TooltipStart(f: Frame, tokens: seq<String>, attrs: Attrs, tag: String, base: String): (r: Frame)
    ensures r.depth == f.depth && r.key == f.key && r.nameHint == f.nameHint && r.urlHint == f.urlHint
    ensures r.dataTooltipText == f.dataTooltipText && r.dataTooltipLink == f.dataTooltipLink
    ensures r.tooltipDepth == (if IsTooltip(tokens, attrs) || f.tooltipDepth > 0 then f.tooltipDepth + 1 else 0)
    ensures IsTooltip(tokens, attrs) && f.tooltipDepth == 0 ==> r.bodyParts == []
    ensures r.tooltipDepth == 0 ==> r == f
    ensures r.anchorDepth == (if r.tooltipDepth > 0 && tag == "a" then f.anchorDepth + 1 else f.anchorDepth)
  {
    TooltipAnchor(TooltipTitle(TooltipEnter(f, tokens, attrs), tokens, attrs, tag), attrs, tag, base)
  }

  /** Entering a tooltip, or going one level deeper inside one. */
  function TooltipEnter(f: Frame, tokens: seq<String>, attrs: Attrs): (r: Frame)
    ensures r.(tooltipDepth := f.tooltipDepth, bodyParts := f.bodyParts, links := f.links, titleParts := f.titleParts) == f
    ensures r.tooltipDepth == (if IsTooltip(tokens, attrs) || f.tooltipDepth > 0 then f.tooltipDepth + 1 else 0)
    ensures IsTooltip(tokens, attrs) && f.tooltipDepth == 0 ==> r.bodyParts == [] && r.links == []
    ensures !(IsTooltip(tokens, attrs) && f.tooltipDepth == 0) ==> r.bodyParts == f.bodyParts && r.links == f.links && r.titleParts == f.titleParts
    ensures IsTooltip(tokens, attrs) && f.tooltipDepth == 0 ==>
      var titleAttr := TooltipTitleAttr(attrs);
      r.titleParts == f.titleParts + (if Present(titleAttr) then [titleAttr.value] else [])
  {
    if IsTooltip(tokens, attrs) then
      if f.tooltipDepth == 0 then
        var titleAttr := TooltipTitleAttr(attrs);
        f.(tooltipDepth := 1, bodyParts := [], links := [],
           titleParts := f.titleParts + (if Present(titleAttr) then [titleAttr.value] else []))
      else f.(tooltipDepth := f.tooltipDepth + 1)
    else if f.tooltipDepth > 0 then f.(tooltipDepth := f.tooltipDepth + 1)
    else f
  }

  /** The title attribute of a tooltip element: `data-title`, else `title`, else `data-tooltip-title`. */
  function TooltipTitleAttr(attrs: Attrs): (r: Option<String>)
    ensures Present(Attr(attrs, "data-title")) ==> r == Attr(attrs, "data-title")
    ensures !Present(Attr(attrs, "data-title")) && Present(Attr(attrs, "title")) ==> r == Attr(attrs, "title")
    ensures !Present(Attr(attrs, "data-title")) && !Present(Attr(attrs, "title")) ==> r == Attr(attrs, "data-tooltip-title")
  {
    OrElse(OrElse(Attr(attrs, "data-title"), Attr(attrs, "title")), Attr(attrs, "data-tooltip-title"))
  }

  /** A title element inside a tooltip is pushed on its title stack. */
  function TooltipTitle(f: Frame, tokens: seq<String>, attrs: Attrs, tag: String): (r: Frame)
    ensures r.(titleStack := f.titleStack) == f
    ensures r.titleStack == f.titleStack + (if f.tooltipDepth > 0 && IsTooltipTitle(tokens, attrs, tag) then [tag] else [])
  {
    if f.tooltipDepth > 0 && IsTooltipTitle(tokens, attrs, tag) then f.(titleStack := f.titleStack + [tag]) else f
  }

  /** An anchor inside a tooltip adds its resolved non-empty `href` and goes one anchor level deeper. */
  function TooltipAnchor(f: Frame, attrs: Attrs, tag: String, base: String): (r: Frame)
    ensures r.(links := f.links, anchorDepth := f.anchorDepth) == f
    ensures f.tooltipDepth > 0 && tag == "a" ==>
      (r.anchorDepth == f.anchorDepth + 1
       && r.links == f.links + (if Present(Attr(attrs, "href")) then [Resolve(base, Attr(attrs, "href").value)] else []))
    ensures !(f.tooltipDepth > 0 && tag == "a") ==> r == f
  {
    if f.tooltipDepth > 0 && tag == "a" then
      var href := TextOr(Attr(attrs, "href"));
      f.(links := f.links + (if href != [] then [Resolve(base, href)] else []), anchorDepth := f.anchorDepth + 1)
    else f
  }

  /**
   * The closing of an ingredient anchor while an ingredient element is
   * open: a missing key, name hint or URL hint of the innermost frame is
   * taken from the anchor.
   */
  function AnchorHints(f: Frame, key: String, text: String, fullUrl: String): (r: Frame)
    ensures r == f.(key := if Present(f.key) then f.key else Some(key),
                    nameHint := if text != [] && !Present(f.nameHint) then Some(text) else f.nameHint,
                    urlHint := if fullUrl != [] && !Present(f.urlHint) then Some(fullUrl) else f.urlHint)
  {
    var a := if !Present(f.key) then f.(key := Some(key)) else f;
    var b := if text != [] && !Present(a.nameHint) then a.(nameHint := Some(text)) else a;
    if fullUrl != [] && !Present(b.urlHint) then b.(urlHint := Some(fullUrl)) else b
  }

  /** Text inside a tooltip, outside its anchors, goes to the title while a title element is open and to the body otherwise. */
  function TooltipData(f: Frame, data: String): (r: Frame)
    ensures r.(titleParts := f.titleParts, bodyParts := f.bodyParts) == f
    ensures r.titleParts == f.titleParts + (if f.tooltipDepth > 0 && f.anchorDepth == 0 && f.titleStack != [] then [data] else [])
    ensures r.bodyParts == f.bodyParts + (if f.tooltipDepth > 0 && f.anchorDepth == 0 && f.titleStack == [] then [data] else [])
  {
    if f.tooltipDepth > 0 && f.anchorDepth == 0 then
      if f.titleStack != [] then f.(titleParts := f.titleParts + [data])
      else f.(bodyParts := f.bodyParts + [data])
    else f
  }

  /**
   * The texts a closing tooltip registers: its normalized title, its
   * normalized body, and the stripped `data-tooltip-text` attribute only
   * when the body is empty.
   */
  function TooltipTexts(title: String, body: String, dataText: Option<String>): (r: Extra)
    ensures LinksKey !in r
    ensures TitleKey in r <==> title != []
    ensures TitleKey in r ==> r[TitleKey] == VText(title)
    ensures TextKey in r <==> body != [] || Present(dataText)
    ensures body != [] ==> r[TextKey] == VText(body)
    ensures body == [] && Present(dataText) ==> r[TextKey] == VText(Strip(dataText.value))
  {
    var e1: Extra := if title != [] then map[TitleKey := VText(title)] else map[];
    var e2 := if body != [] then e1[TextKey := VText(body)] else e1;
    if Present(dataText) && TextKey !in e2 then e2[TextKey := VText(Strip(dataText.value))] else e2
  }

  /** The links of a closing tooltip: its own, sorted without duplicates, then the `data-tooltip-link` attribute resolved. */
  function TooltipLinks(links: seq<String>, dataLink: Option<String>, base: String): (r: seq<String>)
    ensures r == [] <==> SortedUnique(links) == [] && !Present(dataLink)
    ensures forall l :: l in r <==> (l in links && l != []) || (Present(dataLink) && l == Resolve(base, dataLink.value))
  {
    if Present(dataLink) then SortedUnique(links) + [Resolve(base, dataLink.value)] else SortedUnique(links)
  }

  /**
   * The extras a closing tooltip registers: its texts and, when it has any
   * links, the links sorted without duplicates.
   */
  function TooltipExtra(titleParts: seq<String>, bodyParts: seq<String>, links: seq<String>,
                        dataText: Option<String>, dataLink: Option<String>, base: String): (r: Extra)
    ensures var texts := TooltipTexts(NormalizeText(titleParts), NormalizeText(bodyParts), dataText);
      forall x :: x in r && x != LinksKey ==> x in texts && r[x] == texts[x]
    ensures var texts := TooltipTexts(NormalizeText(titleParts), NormalizeText(bodyParts), dataText);
      forall x :: x in texts ==> x in r && r[x] == texts[x]
    ensures LinksKey in r <==> TooltipLinks(links, dataLink, base) != []
    ensures LinksKey in r ==> r[LinksKey].VList? && StrictlySorted(r[LinksKey].items)
    ensures LinksKey in r ==> forall l :: l in r[LinksKey].items <==>
      l != [] && (l in links || (Present(dataLink) && l == Resolve(base, dataLink.value)))
  {
    var texts := TooltipTexts(NormalizeText(titleParts), NormalizeText(bodyParts), dataText);
    var all := TooltipLinks(links, dataLink, base);
    SortedLinks(links, dataLink, base);
    if all != [] then texts[LinksKey := VList(SortedUnique(all))] else texts
  }

  /** The sorted links of a tooltip are its non-empty links and the resolved `data-tooltip-link`. */
  lemma SortedLinks(links: seq<String>, dataLink: Option<String>, base: String)
    ensures forall l :: l in SortedUnique(TooltipLinks(links, dataLink, base)) <==>
      l != [] && (l in links || (Present(dataLink) && l == Resolve(base, dataLink.value)))
  {
    ResolveNonEmpty(base, dataLink.GetOr(""));
  }

  /** The extras an ingredient element registers when it closes: its `data-tooltip-text` and `data-tooltip-link` attributes. */
  function FrameExtra(f: Frame, base: String): (r: Extra)
    ensures TextKey in r <==> Present(f.dataTooltipText)
    ensures TextKey in r ==> r[TextKey] == VText(Strip(f.dataTooltipText.value))
    ensures LinksKey in r <==> Present(f.dataTooltipLink)
    ensures LinksKey in r ==> r[LinksKey] == VList([Resolve(base, f.dataTooltipLink.value)])
    ensures TitleKey !in r
  {
    var e: Extra := if Present(f.dataTooltipText) then map[TextKey := VText(Strip(f.dataTooltipText.value))] else map[];
    if Present(f.dataTooltipLink) then e[LinksKey := VList([Resolve(base, f.dataTooltipLink.value)])] else e
  }

  /** The extras of the tooltip a frame holds. */
  function ExtraOf(f: Frame, base: String): Extra {
    TooltipExtra(f.titleParts, f.bodyParts, f.links, f.dataTooltipText, f.dataTooltipLink, base)
  }

  /**
   * The tooltip bookkeeping of an end tag: one anchor, title and tooltip
   * level shallower; when the tooltip closes its extras are registered and
   * its buffers emptied.
   */
  function TooltipEnd(f: Frame, d: Dict, tag: String, base: String): (r: (Frame, Dict))
    requires f.tooltipDepth > 0
    ensures r.0.tooltipDepth == f.tooltipDepth - 1
    ensures r.0.depth == f.depth && r.0.key == f.key && r.0.nameHint == f.nameHint && r.0.urlHint == f.urlHint
    ensures r.0.dataTooltipText == f.dataTooltipText && r.0.dataTooltipLink == f.dataTooltipLink
    ensures f.tooltipDepth > 1 ==> r.1 == d
    ensures f.tooltipDepth == 1 ==> r.1 == Register(d, f.key, ExtraOf(f, base), f.nameHint, f.urlHint)
    ensures f.tooltipDepth == 1 ==> r.0.bodyParts == [] && r.0.titleParts == [] && r.0.links == [] && r.0.anchorDepth == 0
  {
    var anchors := if tag == "a" && f.anchorDepth > 0 then f.anchorDepth - 1 else f.anchorDepth;
    var titles := if f.titleStack != [] && f.titleStack[|f.titleStack| - 1] == tag then f.titleStack[..|f.titleStack| - 1] else f.titleStack;
    var g := f.(anchorDepth := anchors, titleStack := titles, tooltipDepth := f.tooltipDepth - 1);
    if g.tooltipDepth == 0 then
      (g.(bodyParts := [], titleParts := [], links := [], anchorDepth := 0), Register(d, g.key, ExtraOf(f, base), g.nameHint, g.urlHint))
    else (g, d)
  }

  /** The tooltip bookkeeping of an end tag, when the frame is inside a tooltip. */
  function TooltipClose(f: Frame, d: Dict, tag: String, base: String): (r: (Frame, Dict))
    ensures r.0.depth == f.depth && r.0.key == f.key && r.0.nameHint == f.nameHint && r.0.urlHint == f.urlHint
    ensures r.0.dataTooltipText == f.dataTooltipText && r.0.dataTooltipLink == f.dataTooltipLink
    ensures f.tooltipDepth == 0 ==> r == (f, d)
    ensures f.tooltipDepth != 1 ==> r.1 == d
    ensures f.tooltipDepth == 1 ==> r.1 == Register(d, f.key, ExtraOf(f, base), f.nameHint, f.urlHint)
  {
    if f.tooltipDepth > 0 then TooltipEnd(f, d, tag, base) else (f, d)
  }

  /**
   * An end tag in the innermost ingredient frame: the tooltip bookkeeping,
   * then one level shallower; at depth 0 the frame registers its attribute
   * extras and is popped.
   */
  function IngredientEnd(stack: seq<Frame>, d: Dict, tag: String, base: String): (r: (seq<Frame>, Dict))
    ensures stack == [] ==> r == (stack, d)
    ensures stack != [] && stack[|stack| - 1].depth <= 1 ==> r.0 == stack[..|stack| - 1]
    ensures stack != [] && stack[|stack| - 1].depth > 1 ==>
      |r.0| == |stack| && r.0[..|stack| - 1] == stack[..|stack| - 1]
      && r.0[|stack| - 1] == TooltipClose(stack[|stack| - 1], d, tag, base).0.(depth := stack[|stack| - 1].depth - 1)
    ensures stack != [] ==>
      var f := stack[|stack| - 1];
      var d1 := if f.tooltipDepth == 1 then Register(d, f.key, ExtraOf(f, base), f.nameHint, f.urlHint) else d;
      && (f.depth > 1 ==> r.1 == d1)
      && (f.depth <= 1 ==> r.1 == Register(d1, f.key, FrameExtra(f, base), f.nameHint, f.urlHint))
  {
    if stack == [] then (stack, d)
    else
      var f := stack[|stack| - 1];
      var closed := TooltipClose(f, d, tag, base);
      var g := closed.0.(depth := closed.0.depth - 1);
      if g.depth <= 0 then (stack[..|stack| - 1], Register(closed.1, g.key, FrameExtra(g, base), g.nameHint, g.urlHint))
      else (WithTop(stack, g), closed.1)
  }

  /** Every open frame is at least one level deep and has a non-empty key if any. */
  predicate FramesOk(stack: seq<Frame>) {
    forall i :: 0 <= i < |stack| ==> stack[i].depth >= 1 && (stack[i].key.Some? ==> stack[i].key.value != [])
  }

  lemma IngredientOpenPreserves(stack: seq<Frame>, opens: bool, attrs: Attrs, base: String)
    requires FramesOk(stack)
    ensures FramesOk(IngredientOpen(stack, opens, attrs, base))
  {
    if opens {
      FramesOkPush(stack, NewFrame(attrs, base));
    } else if stack != [] {
      var top := stack[|stack| - 1];
      FramesOkPrefix(stack);
      FramesOkTop(stack, top.(depth := top.depth + 1));
    }
  }

  lemma FramesOkPush(stack: seq<Frame>, f: Frame)
    requires FramesOk(stack) && f.depth >= 1 && (f.key.Some? ==> f.key.value != [])
    ensures FramesOk(stack + [f])
  {
    var r := stack + [f];
    assert forall i :: 0 <= i < |stack| ==> r[i] == stack[i];
  }

  /** The registrations of an end tag keep the dictionary well formed and its extras clean, and the frames well formed. */
  lemma IngredientEndPreserves(stack: seq<Frame>, d: Dict, tag: String, base: String)
    requires FramesOk(stack) && d.Valid() && ExtrasClean(d)
    ensures var r := IngredientEnd(stack, d, tag, base);
      FramesOk(r.0) && r.1.Valid() && ExtrasClean(r.1)
  {
    if stack != [] {
      var f := stack[|stack| - 1];
      var closed := TooltipClose(f, d, tag, base);
      TooltipCloseOk(f, d, tag, base);
      FramesOkPrefix(stack);
      var r := IngredientEnd(stack, d, tag, base);
      if closed.0.depth <= 1 {
        EndPopsOk(closed.1, closed.0, base);
        assert r.0 == stack[..|stack| - 1];
      } else {
        FramesOkTop(stack, closed.0.(depth := closed.0.depth - 1));
      }
    }
  }

  /** Popping a frame registers its extras into a valid, clean dictionary. */
  lemma EndPopsOk(d: Dict, f: Frame, base: String)
    requires d.Valid() && ExtrasClean(d)
    ensures var g := f.(depth := f.depth - 1);
      var d' := Register(d, g.key, FrameExtra(g, base), g.nameHint, g.urlHint);
      d'.Valid() && ExtrasClean(d')
  {
    var g := f.(depth := f.depth - 1);
    RegisterKeepsExtrasClean(d, g.key, FrameExtra(g, base), g.nameHint, g.urlHint);
  }

  /** The tooltip bookkeeping of an end tag keeps the dictionary valid and clean, and the frame's depth and key. */
  lemma TooltipCloseOk(f: Frame, d: Dict, tag: String, base: String)
    requires d.Valid() && ExtrasClean(d)
    ensures var c := TooltipClose(f, d, tag, base);
      c.1.Valid() && ExtrasClean(c.1) && c.0.key == f.key && c.0.depth == f.depth
  {
    if f.tooltipDepth == 1 {
      RegisterKeepsExtrasClean(d, f.key, ExtraOf(f, base), f.nameHint, f.urlHint);
    }
  }

  lemma FramesOkPrefix(stack: seq<Frame>)
    requires stack != [] && FramesOk(stack)
    ensures FramesOk(stack[..|stack| - 1])
  {
    assert forall i :: 0 <= i < |stack| - 1 ==> stack[..|stack| - 1][i] == stack[i];
  }

  lemma FramesOkTop(stack: seq<Frame>, f: Frame)
    requires stack != [] && FramesOk(stack[..|stack| - 1]) && f.depth >= 1 && (f.key.Some? ==> f.key.value != [])
    ensures FramesOk(WithTop(stack, f))
  {
    var r := WithTop(stack, f);
    assert forall i :: 0 <= i < |r| - 1 ==> r[i] == stack[..|stack| - 1][i];
  }

  /** A registration never loses an ingredient, and never adds one without kept extras. */
  lemma RegisterAddsOnlyWithExtras(d: Dict, key: Option<String>, extra: Extra, nameHint: Option<String>, urlHint: Option<String>)
    requires Sanitize(extra) == map[]
    ensures Register(d, key, extra, nameHint, urlHint) == d
  {
  }
}
