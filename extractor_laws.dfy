/**
 * What the parser's steps keep true of everything it has collected: open
 * blocks and frames stay well formed, reported entries, materials and
 * descriptions stay clean, and the ingredient dictionary stays a valid
 * ordered dictionary whose extras hold no empty value.
 */
module ExtractorLaws {
  import opened Options
  import opened Text
  import opened Markup
  import opened Http
  import opened Regions
  import opened Ingredients
  import Tooltips
  import opened Extractor

  /** Feeding a stream in two pieces ends in the same state as feeding it at once. */
  lemma {:induction false} RunConcat(s: ParserState, base: String, a: seq<Event>, b: seq<Event>)
    ensures Run(s, base, a + b) == Run(Run(s, base, a), base, b)
    decreases |a|
  {
    if a == [] {
      assert a + b == b;
    } else {
      assert (a + b)[0] == a[0];
      assert (a + b)[1..] == a[1..] + b;
      RunConcat(Handle(s, base, a[0]), base, a[1..], b);
    }
  }

  /** Every open title tag of every block is one of the tags that title it. */
  predicate TitlesWithin(stack: seq<BlockFrame>, tags: set<String>) {
    forall i, t :: 0 <= i < |stack| && t in stack[i].titleStack ==> t in tags
  }

  predicate BlocksOk(functionStack: seq<BlockFrame>, functions: seq<Entry>, highlightStack: seq<BlockFrame>, highlights: seq<Entry>) {
    && StackOk(functionStack) && EntriesOk(functions) && TitlesWithin(functionStack, Headings)
    && StackOk(highlightStack) && EntriesOk(highlights) && TitlesWithin(highlightStack, HighlightTitleTags)
  }

  predicate CollectedOk(ingredientStack: seq<Tooltips.Frame>, ingredients: Dict) {
    Tooltips.FramesOk(ingredientStack) && ingredients.Valid() && ExtrasClean(ingredients)
  }

  predicate TextsOk(materials: seq<String>, detailDescription: Option<String>) {
    && (forall i :: 0 <= i < |materials| ==> CleanText(materials[i]))
    && (detailDescription.Some? ==> CleanText(detailDescription.value))
  }

  predicate HeadOk(title: Option<String>, jsonLdBlocks: seq<String>, meta: map<String, String>) {
    && (title.Some? ==> title.value != [])
    && (forall i :: 0 <= i < |jsonLdBlocks| ==> jsonLdBlocks[i] != [])
    && (forall k :: k in meta ==> k != [])
  }

  /**
   * What holds of the parser between any two events: open blocks and
   * frames are at least one level deep, reported function and highlight
   * entries are well formed, the ingredient dictionary is valid with no
   * empty extra, materials and the detail description are clean texts, and
   * the title, JSON-LD blocks and meta keys are non-empty.
   */
  predicate Wellformed(s: ParserState) {
    && BlocksOk(s.functionStack, s.functions, s.highlightStack, s.highlights)
    && CollectedOk(s.ingredientStack, s.ingredients)
    && TextsOk(s.materials, s.detailDescription)
    && HeadOk(s.title, s.jsonLdBlocks, s.meta)
  }

  lemma InitialWellformed()
    ensures Wellformed(Initial)
  {
  }

  lemma TitlesTop(stack: seq<BlockFrame>, f: BlockFrame, tags: set<String>)
    requires stack != [] && TitlesWithin(stack, tags)
    requires forall t :: t in f.titleStack ==> t in tags
    ensures TitlesWithin(Regions.WithTop(stack, f), tags)
  {
    var r := Regions.WithTop(stack, f);
    forall i, t | 0 <= i < |r| && t in r[i].titleStack ensures t in tags {
      if i < |r| - 1 {
        assert r[i] == stack[..|stack| - 1][i];
      }
    }
  }

  /** Opening a block and pushing a title tag or an item keep every open title tag among the block's title tags. */
  lemma TitlesOpen(stack: seq<BlockFrame>, opens: bool, name: Option<String>, tag: String, tags: set<String>)
    requires TitlesWithin(stack, tags)
    ensures TitlesWithin(BlockStart(stack, opens, name, tag, tags), tags)
  {
    var a := BlockOpen(stack, opens, name);
    TitlesBlockOpen(stack, opens, name, tags);
    var b := BlockTitleStart(a, tag, tags);
    TitlesTitleStart(a, tag, tags);
    TitlesItemStart(b, tag, tags);
  }

  lemma TitlesBlockOpen(stack: seq<BlockFrame>, opens: bool, name: Option<String>, tags: set<String>)
    requires TitlesWithin(stack, tags)
    ensures TitlesWithin(BlockOpen(stack, opens, name), tags)
  {
    var a := BlockOpen(stack, opens, name);
    if opens {
      forall i, t | 0 <= i < |a| && t in a[i].titleStack ensures t in tags {
        if i < |stack| {
          assert a[i] == stack[i];
        }
      }
    } else if stack != [] {
      TitlesTop(stack, stack[|stack| - 1].(depth := stack[|stack| - 1].depth + 1), tags);
    }
  }

  lemma TitlesTitleStart(stack: seq<BlockFrame>, tag: String, tags: set<String>)
    requires TitlesWithin(stack, tags)
    ensures TitlesWithin(BlockTitleStart(stack, tag, tags), tags)
  {
    if stack != [] && tag in tags {
      TitlesTop(stack, stack[|stack| - 1].(titleStack := stack[|stack| - 1].titleStack + [tag]), tags);
    }
  }

  lemma TitlesItemStart(stack: seq<BlockFrame>, tag: String, tags: set<String>)
    requires TitlesWithin(stack, tags)
    ensures TitlesWithin(BlockItemStart(stack, tag), tags)
  {
    if stack != [] && tag == "li" {
      var deeper := stack[|stack| - 1].(itemDepth := stack[|stack| - 1].itemDepth + 1);
      TitlesTop(stack, if deeper.itemDepth == 1 then deeper.(currentItem := []) else deeper, tags);
    }
  }

  lemma TitlesData(stack: seq<BlockFrame>, data: String, href: Option<String>, tags: set<String>)
    requires TitlesWithin(stack, tags)
    ensures TitlesWithin(BlockData(stack, data), tags)
    ensures TitlesWithin(BlockAddLink(stack, href), tags)
  {
    if stack != [] {
      var top := stack[|stack| - 1];
      TitlesTop(stack, BlockData(stack, data)[|stack| - 1], tags);
      if Present(href) {
        TitlesTop(stack, top.(links := top.links + [href.value]), tags);
      }
    }
  }

  lemma TitlesEnd(stack: seq<BlockFrame>, entries: seq<Entry>, tag: String, tags: set<String>)
    requires TitlesWithin(stack, tags)
    ensures TitlesWithin(BlockEnd(stack, entries, tag).0, tags)
  {
    if stack != [] {
      var top := stack[|stack| - 1];
      var f := CloseItem(top, tag);
      assert forall t :: t in f.titleStack ==> t in top.titleStack;
      if f.depth == 1 {
        var r := stack[..|stack| - 1];
        assert forall i :: 0 <= i < |r| ==> r[i] == stack[i];
      } else {
        TitlesTop(stack, f.(depth := f.depth - 1), tags);
      }
    }
  }

  /** Storing an ingredient whose extras are all kept keeps the dictionary's extras clean. */
  lemma PutKeepsClean(d: Dict, k: String, v: Ingredient)
    requires ExtrasClean(d)
    requires forall x :: x in v.extra ==> Kept(v.extra[x])
    ensures ExtrasClean(d.Put(k, v))
  {
  }

  lemma TooltipStartTopOk(stack: seq<Tooltips.Frame>, tokens: seq<String>, attrs: Attrs, tag: String, base: String)
    requires Tooltips.FramesOk(stack)
    ensures Tooltips.FramesOk(TooltipStartTop(stack, tokens, attrs, tag, base))
  {
    if stack != [] {
      Tooltips.FramesOkPrefix(stack);
      Tooltips.FramesOkTop(stack, Tooltips.TooltipStart(stack[|stack| - 1], tokens, attrs, tag, base));
    }
  }

  lemma TooltipDataTopOk(stack: seq<Tooltips.Frame>, data: String)
    requires Tooltips.FramesOk(stack)
    ensures Tooltips.FramesOk(TooltipDataTop(stack, data))
  {
    if stack != [] {
      Tooltips.FramesOkPrefix(stack);
      Tooltips.FramesOkTop(stack, Tooltips.TooltipData(stack[|stack| - 1], data));
    }
  }

  lemma IngredientStartOk(stack: seq<Tooltips.Frame>, opens: bool, tokens: seq<String>, attrs: Attrs, tag: String, base: String)
    requires Tooltips.FramesOk(stack)
    ensures Tooltips.FramesOk(IngredientStart(stack, opens, tokens, attrs, tag, base))
  {
    Tooltips.IngredientOpenPreserves(stack, opens, attrs, base);
    TooltipStartTopOk(Tooltips.IngredientOpen(stack, opens, attrs, base), tokens, attrs, tag, base);
  }

  lemma OpenBlocksPreserves(s: ParserState, tag: String, tokens: seq<String>, attrs: Attrs, base: String)
    requires Wellformed(s)
    ensures Wellformed(OpenBlocks(s, tag, tokens, attrs, base))
  {
    OpenBlocksFields(s, tag, tokens, attrs, base);
    OpenBlocksStacks(s, tag, tokens, attrs, base);
    StacksStep(s, OpenBlocks(s, tag, tokens, attrs, base));
  }

  /** A start tag changes none of the collected fields. */
  lemma OpenBlocksFields(s: ParserState, tag: String, tokens: seq<String>, attrs: Attrs, base: String)
    ensures var r := OpenBlocks(s, tag, tokens, attrs, base);
      && r.functions == s.functions && r.highlights == s.highlights && r.ingredients == s.ingredients
      && r.materials == s.materials && r.detailDescription == s.detailDescription
      && r.title == s.title && r.jsonLdBlocks == s.jsonLdBlocks && r.meta == s.meta
  {
  }

  /** A start tag keeps the open blocks and ingredient contexts well formed. */
  lemma OpenBlocksStacks(s: ParserState, tag: String, tokens: seq<String>, attrs: Attrs, base: String)
    requires StackOk(s.functionStack) && TitlesWithin(s.functionStack, Headings)
    requires StackOk(s.highlightStack) && TitlesWithin(s.highlightStack, HighlightTitleTags)
    requires Tooltips.FramesOk(s.ingredientStack)
    ensures var r := OpenBlocks(s, tag, tokens, attrs, base);
      && StackOk(r.functionStack) && TitlesWithin(r.functionStack, Headings)
      && StackOk(r.highlightStack) && TitlesWithin(r.highlightStack, HighlightTitleTags)
      && Tooltips.FramesOk(r.ingredientStack)
  {
    OpenFunctionStack(s, tag, tokens, attrs, base);
    OpenHighlightStack(s, tag, tokens, attrs, base);
    OpenIngredientStack(s, tag, tokens, attrs, base);
  }

  lemma OpenFunctionStack(s: ParserState, tag: String, tokens: seq<String>, attrs: Attrs, base: String)
    requires StackOk(s.functionStack) && TitlesWithin(s.functionStack, Headings)
    ensures var r := OpenBlocks(s, tag, tokens, attrs, base);
      StackOk(r.functionStack) && TitlesWithin(r.functionStack, Headings)
  {
    var opens := s.detailDepth > 0 && OpensFunction(tokens, attrs);
    var name := StrippedOrNone(Attr(attrs, "data-function"));
    assert OpenBlocks(s, tag, tokens, attrs, base).functionStack == BlockStart(s.functionStack, opens, name, tag, Headings);
    OpenStackOk(s.functionStack, opens, name, tag, Headings);
  }

  lemma OpenHighlightStack(s: ParserState, tag: String, tokens: seq<String>, attrs: Attrs, base: String)
    requires StackOk(s.highlightStack) && TitlesWithin(s.highlightStack, HighlightTitleTags)
    ensures var r := OpenBlocks(s, tag, tokens, attrs, base);
      StackOk(r.highlightStack) && TitlesWithin(r.highlightStack, HighlightTitleTags)
  {
    var opens := s.detailDepth > 0 && OpensHighlight(tokens);
    assert OpenBlocks(s, tag, tokens, attrs, base).highlightStack == BlockStart(s.highlightStack, opens, None, tag, HighlightTitleTags);
    OpenStackOk(s.highlightStack, opens, None, tag, HighlightTitleTags);
  }

  lemma OpenIngredientStack(s: ParserState, tag: String, tokens: seq<String>, attrs: Attrs, base: String)
    requires Tooltips.FramesOk(s.ingredientStack)
    ensures Tooltips.FramesOk(OpenBlocks(s, tag, tokens, attrs, base).ingredientStack)
  {
    IngredientStartOk(s.ingredientStack, s.detailDepth > 0 && ClassMatches(tokens, "detailpage__ingredient"), tokens, attrs, tag, base);
  }

  /** A start tag keeps a stack of open blocks well formed, with its title tags among the block's. */
  lemma OpenStackOk(stack: seq<BlockFrame>, opens: bool, name: Option<String>, tag: String, tags: set<String>)
    requires StackOk(stack) && TitlesWithin(stack, tags)
    requires name.Some? ==> name.value != []
    ensures StackOk(BlockStart(stack, opens, name, tag, tags))
    ensures TitlesWithin(BlockStart(stack, opens, name, tag, tags), tags)
  {
    BlockStartPreserves(stack, opens, name, tag, tags);
    TitlesOpen(stack, opens, name, tag, tags);
  }

  /** A step that changes only the open blocks and frames keeps the state well formed when they are. */
  lemma StacksStep(s: ParserState, r: ParserState)
    requires Wellformed(s)
    requires r.functions == s.functions && r.highlights == s.highlights && r.ingredients == s.ingredients
    requires r.materials == s.materials && r.detailDescription == s.detailDescription
    requires r.title == s.title && r.jsonLdBlocks == s.jsonLdBlocks && r.meta == s.meta
    requires StackOk(r.functionStack) && TitlesWithin(r.functionStack, Headings)
    requires StackOk(r.highlightStack) && TitlesWithin(r.highlightStack, HighlightTitleTags)
    requires Tooltips.FramesOk(r.ingredientStack)
    ensures Wellformed(r)
  {
  }

  lemma OpenAnchorPreserves(s: ParserState, tag: String, attrs: Attrs, base: String)
    requires Wellformed(s)
    ensures Wellformed(OpenAnchor(s, tag, attrs, base))
  {
    if tag == "a" {
      var href := TextOr(Attr(attrs, "href"));
      var dataName := OrElse(Attr(attrs, "data-name"), Attr(attrs, "title"));
      if StartsWith(href, "/ingredients/") && Present(dataName) {
        var full := Resolve(base, href);
        var d := s.ingredients.Put(IngredientKey(full, dataName), Ingredient(Strip(dataName.value), full, map[]));
        PutKeepsClean(s.ingredients, IngredientKey(full, dataName), Ingredient(Strip(dataName.value), full, map[]));
        var r := s.(hrefStack := s.hrefStack + [href], linkKind := Some(IngredientLink), linkHref := Some(href), linkText := [],
                    ingredients := d);
        assert OpenAnchor(s, tag, attrs, base) == r;
      }
    }
  }

  lemma StartPreserves(s: ParserState, base: String, tag: String, attrs: Attrs)
    requires Wellformed(s)
    ensures Wellformed(StartStep(s, base, tag, attrs))
  {
    var tokens := ClassTokens(attrs);
    var s1 := OpenSpecial(s, tag, attrs);
    assert Wellformed(s1);
    var s2 := OpenRegions(s1, tag, tokens);
    assert Wellformed(s2);
    OpenBlocksPreserves(s2, tag, tokens, attrs, base);
    OpenAnchorPreserves(OpenBlocks(s2, tag, tokens, attrs, base), tag, attrs, base);
  }

  lemma IngredientAnchorEndPreserves(s: ParserState, base: String, href: String, text: String)
    requires Wellformed(s)
    ensures Wellformed(IngredientAnchorEnd(s, base, href, text))
  {
    IngredientAnchorEndCollected(s, base, href, text);
    CollectedStep(s, IngredientAnchorEnd(s, base, href, text));
  }

  /** Closing an ingredient link keeps the contexts keyed and the dictionary valid and clean. */
  lemma IngredientAnchorEndCollected(s: ParserState, base: String, href: String, text: String)
    requires CollectedOk(s.ingredientStack, s.ingredients)
    ensures var r := IngredientAnchorEnd(s, base, href, text);
      CollectedOk(r.ingredientStack, r.ingredients)
  {
    var full := Resolve(base, href);
    Tooltips.ResolveNonEmpty(base, href);
    Tooltips.LowerNonEmpty(full);
    var key := IngredientKey(full, Some(text));
    AnchorDictOk(s.ingredients, key, text, full, href);
    AnchorFramesOk(s.ingredientStack, key, text, full);
  }

  lemma AnchorDictOk(d: Dict, key: String, text: String, full: String, href: String)
    requires d.Valid() && ExtrasClean(d)
    ensures AnchorDict(d, key, text, full, href).Valid() && ExtrasClean(AnchorDict(d, key, text, full, href))
  {
    if key !in d.entries {
      PutKeepsClean(d, key, Ingredient(if text != [] then text else SlugName(href), full, map[]));
    } else if text != [] {
      PutKeepsClean(d, key, d.entries[key].(name := text));
    }
  }

  lemma AnchorFramesOk(ins: seq<Tooltips.Frame>, key: String, text: String, full: String)
    requires Tooltips.FramesOk(ins) && key != []
    ensures Tooltips.FramesOk(AnchorFrames(ins, key, text, full))
  {
    if ins != [] {
      Tooltips.FramesOkPrefix(ins);
      Tooltips.FramesOkTop(ins, Tooltips.AnchorHints(ins[|ins| - 1], key, text, full));
    }
  }

  /** A step that changes only the ingredient contexts and the dictionary keeps the state well formed when they are. */
  lemma CollectedStep(s: ParserState, r: ParserState)
    requires Wellformed(s)
    requires r.functionStack == s.functionStack && r.functions == s.functions
    requires r.highlightStack == s.highlightStack && r.highlights == s.highlights
    requires r.materials == s.materials && r.detailDescription == s.detailDescription
    requires r.title == s.title && r.jsonLdBlocks == s.jsonLdBlocks && r.meta == s.meta
    requires CollectedOk(r.ingredientStack, r.ingredients)
    ensures Wellformed(r)
  {
  }

  lemma AnchorRecordPreserves(s: ParserState, base: String, kind: Option<LinkKind>, href: Option<String>, text: String)
    requires Wellformed(s)
    ensures Wellformed(AnchorRecord(s, base, kind, href, text))
  {
    AnchorRecordParts(s, base, kind, href, text);
    AnchorStep(s, AnchorRecord(s, base, kind, href, text));
  }

  /** Recording a closed link keeps the contexts, the dictionary and the meta keys well formed. */
  lemma AnchorRecordParts(s: ParserState, base: String, kind: Option<LinkKind>, href: Option<String>, text: String)
    requires CollectedOk(s.ingredientStack, s.ingredients)
    requires forall k :: k in s.meta ==> k != []
    ensures var r := AnchorRecord(s, base, kind, href, text);
      && CollectedOk(r.ingredientStack, r.ingredients)
      && (forall k :: k in r.meta ==> k != [])
      && r.functionStack == s.functionStack && r.highlightStack == s.highlightStack
  {
    if kind == Some(IngredientLink) && Present(href) {
      IngredientAnchorEndCollected(s, base, href.value, text);
    }
  }

  /**
   * A step that changes only the open blocks, the ingredient contexts, the
   * dictionary and the meta keys keeps the state well formed when they are.
   */
  lemma AnchorStep(s: ParserState, r: ParserState)
    requires Wellformed(s)
    requires r.functions == s.functions && r.highlights == s.highlights
    requires r.materials == s.materials && r.detailDescription == s.detailDescription
    requires r.title == s.title && r.jsonLdBlocks == s.jsonLdBlocks
    requires StackOk(r.functionStack) && TitlesWithin(r.functionStack, Headings)
    requires StackOk(r.highlightStack) && TitlesWithin(r.highlightStack, HighlightTitleTags)
    requires CollectedOk(r.ingredientStack, r.ingredients)
    requires forall k :: k in r.meta ==> k != []
    ensures Wellformed(r)
  {
  }

  lemma CloseAnchorPreserves(s: ParserState, base: String)
    requires Wellformed(s)
    ensures Wellformed(CloseAnchor(s, base))
  {
    CloseAnchorParts(s, base);
    AnchorStep(s, CloseAnchor(s, base));
  }

  /** An anchor end keeps the blocks, the contexts, the dictionary and the meta keys well formed. */
  lemma CloseAnchorParts(s: ParserState, base: String)
    requires StackOk(s.functionStack) && TitlesWithin(s.functionStack, Headings)
    requires StackOk(s.highlightStack) && TitlesWithin(s.highlightStack, HighlightTitleTags)
    requires CollectedOk(s.ingredientStack, s.ingredients)
    requires forall k :: k in s.meta ==> k != []
    ensures var r := CloseAnchor(s, base);
      && StackOk(r.functionStack) && TitlesWithin(r.functionStack, Headings)
      && StackOk(r.highlightStack) && TitlesWithin(r.highlightStack, HighlightTitleTags)
      && CollectedOk(r.ingredientStack, r.ingredients)
      && (forall k :: k in r.meta ==> k != [])
  {
    var hrefRaw := ClosingHref(s);
    var absolute := if Present(hrefRaw) then Some(Resolve(base, hrefRaw.value)) else None;
    var s1 := s.(hrefStack := if s.hrefStack != [] then s.hrefStack[..|s.hrefStack| - 1] else s.hrefStack);
    var s2 := AnchorRecord(s1, base, s.linkKind, s.linkHref, JoinStripped(s.linkText));
    AnchorRecordParts(s1, base, s.linkKind, s.linkHref, JoinStripped(s.linkText));
    BlockDataPreserves(s2.functionStack, "", absolute);
    BlockDataPreserves(s2.highlightStack, "", absolute);
    TitlesData(s2.functionStack, "", absolute, Headings);
    TitlesData(s2.highlightStack, "", absolute, HighlightTitleTags);
    var r := CloseAnchor(s, base);
    assert r.functionStack == BlockAddLink(s2.functionStack, absolute);
    assert r.highlightStack == BlockAddLink(s2.highlightStack, absolute);
    assert r.ingredientStack == s2.ingredientStack && r.ingredients == s2.ingredients && r.meta == s2.meta;
  }

  lemma CloseSpecialPreserves(s: ParserState, base: String, tag: String)
    requires Wellformed(s)
    ensures Wellformed(CloseSpecial(s, base, tag))
  {
    if tag == "a" && !(tag == "script" && s.inJsonLd) && !(tag == "h1" && s.inH1) {
      CloseAnchorPreserves(s, base);
    } else {
      CloseHeadParts(s, base, tag);
      HeadStep(s, CloseSpecial(s, base, tag));
    }
  }

  /** The `script` and `h1` ends keep the JSON-LD blocks and the title non-empty, and change nothing else the invariant is about. */
  lemma CloseHeadParts(s: ParserState, base: String, tag: String)
    requires tag != "a" || (tag == "script" && s.inJsonLd) || (tag == "h1" && s.inH1)
    requires HeadOk(s.title, s.jsonLdBlocks, s.meta)
    ensures var r := CloseSpecial(s, base, tag);
      && HeadOk(r.title, r.jsonLdBlocks, r.meta)
      && r.functionStack == s.functionStack && r.highlightStack == s.highlightStack
      && r.ingredientStack == s.ingredientStack && r.ingredients == s.ingredients
  {
    var r := CloseSpecial(s, base, tag);
    if tag == "script" && s.inJsonLd {
      var block := Strip(JoinWith("", s.jsonBuffer));
      if block != [] {
        assert r.jsonLdBlocks == s.jsonLdBlocks + [block];
        AppendNonEmpty(s.jsonLdBlocks, block);
      } else {
        assert r.jsonLdBlocks == s.jsonLdBlocks;
      }
    } else if tag == "h1" && s.inH1 {
      assert r.jsonLdBlocks == s.jsonLdBlocks;
    } else {
      assert r == s;
    }
  }

  /** Appending a non-empty block to non-empty blocks. */
  lemma AppendNonEmpty(blocks: seq<String>, block: String)
    requires forall i :: 0 <= i < |blocks| ==> blocks[i] != []
    requires block != []
    ensures forall i :: 0 <= i < |blocks + [block]| ==> (blocks + [block])[i] != []
  {
  }

  /** A step that changes only the title, the JSON-LD blocks and the meta keys keeps the state well formed when they are. */
  lemma HeadStep(s: ParserState, r: ParserState)
    requires Wellformed(s)
    requires r.functionStack == s.functionStack && r.functions == s.functions
    requires r.highlightStack == s.highlightStack && r.highlights == s.highlights
    requires r.ingredientStack == s.ingredientStack && r.ingredients == s.ingredients
    requires r.materials == s.materials && r.detailDescription == s.detailDescription
    requires HeadOk(r.title, r.jsonLdBlocks, r.meta)
    ensures Wellformed(r)
  {
  }

  /** Appending a clean text to a list of clean texts. */
  lemma AppendClean(texts: seq<String>, text: String)
    requires forall i :: 0 <= i < |texts| ==> CleanText(texts[i])
    requires CleanText(text)
    ensures forall i :: 0 <= i < |texts + [text]| ==> CleanText((texts + [text])[i])
  {
    var more := texts + [text];
    forall i | 0 <= i < |more| ensures CleanText(more[i]) {
      if i < |texts| {
        assert more[i] == texts[i];
      }
    }
  }

  lemma CloseMaterialsPreserves(s: ParserState, tag: String)
    requires Wellformed(s)
    ensures Wellformed(CloseMaterials(s, tag))
  {
    CloseMaterialsTexts(s, tag);
    TextsStep(s, CloseMaterials(s, tag));
  }

  /** A closing material item is clean, so the materials stay clean. */
  lemma CloseMaterialsTexts(s: ParserState, tag: String)
    requires TextsOk(s.materials, s.detailDescription)
    ensures var r := CloseMaterials(s, tag);
      TextsOk(r.materials, r.detailDescription)
  {
    var r := CloseMaterials(s, tag);
    if s.materialsDepth > 0 {
      var done := tag == "li" && s.materialItemDepth == 1;
      var text := NormalizeText(s.materialText);
      NormalizeClean(s.materialText);
      assert r.materials == if done && text != [] then s.materials + [text] else s.materials;
      if done && text != [] {
        AppendClean(s.materials, text);
      }
    }
  }

  lemma CloseDescriptionPreserves(s: ParserState)
    requires Wellformed(s)
    ensures Wellformed(CloseDescription(s))
  {
    CloseDescriptionTexts(s);
    TextsStep(s, CloseDescription(s));
  }

  /** A closing description is clean, so the detail description stays clean. */
  lemma CloseDescriptionTexts(s: ParserState)
    requires TextsOk(s.materials, s.detailDescription)
    ensures var r := CloseDescription(s);
      TextsOk(r.materials, r.detailDescription)
  {
    var r := CloseDescription(s);
    assert r.materials == s.materials;
    if s.descriptionDepth == 1 {
      var text := NormalizeText(s.descriptionBuffer);
      NormalizeClean(s.descriptionBuffer);
      assert r.detailDescription == if text != [] then Some(text) else s.detailDescription;
    } else {
      assert r.detailDescription == s.detailDescription;
    }
  }

  /** A step that changes only the materials and description fields keeps the state well formed when their texts stay clean. */
  lemma TextsStep(s: ParserState, r: ParserState)
    requires Wellformed(s)
    requires r.functionStack == s.functionStack && r.functions == s.functions
    requires r.highlightStack == s.highlightStack && r.highlights == s.highlights
    requires r.ingredientStack == s.ingredientStack && r.ingredients == s.ingredients
    requires r.title == s.title && r.jsonLdBlocks == s.jsonLdBlocks && r.meta == s.meta
    requires TextsOk(r.materials, r.detailDescription)
    ensures Wellformed(r)
  {
  }

  lemma CloseBlocksPreserves(s: ParserState, base: String, tag: String)
    requires Wellformed(s)
    ensures Wellformed(CloseBlocks(s, base, tag))
  {
    BlockEndPreserves(s.functionStack, s.functions, tag);
    BlockEndPreserves(s.highlightStack, s.highlights, tag);
    TitlesEnd(s.functionStack, s.functions, tag, Headings);
    TitlesEnd(s.highlightStack, s.highlights, tag, HighlightTitleTags);
    Tooltips.IngredientEndPreserves(s.ingredientStack, s.ingredients, tag, base);
  }

  lemma EndPreserves(s: ParserState, base: String, tag: String)
    requires Wellformed(s)
    ensures Wellformed(EndStep(s, base, tag))
  {
    var s1 := CloseSpecial(s, base, tag);
    CloseSpecialPreserves(s, base, tag);
    var s2 := CloseMaterials(s1, tag);
    CloseMaterialsPreserves(s1, tag);
    var s3 := CloseDescription(s2);
    CloseDescriptionPreserves(s2);
    CloseBlocksPreserves(s3, base, tag);
  }

  lemma DataPreserves(s: ParserState, data: String)
    requires Wellformed(s)
    ensures Wellformed(DataStep(s, data))
  {
    BlockDataPreserves(s.functionStack, data, None);
    BlockDataPreserves(s.highlightStack, data, None);
    TitlesData(s.functionStack, data, None, Headings);
    TitlesData(s.highlightStack, data, None, HighlightTitleTags);
    TooltipDataTopOk(s.ingredientStack, data);
  }

  lemma StepPreserves(s: ParserState, base: String, e: Event)
    requires Wellformed(s)
    ensures Wellformed(Handle(s, base, e))
  {
    match e
    case Start(tag, attrs) => StartPreserves(s, base, tag, attrs);
    case End(tag) => EndPreserves(s, base, tag);
    case Data(text) => DataPreserves(s, text);
  }

  /** Whatever the events, well-formed or not, the parser stays well formed. */
  lemma {:induction false} RunPreserves(s: ParserState, base: String, events: seq<Event>)
    requires Wellformed(s)
    ensures Wellformed(Run(s, base, events))
    decreases |events|
  {
    if events != [] {
      StepPreserves(s, base, events[0]);
      RunPreserves(Handle(s, base, events[0]), base, events[1..]);
    }
  }
}
