/**
 * `ProductHTMLParser`: the parser object whose handlers update its fields
 * as the tokenizer reports start tags, end tags and text, and `parse`,
 * which runs a whole document through it and assembles the product.
 */
module Parser {
  import opened Options
  import opened Text
  import opened Markup
  import opened Json
  import opened Ordering
  import opened Regions
  import opened Ingredients
  import Tooltips
  import opened Extractor
  import opened ExtractorLaws
  import opened Products

  /** The `h1`, JSON-LD and meta fields. */
  datatype Head = Head(inH1: bool, h1Text: seq<String>, jsonLdBlocks: seq<String>, inJsonLd: bool, jsonBuffer: seq<String>, meta: map<String, String>, title: Option<String>)

  /** The anchor fields. */
  datatype Links = Links(brandLinks: set<String>, linkKind: Option<LinkKind>, linkHref: Option<String>, linkText: seq<String>, hrefStack: seq<String>)

  /** The detail-page depth counters and the description and materials fields. */
  datatype Detail = Detail(detailDepth: nat, descriptionDepth: nat, descriptionBuffer: seq<String>, detailDescription: Option<String>, materialsDepth: nat, materialItemDepth: nat, materialText: seq<String>, materials: seq<String>)

  /** The function and highlight stacks and entries. */
  datatype Blocks = Blocks(functionStack: seq<BlockFrame>, functions: seq<Entry>, highlightStack: seq<BlockFrame>, highlights: seq<Entry>)

  /** The ingredient dictionary and the ingredient frames. */
  datatype Collected = Collected(ingredients: Dict, ingredientStack: seq<Tooltips.Frame>)

  /** `ProductHTMLParser`; its attributes are kept in five records, one per concern. */
  class ProductHtmlParser {
    /** `base_url`, without trailing slashes. */
    const baseUrl: String
    var head: Head
    var links: Links
    var detail: Detail
    var blocks: Blocks
    var collected: Collected

    /** The attributes as one value. */
    function State(): ParserState
      reads this
    {
      ParserState(head.inH1, head.h1Text, head.jsonLdBlocks, head.inJsonLd, head.jsonBuffer, head.meta, links.brandLinks, links.linkKind, links.linkHref, links.linkText, links.hrefStack, collected.ingredients, head.title, detail.detailDepth, detail.descriptionDepth, detail.descriptionBuffer, detail.detailDescription, detail.materialsDepth, detail.materialItemDepth, detail.materialText, detail.materials, blocks.functionStack, blocks.functions, blocks.highlightStack, blocks.highlights, collected.ingredientStack)
    }

    /** Sets every attribute from `s`. */
    method Store(s: ParserState)
      modifies this
      ensures State() == s
    {
      head := Head(s.inH1, s.h1Text, s.jsonLdBlocks, s.inJsonLd, s.jsonBuffer, s.meta, s.title);
      links := Links(s.brandLinks, s.linkKind, s.linkHref, s.linkText, s.hrefStack);
      detail := Detail(s.detailDepth, s.descriptionDepth, s.descriptionBuffer, s.detailDescription, s.materialsDepth, s.materialItemDepth, s.materialText, s.materials);
      blocks := Blocks(s.functionStack, s.functions, s.highlightStack, s.highlights);
      collected := Collected(s.ingredients, s.ingredientStack);
    }

    constructor(base: String)
      ensures baseUrl == RStripChar(base, '/')
      ensures State() == Initial
    {
      baseUrl := RStripChar(base, '/');
      new;
      Store(Initial);
    }

    /** `_reset_state` */
    method ResetState()
      modifies this
      ensures State() == Initial
    {
      Store(Initial);
    }

    /** `handle_starttag` */
    method HandleStartTag(tag: String, attrs: Attrs)
      modifies this
      ensures State() == StartStep(old(State()), baseUrl, tag, attrs)
    {
      Store(StartStep(State(), baseUrl, tag, attrs));
    }

    /** `handle_endtag` */
    method HandleEndTag(tag: String)
      modifies this
      ensures State() == EndStep(old(State()), baseUrl, tag)
    {
      Store(EndStep(State(), baseUrl, tag));
    }

    /** `handle_data` */
    method HandleData(data: String)
      modifies this
      ensures State() == DataStep(old(State()), data)
    {
      Store(DataStep(State(), data));
    }

    /** `feed`: the tokenizer's events, each passed to its handler in order. */
    method Feed(events: seq<Event>)
      modifies this
      ensures State() == Run(old(State()), baseUrl, events)
    {
      for i := 0 to |events|
        invariant Run(old(State()), baseUrl, events) == Run(State(), baseUrl, events[i..])
      {
        RunUnfold(State(), baseUrl, events[i..]);
        assert events[i..][0] == events[i] && events[i..][1..] == events[i + 1..];
        Dispatch(events[i]);
      }
    }

    /** The tokenizer's dispatch of one event to the handler for its kind. */
    method Dispatch(e: Event)
      modifies this
      ensures State() == Handle(old(State()), baseUrl, e)
    {
      match e
      case Start(tag, attrs) => HandleStartTag(tag, attrs);
      case End(tag) => HandleEndTag(tag);
      case Data(text) => HandleData(text);
    }

    /**
     * `parse`: the fields are reset and the document fed; the first product
     * node of the JSON-LD blocks contributes its ingredients to the
     * dictionary; the product is assembled with the sorted brand links and
     * the ingredients merged by URL and by name.
     */
    method Parse(events: seq<Event>, url: String, lib: Library) returns (product: Product)
      modifies this
      ensures var s := Run(Initial, baseUrl, events);
        State() == s.(ingredients := JsonIngredients(s.ingredients, ProductNode(s.jsonLdBlocks, lib.decode), baseUrl))
      ensures collected.ingredients.Valid()
      ensures var s := Run(Initial, baseUrl, events);
        product == Assemble(s, url, ProductNode(s.jsonLdBlocks, lib.decode), product.rawBrandLinks, product.ingredients, lib)
      ensures StrictlySorted(product.rawBrandLinks) && forall y :: y in product.rawBrandLinks <==> y in links.brandLinks
      ensures UrlsDistinct(product.ingredients) && BlankUrlNamesDistinct(product.ingredients)
      ensures exists owner, creator :: Merged(collected.ingredients.Values(), product.ingredients, owner, creator)
      ensures Parsed(baseUrl, events, url, lib, product)
    {
      ResetState();
      Feed(events);
      InitialWellformed();
      RunPreserves(Initial, baseUrl, events);
      product := Finish(url, lib);
    }

    /** What `parse` does once the document has been fed. */
    method Finish(url: String, lib: Library) returns (product: Product)
      requires collected.ingredients.Valid()
      modifies this
      ensures var s := old(State());
        State() == s.(ingredients := JsonIngredients(s.ingredients, ProductNode(s.jsonLdBlocks, lib.decode), baseUrl))
      ensures collected.ingredients.Valid()
      ensures var s := old(State());
        product == Assemble(s, url, ProductNode(s.jsonLdBlocks, lib.decode), product.rawBrandLinks, product.ingredients, lib)
      ensures StrictlySorted(product.rawBrandLinks) && forall y :: y in product.rawBrandLinks <==> y in links.brandLinks
      ensures UrlsDistinct(product.ingredients) && BlankUrlNamesDistinct(product.ingredients)
      ensures exists owner, creator :: Merged(collected.ingredients.Values(), product.ingredients, owner, creator)
      ensures product.ingredients == Deduped(collected.ingredients.Values())
    {
      var d;
      product, d := Reconcile(State(), baseUrl, url, lib);
      collected := collected.(ingredients := d);
    }
  }

  /**
   * What `parse` returns for the events of a document: the product
   * assembled from the state the events leave, with the brand links
   * sorted and the dictionary's ingredients, the JSON-LD ones added,
   * merged by `Deduped`.
   */
  ghost predicate Parsed(base: String, events: seq<Event>, url: String, lib: Library, product: Product) {
    var s := Run(Initial, base, events);
    var node := ProductNode(s.jsonLdBlocks, lib.decode);
    InitialWellformed();
    RunPreserves(Initial, base, events);
    && product == Assemble(s, url, node, product.rawBrandLinks, Deduped(JsonIngredients(s.ingredients, node, base).Values()), lib)
    && StrictlySorted(product.rawBrandLinks) && (forall y :: y in product.rawBrandLinks <==> y in s.brandLinks)
  }

  /** A document parses to one product only. */
  lemma ParsedUnique(base: String, events: seq<Event>, url: String, lib: Library, p: Product, q: Product)
    requires Parsed(base, events, url, lib, p) && Parsed(base, events, url, lib, q)
    ensures p == q
  {
    SortedByMembers(p.rawBrandLinks, q.rawBrandLinks);
  }

  /** One event of a stream is handled before the rest. */
  lemma RunUnfold(s: ParserState, base: String, events: seq<Event>)
    requires events != []
    ensures Run(s, base, events) == Run(Handle(s, base, events[0]), base, events[1..])
  {
  }

  /**
   * The reconciliation `parse` performs on the fields after the stream:
   * the dictionary with the JSON-LD ingredients added, and the product.
   */
  method Reconcile(s: ParserState, base: String, url: String, lib: Library) returns (product: Product, d: Dict)
    requires s.ingredients.Valid()
    ensures d == JsonIngredients(s.ingredients, ProductNode(s.jsonLdBlocks, lib.decode), base) && d.Valid()
    ensures product == Assemble(s, url, ProductNode(s.jsonLdBlocks, lib.decode), product.rawBrandLinks, product.ingredients, lib)
    ensures StrictlySorted(product.rawBrandLinks) && forall y :: y in product.rawBrandLinks <==> y in s.brandLinks
    ensures UrlsDistinct(product.ingredients) && BlankUrlNamesDistinct(product.ingredients)
    ensures exists owner, creator :: Merged(d.Values(), product.ingredients, owner, creator)
    ensures product.ingredients == Deduped(d.Values())
  {
    var sorted := SortSet(s.brandLinks);
    var node := FindProductNode(s.jsonLdBlocks, lib.decode);
    d := s.ingredients;
    if node.Some? {
      var data := IngredientData(node.value);
      if data.Some? && data.value.JArray? {
        d := AddJsonItemsLoop(d, data.value.items, base);
      } else if data.Some? && data.value.JString? {
        d := AddJsonTokensLoop(d, Split(data.value.s, ','));
      }
    }
    var deduped, owner, creator := Dedupe(d.Values());
    product := Assemble(s, url, node, sorted, deduped, lib);
  }
}
