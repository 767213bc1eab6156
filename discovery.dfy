/**
 * Product discovery: `LinkCollector`, the sitemap and brand-index
 * strategies, the breadth-first walk over one brand's pages and
 * `discover_product_urls`, which merges the strategies' streams.
 *
 * The site is an oracle (`Web`): what `fetch` delivers for each URL, the
 * HTML tokenizer, the sitemap XML parser and `urljoin` against a page URL
 * (the walk's join of a pagination query).
 */
module Discovery {
  import opened Options
  import opened Text
  import opened Ordering
  import opened Http
  import opened Markup
  import opened Traversal

  /**
   * The site as the scraper sees it. `pages` maps each URL that `fetch`
   * delivers (after its retries) to the body; a URL it gives up on is
   * absent. `tokenize` is the HTML tokenizer; `locs` parses a sitemap into
   * the texts of its `<loc>` elements (`""` for an element without text),
   * or `None` when the XML does not parse; `join` is `urllib.parse.urljoin`
   * applied to a page URL and a link found on it.
   */
  datatype Web = Web(
    pages: map<String, String>,
    tokenize: String -> seq<Event>,
    locs: String -> Option<seq<String>>,
    join: (String, String) -> String)

  /**
   * `urljoin` of an http(s) page URL and a `?page=` query is an http(s) URL:
   * the query replaces the page's own query, scheme and host stay.
   */
  ghost predicate JoinsAbsolute(web: Web) {
    forall u, l :: IsAbsolute(u) && StartsWith(l, "?page=") ==> IsAbsolute(web.join(u, l))
  }

  /** `fetch` of a path or URL: the body, or `None` where it raises. */
  function Fetch(web: Web, base: String, pathOrUrl: String): (r: Option<String>)
    ensures r.Some? <==> BuildUrl(base, pathOrUrl) in web.pages
    ensures r.Some? ==> r.value in web.pages.Values
  {
    var u := BuildUrl(base, pathOrUrl);
    if u in web.pages then Some(web.pages[u]) else None
  }

  // ---------------------------------------------------------------------
  // LinkCollector

  /** Some prefix of `prefixes` starts `href` (the loop that breaks at the first match). */
  predicate MatchesPrefix(href: String, prefixes: seq<String>) {
    exists p :: p in prefixes && StartsWith(href, p)
  }

  /**
   * What one start tag offers the collector: the `href` of an `<a>` that
   * starts with one of the prefixes, cut at its first `#`.
   */
  function Candidate(prefixes: seq<String>, tag: String, attrs: Attrs): seq<String> {
    var href := Attr(attrs, "href");
    if tag == "a" && Present(href) && MatchesPrefix(href.value, prefixes) then [CutAt(href.value, '#')] else []
  }

  function EventCandidate(prefixes: seq<String>, e: Event): seq<String> {
    match e
    case Start(tag, attrs) => Candidate(prefixes, tag, attrs)
    case _ => []
  }

  /** Every sanitized href of `events`, in document order, repeats included. */
  function Candidates(prefixes: seq<String>, events: seq<Event>): seq<String> {
    if events == [] then []
    else Candidates(prefixes, events[..|events| - 1]) + EventCandidate(prefixes, events[|events| - 1])
  }

  /** `collector.links` once a fresh collector has been fed `events`. */
  function Links(prefixes: seq<String>, events: seq<Event>): seq<String> {
    Dedup(Candidates(prefixes, events))
  }

  /** Feeding one more event: what it offers comes after everything offered before. */
  lemma CandidatesStep(prefixes: seq<String>, start: seq<String>, events: seq<Event>, i: nat)
    requires i < |events|
    ensures start + Candidates(prefixes, events[..i + 1])
      == (start + Candidates(prefixes, events[..i])) + EventCandidate(prefixes, events[i])
    ensures !events[i].Start? ==>
      start + Candidates(prefixes, events[..i + 1]) == start + Candidates(prefixes, events[..i])
  {
    assert events[..i + 1][..i] == events[..i];
    var before := Candidates(prefixes, events[..i]);
    var e := EventCandidate(prefixes, events[i]);
    assert start + (before + e) == (start + before) + e;
    if !events[i].Start? {
      assert (start + before) + [] == start + before;
    }
  }

  /** Cutting at `#` keeps a prefix that has no `#` in it. */
  lemma CutKeepsPrefix(href: String, p: String)
    requires StartsWith(href, p) && '#' !in p
    ensures StartsWith(CutAt(href, '#'), p)
  {
    var r := CutAt(href, '#');
    assert r[..|p|] == href[..|r|][..|p|];
  }

  /** Every candidate is cut at `#` and, for `#`-free prefixes, starts with one of them. */
  lemma {:induction false} CandidatesShape(prefixes: seq<String>, events: seq<Event>)
    ensures forall x :: x in Candidates(prefixes, events) ==> '#' !in x
    ensures (forall p :: p in prefixes ==> '#' !in p) ==>
      forall x :: x in Candidates(prefixes, events) ==> MatchesPrefix(x, prefixes)
  {
    if events != [] {
      CandidatesShape(prefixes, events[..|events| - 1]);
      var e := events[|events| - 1];
      if e.Start? && EventCandidate(prefixes, e) != [] {
        var href := Attr(e.attrs, "href").value;
        var p :| p in prefixes && StartsWith(href, p);
        if '#' !in p {
          CutKeepsPrefix(href, p);
        }
      }
    }
  }

  /**
   * The collected links: no duplicates, in first-seen order, exactly the
   * offered hrefs, each cut at `#` and starting with one of the prefixes.
   */
  lemma LinksLaw(prefixes: seq<String>, events: seq<Event>)
    requires forall p :: p in prefixes ==> '#' !in p
    ensures var c := Candidates(prefixes, events); var r := Links(prefixes, events);
      && NoDup(r)
      && (forall x :: x in r <==> x in c)
      && (forall i, j :: 0 <= i < j < |r| ==> FirstIndex(c, r[i]) < FirstIndex(c, r[j]))
      && (forall x :: x in r ==> '#' !in x && MatchesPrefix(x, prefixes))
  {
    CandidatesShape(prefixes, events);
    DedupFirstSeenOrder(Candidates(prefixes, events));
  }

  /** `LinkCollector`: anchors whose href starts with one of `prefixes`. */
  class LinkCollector {
    const prefixes: seq<String>
    var links: seq<String>
    /** Every sanitized href offered so far, repeats included. */
    ghost var offered: seq<String>

    ghost predicate Valid()
      reads this
    {
      links == Dedup(offered)
    }

    constructor(prefixes: seq<String>)
      ensures this.prefixes == prefixes && offered == [] && Valid()
    {
      this.prefixes := prefixes;
      links := [];
      offered := [];
    }

    /** `handle_starttag`: append the sanitized href unless it is already listed. */
    method HandleStartTag(tag: String, attrs: Attrs)
      requires Valid()
      modifies this
      ensures Valid() && offered == old(offered) + Candidate(prefixes, tag, attrs)
    {
      if tag != "a" {
        assert offered + [] == offered;
        return;
      }
      var href := Attr(attrs, "href");
      if !Present(href) {
        assert offered + [] == offered;
        return;
      }
      var k := 0;
      while k < |prefixes|
        invariant 0 <= k <= |prefixes|
        invariant forall j :: 0 <= j < k ==> !StartsWith(href.value, prefixes[j])
      {
        if StartsWith(href.value, prefixes[k]) {
          var sanitized := CutAt(href.value, '#');
          DedupSnoc(offered, sanitized);
          if sanitized !in links {
            links := links + [sanitized];
          }
          offered := offered + [sanitized];
          return;
        }
        k := k + 1;
      }
      assert offered + [] == offered;
    }

    /** `feed`: the start tags of `events` in order. */
    method Feed(events: seq<Event>)
      requires Valid()
      modifies this
      ensures Valid() && offered == old(offered) + Candidates(prefixes, events)
    {
      ghost var start := offered;
      for i := 0 to |events|
        invariant Valid()
        invariant offered == start + Candidates(prefixes, events[..i])
      {
        CandidatesStep(prefixes, start, events, i);
        match events[i]
        case Start(tag, attrs) =>
          HandleStartTag(tag, attrs);
        case _ =>
      }
      assert events[..|events|] == events;
    }
  }

  /** A fresh collector fed `events`. */
  method CollectLinks(prefixes: seq<String>, events: seq<Event>) returns (links: seq<String>)
    ensures links == Links(prefixes, events)
  {
    var collector := new LinkCollector(prefixes);
    collector.Feed(events);
    links := collector.links;
    assert [] + Candidates(prefixes, events) == Candidates(prefixes, events);
  }

  // ---------------------------------------------------------------------
  // Small list helpers

  /** Each link passed through `build_url`. */
  function Built(base: String, links: seq<String>): (r: seq<String>)
    ensures |r| == |links|
    ensures forall i :: 0 <= i < |links| ==> r[i] == BuildUrl(base, links[i])
  {
    seq(|links|, i requires 0 <= i < |links| => BuildUrl(base, links[i]))
  }

  /** Site references built under an http(s) base are http(s) URLs. */
  lemma BuiltAbsolute(base: String, links: seq<String>)
    requires IsAbsolute(base) && forall l :: l in links ==> SiteReference(l)
    ensures AllAbsolute(Built(base, links))
  {
    var r := Built(base, links);
    forall x | x in r
      ensures IsAbsolute(x)
    {
      var i :| 0 <= i < |r| && r[i] == x;
      assert links[i] in links;
    }
  }

  /**
   * Links collected under site prefixes such as `/products/` are built
   * under the base: each becomes `base + link`, an http(s) URL.
   */
  lemma BuiltUnderBase(base: String, prefixes: seq<String>, links: seq<String>)
    requires IsAbsolute(base)
    requires forall p :: p in prefixes ==> SitePrefix(p)
    requires forall l :: l in links ==> MatchesPrefix(l, prefixes)
    ensures forall i :: 0 <= i < |links| ==> Built(base, links)[i] == base + links[i]
    ensures AllAbsolute(Built(base, links))
  {
    forall i | 0 <= i < |links|
      ensures Built(base, links)[i] == base + links[i] && IsAbsolute(base + links[i])
    {
      assert links[i] in links;
      var p :| p in prefixes && StartsWith(links[i], p);
      PrefixedSitePath(links[i], p);
      BuildUrlOfPath(base, links[i]);
      AbsolutePrefix(base, links[i]);
    }
  }

  lemma StartsUnder(base: String, l: String, p: String)
    requires StartsWith(l, p)
    ensures StartsWith(base + l, base + p)
  {
    assert (base + l)[..|base + p|] == base + l[..|p|];
  }

  /** Each link resolved with `urljoin` against the page it was found on. */
  function Joined(web: Web, url: String, links: seq<String>): (r: seq<String>)
    ensures |r| == |links|
    ensures forall i :: 0 <= i < |links| ==> r[i] == web.join(url, links[i])
  {
    seq(|links|, i requires 0 <= i < |links| => web.join(url, links[i]))
  }

  /** `?page=` links joined against an http(s) page URL are http(s) URLs. */
  lemma JoinedAbsolute(web: Web, url: String, links: seq<String>)
    requires JoinsAbsolute(web) && IsAbsolute(url)
    requires forall l :: l in links ==> StartsWith(l, "?page=")
    ensures AllAbsolute(Joined(web, url, links))
  {
    var r := Joined(web, url, links);
    forall x | x in r
      ensures IsAbsolute(x)
    {
      var i :| 0 <= i < |r| && r[i] == x;
      assert links[i] in links;
    }
  }

  predicate AllAbsolute(xs: seq<String>) {
    forall x :: x in xs ==> IsAbsolute(x)
  }

  // ---------------------------------------------------------------------
  // _discover_products_for_brand

  const ProductPrefixes: seq<String> := ["/products/"]
  const PaginationPrefixes: seq<String> := ["?page="]
  const BrandPrefixes: seq<String> := ["/brands/", "/brand/"]

  /**
   * The pagination links of a brand page, made absolute against the page's
   * own URL; none when the page cannot be fetched. (Every page the walk
   * reaches is absolute, so `fetch` looks it up as it is.)
   */
  function Pagination(web: Web): map<String, seq<String>> {
    map u | u in web.pages :: Joined(web, u, Links(PaginationPrefixes, web.tokenize(web.pages[u])))
  }

  /** The product URLs a brand page yields; none when it cannot be fetched. */
  function PageProducts(web: Web, base: String, u: String): seq<String> {
    if u in web.pages then Built(base, Links(ProductPrefixes, web.tokenize(web.pages[u]))) else []
  }

  /**
   * Under an http(s) base the product URLs of a fetched page are the base
   * followed by each `/products/...` link of the page, without repeats.
   */
  lemma PageProductsLaw(web: Web, base: String, u: String)
    requires IsAbsolute(base) && u in web.pages
    ensures var links := Links(ProductPrefixes, web.tokenize(web.pages[u])); var r := PageProducts(web, base, u);
      && |r| == |links|
      && (forall i :: 0 <= i < |r| ==> r[i] == base + links[i] && StartsWith(r[i], base + "/products/"))
      && NoDup(r)
  {
    var links := Links(ProductPrefixes, web.tokenize(web.pages[u]));
    SinglePrefixLinks("/products/", web.tokenize(web.pages[u]));
    BuiltUnderPrefix(base, "/products/", links);
    PrefixedNoDup(base, links, Built(base, links));
  }

  /** Links that all start with one site prefix are built as `base + link`, under `base + prefix`. */
  lemma BuiltUnderPrefix(base: String, p: String, links: seq<String>)
    requires IsAbsolute(base) && SitePrefix(p)
    requires forall l :: l in links ==> StartsWith(l, p)
    ensures forall i :: 0 <= i < |links| ==>
      Built(base, links)[i] == base + links[i] && StartsWith(Built(base, links)[i], base + p)
  {
    forall i | 0 <= i < |links|
      ensures Built(base, links)[i] == base + links[i] && StartsWith(base + links[i], base + p)
    {
      assert links[i] in links;
      PrefixedSitePath(links[i], p);
      BuildUrlOfPath(base, links[i]);
      StartsUnder(base, links[i], p);
    }
  }

  /** Putting the same text in front of distinct links keeps them distinct. */
  lemma PrefixedNoDup(base: String, links: seq<String>, r: seq<String>)
    requires NoDup(links) && |r| == |links|
    requires forall i :: 0 <= i < |r| ==> r[i] == base + links[i]
    ensures NoDup(r)
  {
    forall i, j | 0 <= i < j < |r|
      ensures r[i] != r[j]
    {
      assert r[i][|base|..] == links[i] && r[j][|base|..] == links[j];
    }
  }

  /** The product URLs of the visited pages, page after page. */
  function Harvest(web: Web, base: String, pages: seq<String>): seq<String> {
    if pages == [] then [] else Harvest(web, base, pages[..|pages| - 1]) + PageProducts(web, base, pages[|pages| - 1])
  }

  /** The harvest holds every product URL of each visited page, and nothing else. */
  lemma {:induction false} HarvestMembers(web: Web, base: String, pages: seq<String>)
    ensures forall x :: x in Harvest(web, base, pages) <==> exists p :: p in pages && x in PageProducts(web, base, p)
    decreases |pages|
  {
    if pages != [] {
      var init := pages[..|pages| - 1];
      var last := pages[|pages| - 1];
      HarvestMembers(web, base, init);
      assert forall p :: p in pages <==> p in init || p == last by {
        assert pages == init + [last];
      }
    }
  }

  /** Harvesting two runs of pages in turn is harvesting them together. */
  lemma {:induction false} HarvestConcat(web: Web, base: String, a: seq<String>, b: seq<String>)
    ensures Harvest(web, base, a + b) == Harvest(web, base, a) + Harvest(web, base, b)
    decreases |b|
  {
    if b == [] {
      assert a + b == a;
    } else {
      var init := b[..|b| - 1];
      assert (a + b)[..|a + b| - 1] == a + init;
      HarvestConcat(web, base, a, init);
    }
  }

  /** The pages `_discover_products_for_brand(brand)` visits, in order. */
  function BrandPages(web: Web, brand: String): seq<String> {
    Crawl(Pagination(web), [brand], {})
  }

  /** What `_discover_products_for_brand(brand)` yields. */
  function BrandProducts(web: Web, base: String, brand: String): seq<String> {
    Harvest(web, base, BrandPages(web, brand))
  }

  /**
   * The walk over a brand's pages starts at the brand page, fetches each
   * page once, follows every pagination link of every page it fetches, and
   * fetches nothing that is not reachable that way.
   */
  lemma BrandPagesLaw(web: Web, brand: String)
    ensures var c := BrandPages(web, brand);
      && |c| >= 1 && c[0] == brand
      && NoDup(c)
      && (forall v, x :: v in c && x in Next(Pagination(web), v) ==> x in c)
      && (forall i :: 0 < i < |c| ==> exists j :: 0 <= j < i && c[i] in Next(Pagination(web), c[j]))
  {
    CrawlLaw(Pagination(web), brand);
  }

  /** A collector with a single prefix keeps only links that start with it. */
  lemma SinglePrefixLinks(p: String, events: seq<Event>)
    requires '#' !in p
    ensures forall l :: l in Links([p], events) ==> StartsWith(l, p)
  {
    LinksLaw([p], events);
    forall l | l in Links([p], events)
      ensures StartsWith(l, p)
    {
      var q :| q in [p] && StartsWith(l, q);
    }
  }

  /** Queueing a page's pagination links: each made absolute, those not seen yet appended. */
  method Enqueue(web: Web, currentUrl: String, links: seq<String>, seenPages: set<String>, queue: seq<String>)
    returns (q: seq<String>)
    ensures q == queue + Unseen(Joined(web, currentUrl, links), seenPages)
  {
    ghost var absolutes := Joined(web, currentUrl, links);
    q := queue;
    for k := 0 to |links|
      invariant q == queue + Unseen(absolutes[..k], seenPages)
    {
      UnseenStep(queue, absolutes, k, seenPages);
      var absolute := web.join(currentUrl, links[k]);
      if absolute !in seenPages {
        q := q + [absolute];
      }
    }
    assert absolutes[..|links|] == absolutes;
  }

  /**
   * One visit of the walk: fetch the page, yield its product links and queue
   * its unseen pagination links; a page that cannot be fetched adds nothing.
   */
  method VisitPage(web: Web, base: String, currentUrl: String, seenPages: set<String>, rest: seq<String>)
    returns (products: seq<String>, queue: seq<String>)
    requires JoinsAbsolute(web) && IsAbsolute(currentUrl) && AllAbsolute(rest)
    ensures products == PageProducts(web, base, currentUrl)
    ensures queue == rest + Unseen(Next(Pagination(web), currentUrl), seenPages)
    ensures AllAbsolute(queue)
  {
    assert BuildUrl(base, currentUrl) == currentUrl;
    var html := Fetch(web, base, currentUrl);
    if html.None? {
      products := [];
      queue := rest;
      assert Unseen([], seenPages) == [];
      assert rest + [] == rest;
      return;
    }
    var productLinks := CollectLinks(ProductPrefixes, web.tokenize(html.value));
    products := Built(base, productLinks);
    var paginationLinks := CollectLinks(PaginationPrefixes, web.tokenize(html.value));
    SinglePrefixLinks("?page=", web.tokenize(html.value));
    JoinedAbsolute(web, currentUrl, paginationLinks);
    queue := Enqueue(web, currentUrl, paginationLinks, seenPages, rest);
  }

  /**
   * One turn of the walk's loop: a page seen already is dropped, any other
   * is visited. What has been visited plus what the rest of the walk will
   * visit stays the same, and the walk's measure goes down.
   */
  method BrandStep(web: Web, base: String, ghost graph: map<String, seq<String>>,
                   queue: seq<String>, seenPages: set<String>, ghost visited: seq<String>, out: seq<String>)
    returns (queue': seq<String>, seenPages': set<String>, ghost visited': seq<String>, out': seq<String>)
    requires graph == Pagination(web) && JoinsAbsolute(web)
    requires queue != [] && AllAbsolute(queue)
    requires out == Harvest(web, base, visited)
    ensures AllAbsolute(queue')
    ensures out' == Harvest(web, base, visited')
    ensures visited' + Crawl(graph, queue', seenPages') == visited + Crawl(graph, queue, seenPages)
    ensures |graph.Keys - seenPages'| < |graph.Keys - seenPages|
      || (|graph.Keys - seenPages'| == |graph.Keys - seenPages| && |queue'| < |queue|)
  {
    var currentUrl := queue[0];
    if currentUrl in seenPages {
      CrawlSkip(graph, queue, seenPages);
      return queue[1..], seenPages, visited, out;
    }
    CrawlVisit(graph, visited, queue, seenPages);
    seenPages' := seenPages + {currentUrl};
    var products;
    products, queue' := VisitPage(web, base, currentUrl, seenPages', queue[1..]);
    assert queue' == Advance(graph, queue, seenPages);
    visited' := visited + [currentUrl];
    assert visited'[..|visited|] == visited;
    out' := out + products;
  }

  /** `_discover_products_for_brand`: breadth-first over a brand's pages with a `seen_pages` set. */
  method DiscoverProductsForBrand(web: Web, base: String, brandUrl: String) returns (out: seq<String>)
    requires JoinsAbsolute(web) && IsAbsolute(brandUrl)
    ensures out == BrandProducts(web, base, brandUrl)
  {
    ghost var visited;
    out, visited := WalkBrandPages(web, base, Pagination(web), brandUrl);
  }

  /** The loop of `_discover_products_for_brand`: it visits the pages of the walk and harvests them. */
  method WalkBrandPages(web: Web, base: String, ghost graph: map<String, seq<String>>, brandUrl: String)
    returns (out: seq<String>, ghost visited: seq<String>)
    requires graph == Pagination(web) && JoinsAbsolute(web) && IsAbsolute(brandUrl)
    ensures visited == Crawl(graph, [brandUrl], {})
    ensures out == Harvest(web, base, visited)
  {
    ghost var pages := Crawl(graph, [brandUrl], {});
    var seenPages: set<String> := {};
    var queue := [brandUrl];
    visited := [];
    out := [];
    assert visited + Crawl(graph, queue, seenPages) == pages;
    while queue != []
      invariant AllAbsolute(queue)
      invariant visited + Crawl(graph, queue, seenPages) == pages
      invariant out == Harvest(web, base, visited)
      decreases |graph.Keys - seenPages|, |queue|
    {
      queue, seenPages, visited, out := BrandStep(web, base, graph, queue, seenPages, visited, out);
    }
    CrawlDone(graph, visited, seenPages);
  }

  // ---------------------------------------------------------------------
  // _discover_from_brands

  /** The brand index buckets: one per lower-case letter, then `0-9` and `other`. */
  const LetterTokens: seq<String> := [
    "a", "b", "c", "d", "e", "f", "g", "h", "i", "j", "k", "l", "m",
    "n", "o", "p", "q", "r", "s", "t", "u", "v", "w", "x", "y", "z",
    "0-9", "other"]

  /** `/brands?letter=<token>`, with `&page=<n>` from the second page on. */
  function IndexPath(token: String, page: nat): String {
    "/brands?letter=" + token + (if page > 1 then "&page=" + NatToString(page) else "")
  }

  /** The brand links an index page lists, each passed through `build_url`. */
  function IndexBrands(base: String, web: Web, body: String): (r: seq<String>)
    ensures var links := Links(BrandPrefixes, web.tokenize(body));
      |r| == |links| && forall i :: 0 <= i < |links| ==> r[i] == BuildUrl(base, links[i])
  {
    Built(base, Links(BrandPrefixes, web.tokenize(body)))
  }

  /**
   * Under an http(s) base every brand link of an index page is the base
   * followed by the `/brands/...` or `/brand/...` path the page links to.
   */
  lemma IndexBrandsLaw(base: String, web: Web, body: String)
    requires IsAbsolute(base)
    ensures forall x :: x in IndexBrands(base, web, body) ==>
      IsAbsolute(x) && (StartsWith(x, base + "/brands/") || StartsWith(x, base + "/brand/"))
  {
    BrandLinksMatch(web.tokenize(body));
    BrandLinksBuilt(base, Links(BrandPrefixes, web.tokenize(body)));
  }

  /** Every brand link starts with `/brands/` or `/brand/`. */
  lemma BrandLinksMatch(events: seq<Event>)
    ensures forall l :: l in Links(BrandPrefixes, events) ==> StartsWith(l, "/brands/") || StartsWith(l, "/brand/")
  {
    LinksLaw(BrandPrefixes, events);
    forall l | l in Links(BrandPrefixes, events)
      ensures StartsWith(l, "/brands/") || StartsWith(l, "/brand/")
    {
      var p :| p in BrandPrefixes && StartsWith(l, p);
    }
  }

  /** Brand paths built under an http(s) base stay under its brand paths. */
  lemma BrandLinksBuilt(base: String, links: seq<String>)
    requires IsAbsolute(base)
    requires forall l :: l in links ==> StartsWith(l, "/brands/") || StartsWith(l, "/brand/")
    ensures forall x :: x in Built(base, links) ==>
      IsAbsolute(x) && (StartsWith(x, base + "/brands/") || StartsWith(x, base + "/brand/"))
  {
    var r := Built(base, links);
    forall x | x in r
      ensures IsAbsolute(x) && (StartsWith(x, base + "/brands/") || StartsWith(x, base + "/brand/"))
    {
      var i :| 0 <= i < |r| && r[i] == x;
      assert links[i] in links;
      BrandLinkBuilt(base, links[i]);
    }
  }

  lemma BrandLinkBuilt(base: String, l: String)
    requires IsAbsolute(base)
    requires StartsWith(l, "/brands/") || StartsWith(l, "/brand/")
    ensures IsAbsolute(BuildUrl(base, l))
    ensures StartsWith(BuildUrl(base, l), base + "/brands/") || StartsWith(BuildUrl(base, l), base + "/brand/")
  {
    var p := if StartsWith(l, "/brands/") then "/brands/" else "/brand/";
    PrefixedSitePath(l, p);
    BuildUrlOfPath(base, l);
    AbsolutePrefix(base, l);
    StartsUnder(base, l, p);
  }

  /** Page `page` of letter bucket `token`: its brand links, or `None` when it cannot be fetched. */
  function IndexListing(web: Web, base: String): (String, nat) -> Option<seq<String>> {
    (token: String, page: nat) =>
      match Fetch(web, base, IndexPath(token, page))
      case None => None
      case Some(body) => Some(IndexBrands(base, web, body))
  }

  /** Every brand URL any page of the site lists: the walk never leaves this finite set. */
  function AllBrands(web: Web, base: String): set<String> {
    set body, x | body in web.pages.Values && x in IndexBrands(base, web, body) :: x
  }

  lemma ListingBounded(web: Web, base: String)
    ensures ListsWithin(IndexListing(web, base), AllBrands(web, base))
  {
    forall t, p, x | IndexListing(web, base)(t, p).Some? && x in IndexListing(web, base)(t, p).value
      ensures x in AllBrands(web, base)
    {
      var body := Fetch(web, base, IndexPath(t, p)).value;
      assert x in IndexBrands(base, web, body);
    }
  }

  /** Under an http(s) base, every brand URL the site lists lies under the base's brand paths. */
  lemma AllBrandsUnderBase(web: Web, base: String)
    requires IsAbsolute(base)
    ensures forall x :: x in AllBrands(web, base) ==>
      IsAbsolute(x) && (StartsWith(x, base + "/brands/") || StartsWith(x, base + "/brand/"))
  {
    forall x | x in AllBrands(web, base)
      ensures IsAbsolute(x) && (StartsWith(x, base + "/brands/") || StartsWith(x, base + "/brand/"))
    {
      var body :| body in web.pages.Values && x in IndexBrands(base, web, body);
      IndexBrandsLaw(base, web, body);
    }
  }

  /**
   * The brand URLs `_discover_from_brands` walks, in order: each one some
   * index page of the site lists.
   */
  function BrandsWalked(web: Web, base: String): (r: seq<String>)
    ensures forall x :: x in r ==> x in AllBrands(web, base)
    ensures IsAbsolute(base) ==> forall x :: x in r ==>
      IsAbsolute(x) && (StartsWith(x, base + "/brands/") || StartsWith(x, base + "/brand/"))
  {
    ListingBounded(web, base);
    if IsAbsolute(base) then
      AllBrandsUnderBase(web, base);
      IndexWalk(IndexListing(web, base), AllBrands(web, base), LetterTokens, 1, {})
    else
      IndexWalk(IndexListing(web, base), AllBrands(web, base), LetterTokens, 1, {})
  }

  /** Everything the walked brands yield, brand after brand. */
  function WalkProducts(web: Web, base: String, brands: seq<String>): seq<String> {
    if brands == [] then []
    else WalkProducts(web, base, brands[..|brands| - 1]) + BrandProducts(web, base, brands[|brands| - 1])
  }

  /** What `_discover_from_brands` yields. */
  function BrandUrls(web: Web, base: String): seq<String> {
    WalkProducts(web, base, BrandsWalked(web, base))
  }

  /** Walking a batch of new brands in order, each marked visited before it is walked. */
  method WalkBatch(web: Web, base: String, brandLinks: seq<String>, visitedBrands: set<String>,
                   ghost walked: seq<String>, out: seq<String>)
    returns (visitedBrands': set<String>, out': seq<String>)
    requires JoinsAbsolute(web) && AllAbsolute(brandLinks)
    requires out == WalkProducts(web, base, walked)
    ensures visitedBrands' == visitedBrands + ToSet(brandLinks)
    ensures out' == WalkProducts(web, base, walked + brandLinks)
  {
    visitedBrands', out' := visitedBrands, out;
    assert walked + brandLinks[..0] == walked;
    for k := 0 to |brandLinks|
      invariant visitedBrands' == visitedBrands + ToSet(brandLinks[..k])
      invariant out' == WalkProducts(web, base, walked + brandLinks[..k])
    {
      PrefixStep(walked, brandLinks, k);
      visitedBrands' := visitedBrands' + {brandLinks[k]};
      var products := DiscoverProductsForBrand(web, base, brandLinks[k]);
      out' := out' + products;
    }
    assert brandLinks[..|brandLinks|] == brandLinks;
  }

  /**
   * One page of a letter bucket: fetch it, keep its brand links not walked
   * yet, and walk them. `done` is set when the page cannot be fetched or
   * lists nothing new; the bucket ends there.
   */
  method IndexPage(web: Web, base: String, ghost listing: (String, nat) -> Option<seq<String>>,
                   ghost bound: set<String>, tokens: seq<String>, page: nat,
                   visitedBrands: set<String>, ghost walked: seq<String>, out: seq<String>)
    returns (done: bool, visitedBrands': set<String>, ghost walked': seq<String>, out': seq<String>)
    requires JoinsAbsolute(web) && IsAbsolute(base)
    requires listing == IndexListing(web, base) && bound == AllBrands(web, base)
    requires ListsWithin(listing, bound) && tokens != []
    requires out == WalkProducts(web, base, walked)
    ensures out' == WalkProducts(web, base, walked')
    ensures done ==> (walked' + IndexWalk(listing, bound, tokens[1..], 1, visitedBrands')
      == walked + IndexWalk(listing, bound, tokens, page, visitedBrands))
    ensures !done ==> (walked' + IndexWalk(listing, bound, tokens, page + 1, visitedBrands')
      == walked + IndexWalk(listing, bound, tokens, page, visitedBrands))
    ensures !done ==> |bound - visitedBrands'| < |bound - visitedBrands|
  {
    var html := Fetch(web, base, IndexPath(tokens[0], page));
    if html.None? {
      BucketStops(listing, bound, tokens, page, visitedBrands);
      return true, visitedBrands, walked, out;
    }
    var links := CollectLinks(BrandPrefixes, web.tokenize(html.value));
    var brandLinks := Unseen(Built(base, links), visitedBrands);
    IndexBrandsLaw(base, web, html.value);
    assert listing(tokens[0], page) == Some(IndexBrands(base, web, html.value));
    if brandLinks == [] {
      BucketStops(listing, bound, tokens, page, visitedBrands);
      return true, visitedBrands, walked, out;
    }
    BucketContinues(listing, bound, tokens, page, visitedBrands, walked);
    done := false;
    visitedBrands', out' := WalkBatch(web, base, brandLinks, visitedBrands, walked, out);
    walked' := walked + brandLinks;
  }

  /** One letter bucket, page after page until a page fails or lists nothing new. */
  method WalkBucket(web: Web, base: String, ghost listing: (String, nat) -> Option<seq<String>>,
                    ghost bound: set<String>, tokens: seq<String>,
                    visitedBrands: set<String>, ghost walked: seq<String>, out: seq<String>)
    returns (visitedBrands': set<String>, ghost walked': seq<String>, out': seq<String>)
    requires JoinsAbsolute(web) && IsAbsolute(base)
    requires listing == IndexListing(web, base) && bound == AllBrands(web, base)
    requires ListsWithin(listing, bound) && tokens != []
    requires out == WalkProducts(web, base, walked)
    ensures out' == WalkProducts(web, base, walked')
    ensures walked' + IndexWalk(listing, bound, tokens[1..], 1, visitedBrands')
      == walked + IndexWalk(listing, bound, tokens, 1, visitedBrands)
  {
    visitedBrands', walked', out' := visitedBrands, walked, out;
    var page: nat := 1;
    while true
      invariant out' == WalkProducts(web, base, walked')
      invariant walked' + IndexWalk(listing, bound, tokens, page, visitedBrands')
        == walked + IndexWalk(listing, bound, tokens, 1, visitedBrands)
      decreases |bound - visitedBrands'|
    {
      var done;
      done, visitedBrands', walked', out' := IndexPage(web, base, listing, bound, tokens, page, visitedBrands', walked', out');
      if done {
        return;
      }
      page := page + 1;
    }
  }

  /** `_discover_from_brands`: every letter bucket, page after page, each new brand walked once. */
  method DiscoverFromBrands(web: Web, base: String) returns (out: seq<String>)
    requires JoinsAbsolute(web) && IsAbsolute(base)
    ensures out == BrandUrls(web, base)
  {
    ListingBounded(web, base);
    out := WalkBuckets(web, base, IndexListing(web, base), AllBrands(web, base), LetterTokens);
  }

  /** The buckets of `tokens` in turn, with one set of walked brands across all of them. */
  method WalkBuckets(web: Web, base: String, ghost listing: (String, nat) -> Option<seq<String>>,
                     ghost bound: set<String>, tokens: seq<String>) returns (out: seq<String>)
    requires JoinsAbsolute(web) && IsAbsolute(base)
    requires listing == IndexListing(web, base) && bound == AllBrands(web, base)
    requires ListsWithin(listing, bound)
    ensures out == WalkProducts(web, base, IndexWalk(listing, bound, tokens, 1, {}))
  {
    var visitedBrands: set<String> := {};
    ghost var walked: seq<String> := [];
    out := [];
    for t := 0 to |tokens|
      invariant walked + IndexWalk(listing, bound, tokens[t..], 1, visitedBrands) == IndexWalk(listing, bound, tokens, 1, {})
      invariant out == WalkProducts(web, base, walked)
    {
      assert tokens[t..][1..] == tokens[t + 1..];
      visitedBrands, walked, out := WalkBucket(web, base, listing, bound, tokens[t..], visitedBrands, walked, out);
    }
    assert walked + [] == walked;
  }

  // ---------------------------------------------------------------------
  // _discover_from_sitemaps

  /** The `<loc>`s of a product sitemap that name a product page. */
  function ProductLocs(locs: seq<String>): (r: seq<String>)
    ensures forall x :: x in r <==> x in locs && x != "" && Contains(x, "/products/")
  {
    if locs == [] then []
    else
      var x := locs[|locs| - 1];
      ProductLocs(locs[..|locs| - 1]) + (if x != "" && Contains(x, "/products/") then [x] else [])
  }

  /** The `<loc>` texts of the XML at `pathOrUrl`: `None` when it cannot be fetched or parsed. */
  function SitemapLocs(web: Web, base: String, pathOrUrl: String): (r: Option<seq<String>>)
    ensures Fetch(web, base, pathOrUrl).None? ==> r.None?
  {
    match Fetch(web, base, pathOrUrl)
    case None => None
    case Some(xml) => web.locs(xml)
  }

  /** A sitemap the walk reads: a non-empty URL that mentions "product" in any case. */
  predicate ProductSitemap(sitemap: String) {
    sitemap != "" && Contains(Lower(sitemap), "product")
  }

  /**
   * What one entry of the sitemap index yields: nothing unless it is a
   * product sitemap that can be fetched and parsed, and then exactly its
   * non-empty `<loc>`s that contain "/products/".
   */
  function SitemapProducts(web: Web, base: String, sitemap: String): (r: seq<String>)
    ensures !ProductSitemap(sitemap) || SitemapLocs(web, base, sitemap).None? ==> r == []
    ensures ProductSitemap(sitemap) && SitemapLocs(web, base, sitemap).Some? ==>
      forall x :: x in r <==> x in SitemapLocs(web, base, sitemap).value && x != "" && Contains(x, "/products/")
  {
    if !ProductSitemap(sitemap) then []
    else
      match SitemapLocs(web, base, sitemap)
      case None => []
      case Some(locs) => ProductLocs(locs)
  }

  /** The entries of the sitemap index in turn: every URL each of them yields, and nothing else. */
  function FromSitemaps(web: Web, base: String, sitemaps: seq<String>): (r: seq<String>)
    ensures forall x :: x in r <==> exists s :: s in sitemaps && x in SitemapProducts(web, base, s)
  {
    if sitemaps == [] then []
    else
      var init := sitemaps[..|sitemaps| - 1];
      var last := sitemaps[|sitemaps| - 1];
      assert forall s :: s in sitemaps <==> s in init || s == last by {
        assert sitemaps == init + [last];
      }
      FromSitemaps(web, base, init) + SitemapProducts(web, base, last)
  }

  /**
   * `_discover_from_sitemaps`: nothing when `/sitemap.xml` cannot be fetched
   * or parsed, otherwise what its entries yield.
   */
  function SitemapUrls(web: Web, base: String): (r: seq<String>)
    ensures SitemapLocs(web, base, "/sitemap.xml").None? ==> r == []
    ensures SitemapLocs(web, base, "/sitemap.xml").Some? ==>
      forall x :: x in r <==> exists s :: s in SitemapLocs(web, base, "/sitemap.xml").value && x in SitemapProducts(web, base, s)
    ensures forall x :: x in r ==> Contains(x, "/products/")
  {
    match SitemapLocs(web, base, "/sitemap.xml")
    case None => []
    case Some(sitemaps) => FromSitemaps(web, base, sitemaps)
  }

  // ---------------------------------------------------------------------
  // discover_product_urls

  predicate UsesSitemap(strategy: String) {
    strategy == "auto" || strategy == "sitemap"
  }

  predicate UsesBrands(strategy: String) {
    strategy == "auto" || strategy == "brands"
  }

  /** The strategies' streams, sitemap first, before the merge. */
  function Streams(web: Web, base: String, strategy: String): seq<seq<String>> {
    (if UsesSitemap(strategy) then [SitemapUrls(web, base)] else [])
    + (if UsesBrands(strategy) then [BrandUrls(web, base)] else [])
  }

  /** What `discover_product_urls(strategy)` yields. */
  function Discovered(web: Web, base: String, strategy: String): seq<String> {
    Dedup(Concat(Streams(web, base, strategy)))
  }

  /** `discover_product_urls`: the streams in turn, each URL emitted once. */
  method DiscoverProductUrls(web: Web, base: String, strategy: String) returns (out: seq<String>)
    requires JoinsAbsolute(web) && IsAbsolute(base)
    ensures out == Discovered(web, base, strategy)
  {
    var strategies: seq<seq<String>> := [];
    if UsesSitemap(strategy) {
      strategies := strategies + [SitemapUrls(web, base)];
    }
    if UsesBrands(strategy) {
      var brands := DiscoverFromBrands(web, base);
      strategies := strategies + [brands];
    }
    out := Emit(strategies);
  }

  /**
   * Whatever the strategy, no URL is emitted twice, every URL of a stream is
   * emitted, and URLs come out in the order of their first occurrence.
   */
  lemma DiscoveredLaw(web: Web, base: String, strategy: String)
    ensures var all := Concat(Streams(web, base, strategy)); var r := Discovered(web, base, strategy);
      && NoDup(r)
      && (forall x :: x in r <==> x in all)
      && (forall i, j :: 0 <= i < j < |r| ==> FirstIndex(all, r[i]) < FirstIndex(all, r[j]))
  {
    DedupFirstSeenOrder(Concat(Streams(web, base, strategy)));
  }

  /**
   * Under `auto` the distinct sitemap URLs come first, and every URL only
   * the brand walk found comes after all of them.
   */
  lemma AutoSitemapFirst(web: Web, base: String)
    ensures var s := SitemapUrls(web, base); var b := BrandUrls(web, base); var r := Discovered(web, base, "auto");
      && r == Dedup(s) + NewOf(s, b)
      && (forall i, j :: 0 <= i < |r| && 0 <= j < |r| && r[i] in s && r[j] !in s ==> i < j)
      && (forall x :: x in r <==> x in s || x in b)
  {
    assert Streams(web, base, "auto") == [SitemapUrls(web, base), BrandUrls(web, base)];
    MergeOrder(SitemapUrls(web, base), BrandUrls(web, base));
  }
}
