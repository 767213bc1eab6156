/**
 * `IncidecoderScraper.scrape`: the discovered product URLs in turn, each
 * fetched, parsed and saved, until the limit is reached. Products already
 * stored are skipped under `resume`; a page that cannot be fetched is
 * skipped; a failure to save ends the run.
 */
module Coordinator {
  import opened Options
  import opened Text
  import opened Ordering
  import opened Http
  import opened Ingredients
  import opened Products
  import opened Parser
  import opened Discovery
  import opened Storage

  /** `fetch_product`: the page parsed into a product under its own URL; `None` where `fetch` raises. */
  method FetchProduct(web: Web, base: String, url: String, lib: Library) returns (r: Option<Product>)
    ensures r.Some? <==> Fetch(web, base, url).Some?
    ensures r.Some? ==> r.value.url == url
    ensures r.Some? ==> Parsed(RStripChar(base, '/'), web.tokenize(Fetch(web, base, url).value), url, lib, r.value)
    ensures r.Some? ==> UrlsDistinct(r.value.ingredients) && BlankUrlNamesDistinct(r.value.ingredients)
  {
    var html := Fetch(web, base, url);
    if html.None? {
      return None;
    }
    var parser := new ProductHtmlParser(base);
    var product := parser.Parse(web.tokenize(html.value), url, lib);
    return Some(product);
  }

  /** The most products a run may store: `limit`, and none for a limit below one. */
  function Quota(limit: int): nat {
    if limit < 0 then 0 else limit
  }

  /**
   * `scrape` over the site root `base.rstrip("/")`, as the scraper's
   * constructor strips it once. The source returns nothing; `r` is its
   * internal `count` of stored products, which only checks the limit, or
   * the error of the `save_product` call that failed. `saved` lists the
   * URLs it saved, in order: each once, each discovered, fetched and,
   * under `resume`, not stored before, and no more than `limit` of them;
   * the count is their number. No product stops being stored and only the
   * saved ones start being; a run that neither fails nor reaches its limit
   * leaves every discovered URL whose page can be fetched stored.
   */
  method Scrape(web: Web, base: String, store: DataStore, limit: Option<int>, strategy: String, resume: bool, lib: Library)
    returns (r: Result<nat, String>, ghost saved: seq<String>)
    requires JoinsAbsolute(web) && IsAbsolute(RStripChar(base, '/')) && store.Valid()
    modifies store
    ensures store.Valid() && store.brands == old(store.brands)
    ensures limit.Some? ==> |saved| <= Quota(limit.value)
    ensures r.Ok? ==> r.value == |saved|
    ensures NoDup(saved)
    ensures forall u :: u in saved ==>
      u in Discovered(web, RStripChar(base, '/'), strategy) && Fetch(web, RStripChar(base, '/'), u).Some?
      && store.HasProduct(u) && (resume ==> !old(store.HasProduct(u)))
    ensures forall u :: old(store.HasProduct(u)) ==> store.HasProduct(u)
    ensures forall u :: store.HasProduct(u) ==> old(store.HasProduct(u)) || u in saved
    ensures r.Ok? && (limit.None? || r.value < limit.value) ==>
      forall u :: u in Discovered(web, RStripChar(base, '/'), strategy) && Fetch(web, RStripChar(base, '/'), u).Some?
        ==> store.HasProduct(u)
  {
    var site := RStripChar(base, '/');
    var urls := DiscoverProductUrls(web, site, strategy);
    DiscoveredLaw(web, site, strategy);
    r, saved := ScrapeUrls(web, site, store, urls, limit, resume, lib);
  }

  /** The loop of `scrape` over the discovered URLs `urls`. */
  method ScrapeUrls(web: Web, base: String, store: DataStore, urls: seq<String>, limit: Option<int>, resume: bool,
                    lib: Library)
    returns (r: Result<nat, String>, ghost saved: seq<String>)
    requires store.Valid()
    modifies store
    ensures store.Valid() && store.brands == old(store.brands)
    ensures limit.Some? ==> |saved| <= Quota(limit.value)
    ensures r.Ok? ==> r.value == |saved|
    ensures resume || NoDup(urls) ==> NoDup(saved)
    ensures SavedFrom(web, base, old(store.products), store.products, urls, saved, resume)
    ensures Kept(old(store.products), store.products) && NewAreSaved(old(store.products), store.products, saved)
    ensures r.Ok? && (limit.None? || r.value < limit.value) ==> Covers(web, base, store.products, urls)
  {
    ghost var before := store.products;
    var count: nat := 0;
    saved := [];
    var failed: Option<String> := None;
    var i := 0;
    while i < |urls| && (limit.None? || count < limit.value)
      invariant i <= |urls| && count == |saved|
      invariant store.Valid() && store.brands == old(store.brands)
      invariant limit.Some? ==> count <= Quota(limit.value)
      invariant Kept(before, store.products) && NewAreSaved(before, store.products, saved)
      invariant SavedFrom(web, base, before, store.products, urls[..i], saved, resume)
      invariant resume || NoDup(urls) ==> NoDup(saved)
      invariant limit.None? || count < limit.value ==> Covers(web, base, store.products, urls[..i])
    {
      var stored, failure := ScrapeAt(web, base, store, urls, i, resume, lib, before, saved);
      if failure.Some? {
        failed := failure;
        break;
      }
      if stored {
        count := count + 1;
        saved := saved + [urls[i]];
      }
      i := i + 1;
    }
    RunEnds(web, base, before, store.products, urls, i, saved, resume);
    if failed.Some? {
      return Err(failed.value), saved;
    }
    if limit.None? || count < limit.value {
      CoversAll(web, base, store.products, urls);
    }
    return Ok(count), saved;
  }

  /** One turn of the loop of `scrape`: `urls[i]` scraped, and the loop's account of the run carried one URL further. */
  method ScrapeAt(web: Web, base: String, store: DataStore, urls: seq<String>, i: nat, resume: bool, lib: Library,
                  ghost before: seq<ProductRow>, ghost saved: seq<String>)
    returns (stored: bool, failure: Option<String>)
    requires i < |urls| && store.Valid()
    requires Kept(before, store.products) && NewAreSaved(before, store.products, saved)
    requires SavedFrom(web, base, before, store.products, urls[..i], saved, resume)
    requires resume || NoDup(urls) ==> NoDup(saved)
    modifies store
    ensures store.Valid() && store.brands == old(store.brands)
    ensures failure.Some? ==> !stored && store.products == old(store.products)
    ensures failure.None? ==> var saved' := if stored then saved + [urls[i]] else saved;
      && Kept(before, store.products) && NewAreSaved(before, store.products, saved')
      && SavedFrom(web, base, before, store.products, urls[..i + 1], saved', resume)
      && (resume || NoDup(urls) ==> NoDup(saved'))
    ensures failure.None? && Covers(web, base, old(store.products), urls[..i]) ==>
      Covers(web, base, store.products, urls[..i + 1])
  {
    ghost var mid := store.products;
    stored, failure := ScrapeOne(web, base, store, urls[i], resume, lib);
    if failure.None? {
      ScrapeStep(web, base, before, mid, store.products, urls, i, saved, resume, stored);
    }
  }

  /** Every URL stored in `before` is still stored in `now`. */
  ghost predicate Kept(before: seq<ProductRow>, now: seq<ProductRow>) {
    forall u :: Scraped(before, u) ==> Scraped(now, u)
  }

  /** Every URL stored in `now` but not in `before` is one of `saved`. */
  ghost predicate NewAreSaved(before: seq<ProductRow>, now: seq<ProductRow>, saved: seq<String>) {
    forall u :: Scraped(now, u) ==> Scraped(before, u) || u in saved
  }

  /**
   * Each of `saved` is one of `urls` whose page can be fetched, is stored
   * in `now` and, under `resume`, was not stored in `before`.
   */
  ghost predicate SavedFrom(web: Web, base: String, before: seq<ProductRow>, now: seq<ProductRow>, urls: seq<String>,
                            saved: seq<String>, resume: bool) {
    forall u :: u in saved ==> u in urls && Fetch(web, base, u).Some? && Scraped(now, u) && (resume ==> !Scraped(before, u))
  }

  /** Every one of `urls` whose page can be fetched is stored in `now`. */
  ghost predicate Covers(web: Web, base: String, now: seq<ProductRow>, urls: seq<String>) {
    forall u :: u in urls && Fetch(web, base, u).Some? ==> Scraped(now, u)
  }

  /** Where the run stops after `i` URLs, the saved URLs are among the whole list. */
  lemma RunEnds(web: Web, base: String, before: seq<ProductRow>, now: seq<ProductRow>, urls: seq<String>, i: nat,
                saved: seq<String>, resume: bool)
    requires i <= |urls|
    requires SavedFrom(web, base, before, now, urls[..i], saved, resume)
    ensures SavedFrom(web, base, before, now, urls, saved, resume)
  {
    forall u | u in saved
      ensures u in urls
    {
      var k :| 0 <= k < i && urls[..i][k] == u;
      assert urls[k] == u;
    }
  }

  /** Covering the whole list is the third account, stated of each URL. */
  lemma CoversAll(web: Web, base: String, now: seq<ProductRow>, urls: seq<String>)
    requires Covers(web, base, now, urls[..|urls|])
    ensures Covers(web, base, now, urls)
  {
    assert urls[..|urls|] == urls;
  }

  /**
   * One URL more keeps the loop's account of the run: nothing stored is
   * lost, only the saved URLs are added, the URL just walked is saved
   * exactly when `stored` says so, and it is stored when its page could be
   * fetched.
   */
  lemma ScrapeStep(web: Web, base: String, before: seq<ProductRow>, mid: seq<ProductRow>, after: seq<ProductRow>,
                   urls: seq<String>, i: nat, saved: seq<String>, resume: bool, stored: bool)
    requires i < |urls|
    requires Kept(before, mid) && NewAreSaved(before, mid, saved)
    requires SavedFrom(web, base, before, mid, urls[..i], saved, resume)
    requires resume || NoDup(urls) ==> NoDup(saved)
    requires forall u :: Scraped(after, u) <==> Scraped(mid, u) || (stored && u == urls[i])
    requires stored ==> Fetch(web, base, urls[i]).Some? && !(resume && Scraped(mid, urls[i]))
    requires Fetch(web, base, urls[i]).Some? ==> Scraped(after, urls[i])
    ensures var saved' := if stored then saved + [urls[i]] else saved;
      && Kept(before, after) && NewAreSaved(before, after, saved')
      && SavedFrom(web, base, before, after, urls[..i + 1], saved', resume)
      && (resume || NoDup(urls) ==> NoDup(saved'))
    ensures Covers(web, base, mid, urls[..i]) ==> Covers(web, base, after, urls[..i + 1])
  {
    assert urls[..i + 1] == urls[..i] + [urls[i]];
    KeptStep(before, mid, after, saved, urls[i], stored);
    SavedStep(web, base, before, mid, after, urls[..i], urls[i], saved, resume, stored);
    if stored && (resume || NoDup(urls)) {
      FreshStep(before, mid, urls, i, saved, resume);
      NoDupSnoc(saved, urls[i]);
    }
  }

  /** The stored URLs after one more: the old ones, and the new one only when it was saved. */
  lemma KeptStep(before: seq<ProductRow>, mid: seq<ProductRow>, after: seq<ProductRow>, saved: seq<String>, x: String,
                 stored: bool)
    requires Kept(before, mid) && NewAreSaved(before, mid, saved)
    requires forall u :: Scraped(after, u) <==> Scraped(mid, u) || (stored && u == x)
    ensures Kept(before, after) && NewAreSaved(before, after, if stored then saved + [x] else saved)
  {
  }

  /** The saved URLs after one more are still among the URLs walked, fetched, stored and new under `resume`. */
  lemma SavedStep(web: Web, base: String, before: seq<ProductRow>, mid: seq<ProductRow>, after: seq<ProductRow>,
                  walked: seq<String>, x: String, saved: seq<String>, resume: bool, stored: bool)
    requires Kept(before, mid)
    requires SavedFrom(web, base, before, mid, walked, saved, resume)
    requires forall u :: Scraped(after, u) <==> Scraped(mid, u) || (stored && u == x)
    requires stored ==> Fetch(web, base, x).Some? && !(resume && Scraped(mid, x))
    ensures SavedFrom(web, base, before, after, walked + [x], if stored then saved + [x] else saved, resume)
  {
  }

  /** A URL saved at step `i` is not among those saved before it. */
  lemma FreshStep(before: seq<ProductRow>, mid: seq<ProductRow>, urls: seq<String>, i: nat, saved: seq<String>,
                  resume: bool)
    requires i < |urls| && (resume || NoDup(urls))
    requires forall u :: u in saved ==> u in urls[..i] && Scraped(mid, u)
    requires resume ==> !Scraped(mid, urls[i])
    ensures urls[i] !in saved
  {
    forall u | u in saved
      ensures u != urls[i]
    {
      if !resume {
        var k :| 0 <= k < i && urls[..i][k] == u;
        assert urls[k] == u;
      }
    }
  }

  /** Appending an element not yet present keeps a list free of repeats. */
  lemma NoDupSnoc(s: seq<String>, x: String)
    requires NoDup(s) && x !in s
    ensures NoDup(s + [x])
  {
  }

  /**
   * One URL of the run: skipped when stored already under `resume` or when
   * its page cannot be fetched, otherwise fetched, parsed and saved.
   * `stored` says whether it was saved, which happens exactly when it is
   * not skipped and the save succeeds; `failure` carries the error of a
   * save that failed. Nothing changes unless it was saved, and then the
   * product saved is the one its page parses to.
   */
  method ScrapeOne(web: Web, base: String, store: DataStore, productUrl: String, resume: bool, lib: Library)
    returns (stored: bool, failure: Option<String>)
    requires store.Valid()
    modifies store
    ensures store.Valid() && store.brands == old(store.brands)
    ensures stored <==> failure.None? && !(resume && Scraped(old(store.products), productUrl))
                        && Fetch(web, base, productUrl).Some?
    ensures failure.Some? ==> !(resume && Scraped(old(store.products), productUrl)) && Fetch(web, base, productUrl).Some?
    ensures !stored ==> store.products == old(store.products) && store.ingredientRows == old(store.ingredientRows)
    ensures stored ==> exists p: Product ::
      && Parsed(RStripChar(base, '/'), web.tokenize(Fetch(web, base, productUrl).value), productUrl, lib, p)
      && store.products == SavedProducts(old(store.products), p)
      && store.ingredientRows == Unlinked(old(store.ingredientRows), SavedId(old(store.products), productUrl))
                                 + LinkRows(SavedId(old(store.products), productUrl), p.ingredients)
    ensures forall u :: Scraped(store.products, u) <==> Scraped(old(store.products), u) || (stored && u == productUrl)
    ensures failure.None? && Fetch(web, base, productUrl).Some? ==> Scraped(store.products, productUrl)
  {
    if resume && store.HasProduct(productUrl) {
      return false, None;
    }
    var product := FetchProduct(web, base, productUrl, lib);
    if product.None? {
      return false, None;
    }
    var saved := store.SaveProduct(product.value);
    if saved.Err? {
      return false, Some(saved.error);
    }
    forall u ensures Scraped(store.products, u) <==> Scraped(old(store.products), u) || u == productUrl {
      SavedScraped(old(store.products), product.value, u);
    }
    return true, None;
  }
}
