/**
 * `DataStore`: the `brands`, `products` and `product_ingredients` tables and
 * the statements the scraper runs against them.
 *
 * A table is a sequence of rows in insertion order. Rows of `brands` and
 * `products` are never deleted, so a row's `id` (`AUTOINCREMENT` /
 * `GENERATED ALWAYS AS IDENTITY`) is its position plus one. A timestamp
 * column is a flag: set or `NULL`. The `UNIQUE` and `PRIMARY KEY`
 * constraints are the class invariant `Valid`.
 */
module Storage {
  import opened Options
  import opened Text
  import opened Json
  import opened Ingredients
  import opened Products

  /** A row of `brands`; `processed` stands for a non-null `processed_at`. */
  datatype BrandRow = BrandRow(name: String, url: String, processed: bool)

  /** A row of `products`; `scraped` stands for a non-null `scraped_at`. */
  datatype ProductRow = ProductRow(
    brandId: Option<int>,
    url: String,
    name: Option<String>,
    brandName: Option<String>,
    description: Option<String>,
    imageUrl: Option<String>,
    ratingValue: Option<real>,
    ratingCount: Option<int>,
    categories: Option<seq<String>>,
    jsonLd: Option<Json>,
    scraped: bool)

  /** A row of `product_ingredients`; `extra` is `NULL` or a JSON object. */
  datatype IngredientRow = IngredientRow(productId: int, url: String, name: String, extra: Option<Extra>)

  /** Python truthiness of an optional string. */
  predicate Filled(o: Option<String>) {
    o.Some? && o.value != []
  }

  /** SQL `COALESCE(a, b)`. */
  function Coalesce<T>(a: Option<T>, b: Option<T>): Option<T> {
    if a.Some? then a else b
  }

  // ---------------------------------------------------------------------
  // brands

  /** The uniqueness constraint on `brands.url`. */
  ghost predicate BrandUrlsUnique(rows: seq<BrandRow>) {
    forall i, j :: 0 <= i < j < |rows| ==> rows[i].url != rows[j].url
  }

  /** The position of the brand row holding `url`, if any: the lookup by URL. */
  function FindBrand(rows: seq<BrandRow>, url: String): (r: Option<nat>)
    ensures r.Some? ==> r.value < |rows| && rows[r.value].url == url
    ensures r.None? <==> forall i :: 0 <= i < |rows| ==> rows[i].url != url
  {
    if rows == [] then None
    else if rows[|rows| - 1].url == url then Some(|rows| - 1)
    else FindBrand(rows[..|rows| - 1], url)
  }

  /** With unique URLs, the lookup finds the one row holding the URL. */
  lemma FindBrandUnique(rows: seq<BrandRow>, j: nat)
    requires BrandUrlsUnique(rows) && j < |rows|
    ensures FindBrand(rows, rows[j].url) == Some(j)
  {
  }

  /**
   * One `(name, url)` pair of `add_brands`: a known URL is renamed when the
   * pair carries a non-empty, different name; an unknown URL is inserted as
   * a pending brand.
   */
  function AddBrand(rows: seq<BrandRow>, entry: (String, String)): seq<BrandRow> {
    match FindBrand(rows, entry.1)
    case Some(i) => if entry.0 != [] && rows[i].name != entry.0 then rows[i := rows[i].(name := entry.0)] else rows
    case None => rows + [BrandRow(entry.0, entry.1, false)]
  }

  /** The `brands` table after `add_brands(batch)`. */
  function BrandsAfter(rows: seq<BrandRow>, batch: seq<(String, String)>): seq<BrandRow> {
    if batch == [] then rows
    else AddBrand(BrandsAfter(rows, batch[..|batch| - 1]), batch[|batch| - 1])
  }

  /** The URLs of the brand rows. */
  ghost function BrandUrlSet(rows: seq<BrandRow>): set<String> {
    set i | 0 <= i < |rows| :: rows[i].url
  }

  /** The URLs of an `add_brands` batch. */
  ghost function BatchUrls(batch: seq<(String, String)>): set<String> {
    set k | 0 <= k < |batch| :: batch[k].1
  }

  /**
   * Existing brands keep their position (their id), URL and processing
   * state; brands added after them are pending.
   */
  ghost predicate BrandsGrow(before: seq<BrandRow>, after: seq<BrandRow>) {
    && |before| <= |after|
    && (forall i :: 0 <= i < |before| ==> after[i].url == before[i].url && after[i].processed == before[i].processed)
    && (forall i :: |before| <= i < |after| ==> !after[i].processed)
  }

  lemma AddBrandFacts(rows: seq<BrandRow>, entry: (String, String))
    requires BrandUrlsUnique(rows)
    ensures BrandUrlsUnique(AddBrand(rows, entry))
    ensures BrandsGrow(rows, AddBrand(rows, entry))
    ensures BrandUrlSet(AddBrand(rows, entry)) == BrandUrlSet(rows) + {entry.1}
    ensures forall i :: 0 <= i < |rows| && rows[i].url != entry.1 ==> AddBrand(rows, entry)[i] == rows[i]
    ensures forall i :: 0 <= i < |rows| && rows[i].url == entry.1 ==>
      AddBrand(rows, entry)[i] == rows[i].(name := if entry.0 != [] then entry.0 else rows[i].name)
    ensures entry.1 !in BrandUrlSet(rows) ==> AddBrand(rows, entry) == rows + [BrandRow(entry.0, entry.1, false)]
  {
    var r := AddBrand(rows, entry);
    match FindBrand(rows, entry.1)
    case Some(i) =>
      assert |r| == |rows| && forall k :: 0 <= k < |r| ==> r[k].url == rows[k].url;
      assert BrandUrlSet(r) == BrandUrlSet(rows);
      assert entry.1 in BrandUrlSet(rows);

    case None =>
      assert r == rows + [BrandRow(entry.0, entry.1, false)];
      forall u
        ensures u in BrandUrlSet(r) <==> u in BrandUrlSet(rows) + {entry.1}
      {
        if u in BrandUrlSet(r) {
          var i :| 0 <= i < |r| && r[i].url == u;
          if i < |rows| {
            assert rows[i].url == u;
          }
        }
        if u in BrandUrlSet(rows) {
          var i :| 0 <= i < |rows| && rows[i].url == u;
          assert r[i].url == u;
        }
        if u == entry.1 {
          assert r[|rows|].url == u;
        }
      }
  }

  /**
   * `add_brands` keeps brand URLs unique, never moves or un-processes an
   * existing brand, and afterwards holds exactly the URLs it held before and
   * those of the batch.
   */
  lemma {:induction false} BrandsAfterLaw(rows: seq<BrandRow>, batch: seq<(String, String)>)
    requires BrandUrlsUnique(rows)
    ensures BrandUrlsUnique(BrandsAfter(rows, batch))
    ensures BrandsGrow(rows, BrandsAfter(rows, batch))
    ensures BrandUrlSet(BrandsAfter(rows, batch)) == BrandUrlSet(rows) + BatchUrls(batch)
  {
    if batch != [] {
      var init := batch[..|batch| - 1];
      var mid := BrandsAfter(rows, init);
      BrandsAfterLaw(rows, init);
      AddBrandFacts(mid, batch[|batch| - 1]);
      BrandsGrowTrans(rows, mid, AddBrand(mid, batch[|batch| - 1]));
      BatchUrlsSnoc(batch);
    }
  }

  lemma BrandsGrowTrans(a: seq<BrandRow>, b: seq<BrandRow>, c: seq<BrandRow>)
    requires BrandsGrow(a, b) && BrandsGrow(b, c)
    ensures BrandsGrow(a, c)
  {
  }

  lemma BatchUrlsSnoc(batch: seq<(String, String)>)
    requires batch != []
    ensures BatchUrls(batch) == BatchUrls(batch[..|batch| - 1]) + {batch[|batch| - 1].1}
  {
    var init := batch[..|batch| - 1];
    assert forall k :: 0 <= k < |init| ==> init[k] == batch[k];
  }

  /** Brand rows with unique URLs are as many as their URLs. */
  lemma {:induction false} BrandUrlCount(rows: seq<BrandRow>)
    requires BrandUrlsUnique(rows)
    ensures |BrandUrlSet(rows)| == |rows|
  {
    if rows != [] {
      var init := rows[..|rows| - 1];
      BrandUrlCount(init);
      assert BrandUrlSet(rows) == BrandUrlSet(init) + {rows[|rows| - 1].url};
      assert rows[|rows| - 1].url !in BrandUrlSet(init);
    }
  }

  /** What `add_brands` returns: the number of batch URLs the table did not hold yet. */
  lemma BrandsAfterCount(rows: seq<BrandRow>, batch: seq<(String, String)>)
    requires BrandUrlsUnique(rows)
    ensures |BrandsAfter(rows, batch)| - |rows| == |BatchUrls(batch) - BrandUrlSet(rows)|
  {
    var after := BrandsAfter(rows, batch);
    BrandsAfterLaw(rows, batch);
    BrandUrlCount(rows);
    BrandUrlCount(after);
    var added := BatchUrls(batch) - BrandUrlSet(rows);
    assert BrandUrlSet(after) == BrandUrlSet(rows) + added;
    assert BrandUrlSet(rows) * added == {};
  }

  /**
   * The last non-empty name a batch gives for a URL is that brand's name
   * afterwards.
   */
  lemma {:induction false} BrandsAfterNamed(rows: seq<BrandRow>, batch: seq<(String, String)>, k: nat)
    requires BrandUrlsUnique(rows) && k < |batch| && batch[k].0 != []
    requires forall j :: k < j < |batch| && batch[j].1 == batch[k].1 ==> batch[j].0 == []
    ensures var after := BrandsAfter(rows, batch);
      FindBrand(after, batch[k].1).Some? && after[FindBrand(after, batch[k].1).value].name == batch[k].0
  {
    var init := batch[..|batch| - 1];
    var mid := BrandsAfter(rows, init);
    var last := batch[|batch| - 1];
    BrandsAfterLaw(rows, init);
    AddBrandFacts(mid, last);
    var after := AddBrand(mid, last);
    assert after == BrandsAfter(rows, batch);
    if k == |batch| - 1 {
      match FindBrand(mid, last.1)
      case Some(i) =>
        FindBrandUnique(after, i);
      case None =>
        FindBrandUnique(after, |mid|);
    } else {
      BrandsAfterNamed(rows, init, k);
      var j := FindBrand(mid, batch[k].1).value;
      assert after[j].name == batch[k].0 by {
        match FindBrand(mid, last.1)
        case Some(i) =>
          if last.1 == batch[k].1 {
            assert last.0 == [];
          } else {
            assert i != j;
          }
        case None =>
      }
      FindBrandUnique(after, j);
    }
  }

  /** The unprocessed brands as (id, name, url), in id order. */
  function Pending(rows: seq<BrandRow>): seq<(int, String, String)> {
    if rows == [] then []
    else
      var n := |rows| - 1;
      Pending(rows[..n]) + (if rows[n].processed then [] else [(n + 1, rows[n].name, rows[n].url)])
  }

  /** The pending brands are exactly the unprocessed rows, in increasing id order. */
  lemma {:induction false} PendingLaw(rows: seq<BrandRow>)
    ensures forall e :: e in Pending(rows) ==> 1 <= e.0 <= |rows| && rows[e.0 - 1] == BrandRow(e.1, e.2, false)
    ensures forall i :: 0 <= i < |rows| && !rows[i].processed ==> (i + 1, rows[i].name, rows[i].url) in Pending(rows)
    ensures forall i, j :: 0 <= i < j < |Pending(rows)| ==> Pending(rows)[i].0 < Pending(rows)[j].0
  {
    if rows != [] {
      var n := |rows| - 1;
      var init := rows[..n];
      PendingLaw(init);
      var p := Pending(init);
      assert forall e :: e in p ==> e.0 <= n;
      assert forall i :: 0 <= i < n ==> init[i] == rows[i];
    }
  }

  /** Every brand marked unprocessed. */
  function ResetAll(rows: seq<BrandRow>): (r: seq<BrandRow>)
    ensures |r| == |rows|
    ensures forall i :: 0 <= i < |rows| ==> r[i] == rows[i].(processed := false)
  {
    if rows == [] then [] else ResetAll(rows[..|rows| - 1]) + [rows[|rows| - 1].(processed := false)]
  }

  /** After a reset every brand is pending again. */
  lemma ResetMakesAllPending(rows: seq<BrandRow>)
    ensures forall i :: 0 <= i < |rows| ==> (i + 1, rows[i].name, rows[i].url) in Pending(ResetAll(rows))
  {
    var r := ResetAll(rows);
    PendingLaw(r);
    assert forall i :: 0 <= i < |rows| ==> r[i].name == rows[i].name && r[i].url == rows[i].url && !r[i].processed;
  }

  /** The brand with the given id marked processed; an unknown id changes nothing. */
  function MarkProcessed(rows: seq<BrandRow>, id: int): seq<BrandRow> {
    if 1 <= id <= |rows| then rows[id - 1 := rows[id - 1].(processed := true)] else rows
  }

  /** Marking a brand processed drops it, and nothing else, from the pending brands. */
  lemma MarkLeavesPending(rows: seq<BrandRow>, id: int)
    ensures forall e :: e in Pending(MarkProcessed(rows, id)) <==> e in Pending(rows) && e.0 != id
  {
    var m := MarkProcessed(rows, id);
    PendingLaw(rows);
    PendingLaw(m);
    forall e | e in Pending(rows) && e.0 != id
      ensures e in Pending(m)
    {
      var i := e.0 - 1;
      assert m[i] == rows[i];
    }
    forall e | e in Pending(m)
      ensures e in Pending(rows) && e.0 != id
    {
      var i := e.0 - 1;
      assert m[i] == BrandRow(e.1, e.2, false);
      assert rows[i] == m[i];
    }
  }

  /** `_get_brand_name`: the name of the brand with the given id, if there is one. */
  function BrandName(rows: seq<BrandRow>, id: int): (r: Option<String>)
    ensures r.None? <==> !(1 <= id <= |rows|)
    ensures r.Some? ==> exists i :: 0 <= i < |rows| && i + 1 == id && rows[i].name == r.value
  {
    if 1 <= id <= |rows| then Some(rows[id - 1].name) else None
  }

  // ---------------------------------------------------------------------
  // products

  /** The uniqueness constraint on `products.url`. */
  ghost predicate ProductUrlsUnique(rows: seq<ProductRow>) {
    forall i, j :: 0 <= i < j < |rows| ==> rows[i].url != rows[j].url
  }

  /** The position of the product row holding `url`, if any: the lookup by URL. */
  function FindProduct(rows: seq<ProductRow>, url: String): (r: Option<nat>)
    ensures r.Some? ==> r.value < |rows| && rows[r.value].url == url
    ensures r.None? <==> forall i :: 0 <= i < |rows| ==> rows[i].url != url
  {
    if rows == [] then None
    else if rows[|rows| - 1].url == url then Some(|rows| - 1)
    else FindProduct(rows[..|rows| - 1], url)
  }

  lemma FindProductUnique(rows: seq<ProductRow>, j: nat)
    requires ProductUrlsUnique(rows) && j < |rows|
    ensures FindProduct(rows, rows[j].url) == Some(j)
  {
  }

  /** `has_product`: a row with that URL has been scraped. */
  predicate Scraped(rows: seq<ProductRow>, url: String) {
    exists i :: 0 <= i < |rows| && rows[i].url == url && rows[i].scraped
  }

  /** A product row queued by `add_products_for_brand`. */
  function QueuedRow(brandId: int, brandName: Option<String>, url: String, name: Option<String>): ProductRow {
    ProductRow(Some(brandId), url, name, brandName, None, None, None, None, None, None, false)
  }

  /**
   * One `(url, name)` pair of `add_products_for_brand`: a known URL gets the
   * name if it had none, the brand's name if the brand has one, and the
   * brand id; a non-zero brand id alone is reason enough to update. An
   * unknown URL is inserted, unscraped.
   */
  function QueueProduct(rows: seq<ProductRow>, brandId: int, brandName: Option<String>, entry: (String, Option<String>)): seq<ProductRow> {
    match FindProduct(rows, entry.0)
    case Some(i) =>
      var r := rows[i];
      var updateName := if Filled(entry.1) && !Filled(r.name) then entry.1 else None;
      var updateBrand := if Filled(brandName) then brandName else None;
      if updateName.Some? || updateBrand.Some? || brandId != 0 then
        rows[i := r.(name := Coalesce(updateName, r.name), brandId := Some(brandId), brandName := Coalesce(updateBrand, r.brandName))]
      else rows
    case None => rows + [QueuedRow(brandId, brandName, entry.0, entry.1)]
  }

  /** The `products` table after `add_products_for_brand(brand_id, batch)`. */
  function ProductsAfter(rows: seq<ProductRow>, brandId: int, brandName: Option<String>, batch: seq<(String, Option<String>)>): seq<ProductRow> {
    if batch == [] then rows
    else QueueProduct(ProductsAfter(rows, brandId, brandName, batch[..|batch| - 1]), brandId, brandName, batch[|batch| - 1])
  }

  /**
   * Queueing only touches the name and the brand columns of a known
   * product, never replaces a name it already has, and adds unscraped rows
   * carrying the brand id.
   */
  ghost predicate ProductsGrow(before: seq<ProductRow>, after: seq<ProductRow>, brandId: int) {
    && |before| <= |after|
    && (forall i :: 0 <= i < |before| ==>
          && after[i].url == before[i].url
          && after[i].scraped == before[i].scraped
          && after[i].description == before[i].description
          && after[i].imageUrl == before[i].imageUrl
          && after[i].ratingValue == before[i].ratingValue
          && after[i].ratingCount == before[i].ratingCount
          && after[i].categories == before[i].categories
          && after[i].jsonLd == before[i].jsonLd
          && (after[i].brandId == before[i].brandId || after[i].brandId == Some(brandId))
          && (Filled(before[i].name) ==> after[i].name == before[i].name))
    && (forall i :: |before| <= i < |after| ==> !after[i].scraped && after[i].brandId == Some(brandId))
  }

  lemma ProductsGrowTrans(a: seq<ProductRow>, b: seq<ProductRow>, c: seq<ProductRow>, brandId: int)
    requires ProductsGrow(a, b, brandId) && ProductsGrow(b, c, brandId)
    ensures ProductsGrow(a, c, brandId)
  {
  }

  lemma QueueProductFacts(rows: seq<ProductRow>, brandId: int, brandName: Option<String>, entry: (String, Option<String>))
    requires ProductUrlsUnique(rows)
    ensures ProductUrlsUnique(QueueProduct(rows, brandId, brandName, entry))
    ensures ProductsGrow(rows, QueueProduct(rows, brandId, brandName, entry), brandId)
  {
    match FindProduct(rows, entry.0)
    case Some(i) =>
      var r := rows[i];
      var updateName := if Filled(entry.1) && !Filled(r.name) then entry.1 else None;
      var updateBrand := if Filled(brandName) then brandName else None;
      if updateName.Some? || updateBrand.Some? || brandId != 0 {
        RetagGrows(rows, i, r.(name := Coalesce(updateName, r.name), brandId := Some(brandId), brandName := Coalesce(updateBrand, r.brandName)), brandId);
      }
    case None =>
      QueuedGrows(rows, QueuedRow(brandId, brandName, entry.0, entry.1), brandId);
  }

  /** Rewriting a known row's name, brand id and brand name, keeping a filled name. */
  lemma RetagGrows(rows: seq<ProductRow>, i: nat, r: ProductRow, brandId: int)
    requires i < |rows| && r.brandId == Some(brandId)
    requires r == rows[i].(name := r.name, brandId := r.brandId, brandName := r.brandName)
    requires Filled(rows[i].name) ==> r.name == rows[i].name
    ensures ProductUrlsUnique(rows) ==> ProductUrlsUnique(rows[i := r])
    ensures ProductsGrow(rows, rows[i := r], brandId)
  {
  }

  /** Appending an unscraped row of the brand under a new URL. */
  lemma QueuedGrows(rows: seq<ProductRow>, r: ProductRow, brandId: int)
    requires !r.scraped && r.brandId == Some(brandId)
    requires forall i :: 0 <= i < |rows| ==> rows[i].url != r.url
    ensures ProductUrlsUnique(rows) ==> ProductUrlsUnique(rows + [r])
    ensures ProductsGrow(rows, rows + [r], brandId)
  {
  }

  /** `add_products_for_brand` keeps product URLs unique and only adds to the table. */
  lemma {:induction false} ProductsAfterLaw(rows: seq<ProductRow>, brandId: int, brandName: Option<String>, batch: seq<(String, Option<String>)>)
    requires ProductUrlsUnique(rows)
    ensures ProductUrlsUnique(ProductsAfter(rows, brandId, brandName, batch))
    ensures ProductsGrow(rows, ProductsAfter(rows, brandId, brandName, batch), brandId)
  {
    if batch != [] {
      var init := batch[..|batch| - 1];
      var mid := ProductsAfter(rows, brandId, brandName, init);
      ProductsAfterLaw(rows, brandId, brandName, init);
      QueueProductFacts(mid, brandId, brandName, batch[|batch| - 1]);
      ProductsGrowTrans(rows, mid, ProductsAfter(rows, brandId, brandName, batch), brandId);
    }
  }

  /** A queued URL is in the table afterwards, under the brand when its id is non-zero. */
  lemma QueueProductHolds(rows: seq<ProductRow>, brandId: int, brandName: Option<String>, entry: (String, Option<String>))
    requires ProductUrlsUnique(rows)
    ensures var after := QueueProduct(rows, brandId, brandName, entry);
      && FindProduct(after, entry.0).Some?
      && (brandId != 0 ==> after[FindProduct(after, entry.0).value].brandId == Some(brandId))
  {
    var after := QueueProduct(rows, brandId, brandName, entry);
    QueueProductFacts(rows, brandId, brandName, entry);
    match FindProduct(rows, entry.0)
    case Some(i) =>
      FindProductUnique(after, i);
    case None =>
      FindProductUnique(after, |rows|);
  }

  /**
   * Every URL of the batch is in the table after `add_products_for_brand`;
   * when the brand id is non-zero, each of them belongs to that brand.
   */
  lemma {:induction false} ProductsAfterHolds(rows: seq<ProductRow>, brandId: int, brandName: Option<String>, batch: seq<(String, Option<String>)>, k: nat)
    requires ProductUrlsUnique(rows) && k < |batch|
    ensures var after := ProductsAfter(rows, brandId, brandName, batch);
      && FindProduct(after, batch[k].0).Some?
      && (brandId != 0 ==> after[FindProduct(after, batch[k].0).value].brandId == Some(brandId))
  {
    var init := batch[..|batch| - 1];
    var mid := ProductsAfter(rows, brandId, brandName, init);
    var last := batch[|batch| - 1];
    ProductsAfterLaw(rows, brandId, brandName, init);
    if k == |batch| - 1 {
      QueueProductHolds(mid, brandId, brandName, last);
    } else {
      ProductsAfterHolds(rows, brandId, brandName, init, k);
      assert batch[k] == init[k];
      var after := QueueProduct(mid, brandId, brandName, last);
      QueueProductFacts(mid, brandId, brandName, last);
      var j := FindProduct(mid, batch[k].0).value;
      assert after[j].url == mid[j].url;
      FindProductUnique(after, j);
    }
  }

  /**
   * The products to scrape as (id, url, name, brand name): every row, or
   * under `resume` only the unscraped ones, oldest discovery first.
   */
  function ToScrape(rows: seq<ProductRow>, resume: bool): seq<(int, String, Option<String>, Option<String>)> {
    if rows == [] then []
    else
      var n := |rows| - 1;
      ToScrape(rows[..n], resume) + (if resume && rows[n].scraped then [] else [(n + 1, rows[n].url, rows[n].name, rows[n].brandName)])
  }

  /** Every queued entry is a product row (under `resume`, an unscraped one) with its id, URL, name and brand. */
  lemma {:induction false} ToScrapeSound(rows: seq<ProductRow>, resume: bool)
    ensures forall e :: e in ToScrape(rows, resume) ==>
      && 1 <= e.0 <= |rows|
      && rows[e.0 - 1].url == e.1 && rows[e.0 - 1].name == e.2 && rows[e.0 - 1].brandName == e.3
      && (resume ==> !rows[e.0 - 1].scraped)
  {
    if rows != [] {
      var n := |rows| - 1;
      var init := rows[..n];
      ToScrapeSound(init, resume);
      assert forall i :: 0 <= i < n ==> init[i] == rows[i];
    }
  }

  /** Every product, or under `resume` every product not yet scraped, is queued. */
  lemma {:induction false} ToScrapeComplete(rows: seq<ProductRow>, resume: bool)
    ensures forall i :: 0 <= i < |rows| && !(resume && rows[i].scraped) ==>
      (i + 1, rows[i].url, rows[i].name, rows[i].brandName) in ToScrape(rows, resume)
  {
    if rows != [] {
      var n := |rows| - 1;
      var init := rows[..n];
      ToScrapeComplete(init, resume);
      assert forall i :: 0 <= i < n ==> init[i] == rows[i];
    }
  }

  /** The queue is in increasing id order, so no product is queued twice. */
  lemma {:induction false} ToScrapeOrdered(rows: seq<ProductRow>, resume: bool)
    ensures forall i, j :: 0 <= i < j < |ToScrape(rows, resume)| ==> ToScrape(rows, resume)[i].0 < ToScrape(rows, resume)[j].0
  {
    if rows != [] {
      var n := |rows| - 1;
      var init := rows[..n];
      ToScrapeOrdered(init, resume);
      ToScrapeSound(init, resume);
      var p := ToScrape(init, resume);
      var t := if resume && rows[n].scraped then [] else [(n + 1, rows[n].url, rows[n].name, rows[n].brandName)];
      var q := ToScrape(rows, resume);
      assert q == p + t;
      forall i, j | 0 <= i < j < |q| ensures q[i].0 < q[j].0 {
        if j >= |p| {
          assert q[i] == p[i] && p[i] in p;
          assert q[j] == t[0];
          assert p[i].0 <= n;
        } else {
          assert q[i] == p[i] && q[j] == p[j];
          assert p[i].0 < p[j].0;
        }
      }
    }
  }

  /** Under `resume`, no product that `has_product` reports is queued for scraping. */
  lemma ResumeSkipsScraped(rows: seq<ProductRow>, url: String)
    requires ProductUrlsUnique(rows) && Scraped(rows, url)
    ensures forall e :: e in ToScrape(rows, true) ==> e.1 != url
  {
    ToScrapeSound(rows, true);
  }

  /** The product with the given id marked scraped; an unknown id changes nothing. */
  function MarkScraped(rows: seq<ProductRow>, id: int): seq<ProductRow> {
    if 1 <= id <= |rows| then rows[id - 1 := rows[id - 1].(scraped := true)] else rows
  }

  /** A product marked scraped is reported by `has_product`, and no scraped product stops being one. */
  lemma MarkScrapedLaw(rows: seq<ProductRow>, id: int, url: String)
    ensures 1 <= id <= |rows| ==> Scraped(MarkScraped(rows, id), rows[id - 1].url)
    ensures Scraped(rows, url) ==> Scraped(MarkScraped(rows, id), url)
  {
    var r := MarkScraped(rows, id);
    if 1 <= id <= |rows| {
      assert r[id - 1].url == rows[id - 1].url && r[id - 1].scraped;
    }
    if Scraped(rows, url) {
      var i :| 0 <= i < |rows| && rows[i].url == url && rows[i].scraped;
      assert r[i].url == url && r[i].scraped;
    }
  }

  // ---------------------------------------------------------------------
  // save_product

  /** The `json_ld` column: the serialized node, or NULL when there is none. */
  function StoredJson(o: Option<Json>): Option<Json> {
    if TruthyOpt(o) then o else None
  }

  /** The `extra` column: the serialized extras, or NULL when there are none. */
  function StoredExtra(e: Extra): Option<Extra> {
    if e == map[] then None else Some(e)
  }

  /** The extras read back from the `extra` column; NULL reads as no extras. */
  function LoadedExtra(o: Option<Extra>): Extra {
    o.GetOr(map[])
  }

  /**
   * The row `save_product` leaves for a product: an update of the row
   * already holding the URL (name and brand only where the product has
   * them), or a fresh row with every column.
   */
  function SavedRow(p: Product, prior: Option<ProductRow>): ProductRow {
    match prior
    case Some(r) =>
      r.(name := Coalesce(p.name, r.name), brandName := Coalesce(p.brand, r.brandName),
         description := p.description, imageUrl := p.imageUrl, ratingValue := p.ratingValue,
         ratingCount := p.ratingCount, categories := Some(p.categories), jsonLd := StoredJson(p.jsonLd),
         scraped := true)
    case None =>
      ProductRow(None, p.url, p.name, p.brand, p.description, p.imageUrl, p.ratingValue, p.ratingCount,
                 Some(p.categories), StoredJson(p.jsonLd), true)
  }

  /** The row already holding the product's URL, if any. */
  function Prior(rows: seq<ProductRow>, url: String): Option<ProductRow> {
    match FindProduct(rows, url)
    case Some(i) => Some(rows[i])
    case None => None
  }

  /** The id of the row `save_product` writes. */
  function SavedId(rows: seq<ProductRow>, url: String): int {
    match FindProduct(rows, url)
    case Some(i) => i + 1
    case None => |rows| + 1
  }

  /** The `products` table after `save_product(p)`. */
  function SavedProducts(rows: seq<ProductRow>, p: Product): seq<ProductRow> {
    match FindProduct(rows, p.url)
    case Some(i) => rows[i := SavedRow(p, Some(rows[i]))]
    case None => rows + [SavedRow(p, None)]
  }

  /** The primary key of `product_ingredients`: no two rows share product, ingredient URL and ingredient name. */
  ghost predicate IngredientKeysUnique(rows: seq<IngredientRow>) {
    forall i, j :: 0 <= i < j < |rows| ==>
      rows[i].productId != rows[j].productId || rows[i].url != rows[j].url || rows[i].name != rows[j].name
  }

  /** No two ingredients of a product share both URL and name. */
  ghost predicate KeysDistinct(ings: seq<Ingredient>) {
    forall i, j :: 0 <= i < j < |ings| ==> ings[i].url != ings[j].url || ings[i].name != ings[j].name
  }

  /**
   * The parser's deduplicated ingredient list never breaks the primary key,
   * provided each entry carries a URL or a name.
   */
  lemma DedupedKeysDistinct(ings: seq<Ingredient>)
    requires UrlsDistinct(ings) && BlankUrlNamesDistinct(ings)
    requires forall i :: 0 <= i < |ings| ==> ings[i].url != [] || ings[i].name != []
    ensures KeysDistinct(ings)
  {
  }

  /** The ingredient rows left once the product's own rows are deleted. */
  function Unlinked(rows: seq<IngredientRow>, pid: int): seq<IngredientRow> {
    if rows == [] then []
    else
      var n := |rows| - 1;
      Unlinked(rows[..n], pid) + (if rows[n].productId == pid then [] else [rows[n]])
  }

  /** The rows `executemany` inserts for a product's ingredients. */
  function LinkRows(pid: int, ings: seq<Ingredient>): (r: seq<IngredientRow>)
    ensures |r| == |ings|
    ensures forall k :: 0 <= k < |ings| ==> r[k] == IngredientRow(pid, ings[k].url, ings[k].name, StoredExtra(ings[k].extra))
  {
    if ings == [] then []
    else LinkRows(pid, ings[..|ings| - 1]) + [IngredientRow(pid, ings[|ings| - 1].url, ings[|ings| - 1].name, StoredExtra(ings[|ings| - 1].extra))]
  }

  /** Deleting a product's rows keeps only rows of the table, and none of that product. */
  lemma {:induction false} UnlinkedSound(rows: seq<IngredientRow>, pid: int)
    ensures forall r :: r in Unlinked(rows, pid) ==> r in rows && r.productId != pid
  {
    if rows != [] {
      var n := |rows| - 1;
      UnlinkedSound(rows[..n], pid);
      assert forall r :: r in rows[..n] ==> r in rows;
    }
  }

  /** Deleting a product's rows keeps the primary key of the rest. */
  lemma {:induction false} UnlinkedUnique(rows: seq<IngredientRow>, pid: int)
    requires IngredientKeysUnique(rows)
    ensures IngredientKeysUnique(Unlinked(rows, pid))
  {
    if rows != [] {
      var n := |rows| - 1;
      var init := rows[..n];
      assert forall i :: 0 <= i < n ==> init[i] == rows[i];
      UnlinkedUnique(init, pid);
      UnlinkedSound(init, pid);
      var u := Unlinked(init, pid);
      var t: seq<IngredientRow> := Unlinked(rows, pid);
      if rows[n].productId != pid {
        assert t == u + [rows[n]];
        forall i, j | 0 <= i < j < |t|
          ensures t[i].productId != t[j].productId || t[i].url != t[j].url || t[i].name != t[j].name
        {
          if j == |u| {
            assert t[i] == u[i] && u[i] in u;
            var k :| 0 <= k < n && init[k] == u[i];
            assert t[j] == rows[n];
          } else {
            assert t[i] == u[i] && t[j] == u[j];
          }
        }
      }
    }
  }

  /** The table after the delete and the inserts keeps its primary key. */
  lemma RelinkUnique(rows: seq<IngredientRow>, pid: int, ings: seq<Ingredient>)
    requires IngredientKeysUnique(rows) && KeysDistinct(ings)
    ensures IngredientKeysUnique(Unlinked(rows, pid) + LinkRows(pid, ings))
  {
    UnlinkedSound(rows, pid);
    UnlinkedUnique(rows, pid);
    var u := Unlinked(rows, pid);
    var l := LinkRows(pid, ings);
    var t: seq<IngredientRow> := u + l;
    forall i, j | 0 <= i < j < |t|
      ensures t[i].productId != t[j].productId || t[i].url != t[j].url || t[i].name != t[j].name
    {
      if j >= |u| && i < |u| {
        assert t[i] == u[i] && u[i] in u;
      }
    }
  }

  /** `_load_ingredients(product_id)`: the product's rows as ingredients, `NULL` extras read as `{}`. */
  function LoadedIngredients(rows: seq<IngredientRow>, pid: int): seq<Ingredient> {
    if rows == [] then []
    else
      var n := |rows| - 1;
      LoadedIngredients(rows[..n], pid)
        + (if rows[n].productId == pid then [Ingredient(rows[n].name, rows[n].url, LoadedExtra(rows[n].extra))] else [])
  }

  lemma {:induction false} LoadedAppend(a: seq<IngredientRow>, b: seq<IngredientRow>, pid: int)
    ensures LoadedIngredients(a + b, pid) == LoadedIngredients(a, pid) + LoadedIngredients(b, pid)
  {
    if b != [] {
      var n := |b| - 1;
      var t := if b[n].productId == pid then [Ingredient(b[n].name, b[n].url, LoadedExtra(b[n].extra))] else [];
      assert (a + b)[..|a + b| - 1] == a + b[..n];
      assert (a + b)[|a + b| - 1] == b[n];
      LoadedAppend(a, b[..n], pid);
      assert LoadedIngredients(a + b, pid) == (LoadedIngredients(a, pid) + LoadedIngredients(b[..n], pid)) + t;
      assert LoadedIngredients(b, pid) == LoadedIngredients(b[..n], pid) + t;
      assert (LoadedIngredients(a, pid) + LoadedIngredients(b[..n], pid)) + t
        == LoadedIngredients(a, pid) + (LoadedIngredients(b[..n], pid) + t);
    } else {
      assert a + b == a;
    }
  }

  lemma {:induction false} LoadedUnlinked(rows: seq<IngredientRow>, pid: int, q: int)
    ensures LoadedIngredients(Unlinked(rows, pid), pid) == []
    ensures q != pid ==> LoadedIngredients(Unlinked(rows, pid), q) == LoadedIngredients(rows, q)
  {
    if rows != [] {
      var n := |rows| - 1;
      LoadedUnlinked(rows[..n], pid, q);
      var tail := if rows[n].productId == pid then [] else [rows[n]];
      LoadedAppend(Unlinked(rows[..n], pid), tail, pid);
      LoadedAppend(Unlinked(rows[..n], pid), tail, q);
    }
  }

  /** Reading back the inserted rows gives the ingredients that were saved. */
  lemma {:induction false} LoadedLinkRows(pid: int, ings: seq<Ingredient>, q: int)
    ensures LoadedIngredients(LinkRows(pid, ings), pid) == ings
    ensures q != pid ==> LoadedIngredients(LinkRows(pid, ings), q) == []
  {
    if ings != [] {
      var n := |ings| - 1;
      LoadedLinkRows(pid, ings[..n], q);
      assert LinkRows(pid, ings)[..n] == LinkRows(pid, ings[..n]);
      var e := ings[n].extra;
      assert LoadedExtra(StoredExtra(e)) == e;
      assert ings == ings[..n] + [ings[n]];
    }
  }

  /**
   * What `iter_products` builds from a row and its ingredients; the parsed
   * fields the tables do not store read back empty.
   */
  function LoadedProduct(row: ProductRow, ings: seq<Ingredient>): Product {
    Product(row.url, row.name, row.brandName, row.description, row.imageUrl, row.ratingValue, row.ratingCount,
            row.categories.GetOr([]), ings, [], [], [], row.jsonLd, [])
  }

  /**
   * What a saved product reads back as: the stored name and brand where the
   * product had none, a falsy JSON-LD value as `None`, and no materials,
   * functions, highlights or brand links.
   */
  function Reloaded(p: Product, prior: Option<ProductRow>): Product {
    var priorName := if prior.Some? then prior.value.name else None;
    var priorBrand := if prior.Some? then prior.value.brandName else None;
    p.(name := Coalesce(p.name, priorName), brand := Coalesce(p.brand, priorBrand), jsonLd := StoredJson(p.jsonLd),
       materials := [], functions := [], highlights := [], rawBrandLinks := [])
  }

  /**
   * `save_product` followed by reading the row back: the product is
   * scraped under its own URL, reads back as `Reloaded`, and every other
   * product keeps its ingredients.
   */
  lemma SaveRoundTrip(rows: seq<ProductRow>, ingRows: seq<IngredientRow>, p: Product, q: int)
    ensures var pid := SavedId(rows, p.url);
      var after := SavedProducts(rows, p);
      var links := Unlinked(ingRows, pid) + LinkRows(pid, p.ingredients);
      && 1 <= pid <= |after|
      && after[pid - 1].url == p.url && after[pid - 1].scraped
      && LoadedProduct(after[pid - 1], LoadedIngredients(links, pid)) == Reloaded(p, Prior(rows, p.url))
      && (q != pid ==> LoadedIngredients(links, q) == LoadedIngredients(ingRows, q))
  {
    var pid := SavedId(rows, p.url);
    SavedRowReadsBack(rows, p);
    RelinkReadsBack(ingRows, pid, p.ingredients, q);
  }

  /** The row `save_product` writes sits at the saved id and reads back as `Reloaded`. */
  lemma SavedRowReadsBack(rows: seq<ProductRow>, p: Product)
    ensures var pid := SavedId(rows, p.url);
      var after := SavedProducts(rows, p);
      && 1 <= pid <= |after|
      && after[pid - 1].url == p.url && after[pid - 1].scraped
      && LoadedProduct(after[pid - 1], p.ingredients) == Reloaded(p, Prior(rows, p.url))
  {
  }

  /** After the delete and the inserts, the product reads back its own ingredients and every other product its old ones. */
  lemma RelinkReadsBack(ingRows: seq<IngredientRow>, pid: int, ings: seq<Ingredient>, q: int)
    ensures var links := Unlinked(ingRows, pid) + LinkRows(pid, ings);
      && LoadedIngredients(links, pid) == ings
      && (q != pid ==> LoadedIngredients(links, q) == LoadedIngredients(ingRows, q))
  {
    LoadedAppend(Unlinked(ingRows, pid), LinkRows(pid, ings), pid);
    LoadedAppend(Unlinked(ingRows, pid), LinkRows(pid, ings), q);
    LoadedUnlinked(ingRows, pid, q);
    LoadedLinkRows(pid, ings, q);
  }

  /** `save_product` keeps product URLs unique and leaves every other product row as it was. */
  lemma SavedProductsLaw(rows: seq<ProductRow>, p: Product)
    requires ProductUrlsUnique(rows)
    ensures var after := SavedProducts(rows, p);
      && ProductUrlsUnique(after)
      && |after| >= |rows|
      && (forall i :: 0 <= i < |rows| && i + 1 != SavedId(rows, p.url) ==> after[i] == rows[i])
  {
  }

  /**
   * `iter_products`: every scraped product row read back with its
   * ingredients, in id order.
   */
  function Catalog(rows: seq<ProductRow>, ingRows: seq<IngredientRow>): seq<Product> {
    if rows == [] then []
    else
      var n := |rows| - 1;
      Catalog(rows[..n], ingRows)
        + (if rows[n].scraped then [LoadedProduct(rows[n], LoadedIngredients(ingRows, n + 1))] else [])
  }

  /** `iter_products` yields a product for exactly the scraped rows. */
  lemma {:induction false} CatalogLaw(rows: seq<ProductRow>, ingRows: seq<IngredientRow>)
    ensures forall i :: 0 <= i < |rows| && rows[i].scraped ==>
      LoadedProduct(rows[i], LoadedIngredients(ingRows, i + 1)) in Catalog(rows, ingRows)
    ensures forall q :: q in Catalog(rows, ingRows) ==>
      exists i :: 0 <= i < |rows| && rows[i].scraped && q == LoadedProduct(rows[i], LoadedIngredients(ingRows, i + 1))
  {
    if rows != [] {
      var n := |rows| - 1;
      CatalogLaw(rows[..n], ingRows);
      assert forall i :: 0 <= i < n ==> rows[..n][i] == rows[i];
    }
  }

  /** After `save_product(p)`, `has_product` holds for `p`'s URL and for exactly the URLs it held for before. */
  lemma SavedScraped(rows: seq<ProductRow>, p: Product, url: String)
    ensures Scraped(SavedProducts(rows, p), url) <==> Scraped(rows, url) || url == p.url
  {
    var after := SavedProducts(rows, p);
    var pid := SavedId(rows, p.url);
    assert |after| >= |rows| && 1 <= pid <= |after|;
    assert after[pid - 1].url == p.url && after[pid - 1].scraped;
    assert forall i :: 0 <= i < |rows| && i != pid - 1 ==> after[i] == rows[i];
    assert |after| <= |rows| + 1 && (|after| == |rows| + 1 ==> pid == |after|);
    if Scraped(rows, url) {
      var i :| 0 <= i < |rows| && rows[i].url == url && rows[i].scraped;
      if i == pid - 1 {
        assert after[i].url == rows[i].url;
      }
      assert after[i].url == url && after[i].scraped;
    }
    if Scraped(after, url) && url != p.url {
      var i :| 0 <= i < |after| && after[i].url == url && after[i].scraped;
      assert rows[i].url == url && rows[i].scraped;
    }
  }

  /** A saved product is among those `iter_products` yields, as `Reloaded`. */
  lemma SavedIsListed(rows: seq<ProductRow>, ingRows: seq<IngredientRow>, p: Product)
    ensures var pid := SavedId(rows, p.url);
      Reloaded(p, Prior(rows, p.url))
        in Catalog(SavedProducts(rows, p), Unlinked(ingRows, pid) + LinkRows(pid, p.ingredients))
  {
    var pid := SavedId(rows, p.url);
    SaveRoundTrip(rows, ingRows, p, pid);
    CatalogLaw(SavedProducts(rows, p), Unlinked(ingRows, pid) + LinkRows(pid, p.ingredients));
  }

  /** A key met again while inserting means two of the product's ingredients share it. */
  lemma LinkKeyClash(u: seq<IngredientRow>, pid: int, ings: seq<Ingredient>, k: nat, j: nat)
    requires k < |ings| && forall r :: r in u ==> r.productId != pid
    requires var t := u + LinkRows(pid, ings[..k]);
      j < |t| && t[j].productId == pid && t[j].url == ings[k].url && t[j].name == ings[k].name
    ensures !KeysDistinct(ings)
  {
    var t := u + LinkRows(pid, ings[..k]);
    if j >= |u| {
      var m := j - |u|;
      assert t[j] == LinkRows(pid, ings[..k])[m];
      assert ings[m] == ings[..k][m];
    }
  }

  /** A key not met yet extends the distinct prefix by one. */
  lemma LinkKeyFree(u: seq<IngredientRow>, pid: int, ings: seq<Ingredient>, k: nat)
    requires k < |ings| && KeysDistinct(ings[..k])
    requires var t := u + LinkRows(pid, ings[..k]);
      forall j :: 0 <= j < |t| ==> !(t[j].productId == pid && t[j].url == ings[k].url && t[j].name == ings[k].name)
    ensures KeysDistinct(ings[..k + 1])
    ensures u + LinkRows(pid, ings[..k + 1]) == (u + LinkRows(pid, ings[..k])) + [IngredientRow(pid, ings[k].url, ings[k].name, StoredExtra(ings[k].extra))]
  {
    var t := u + LinkRows(pid, ings[..k]);
    forall m | 0 <= m < k
      ensures ings[m].url != ings[k].url || ings[m].name != ings[k].name
    {
      assert t[|u| + m] == LinkRows(pid, ings[..k])[m];
      assert ings[..k][m] == ings[m];
    }
    assert ings[..k + 1][..k] == ings[..k];
    var row := IngredientRow(pid, ings[k].url, ings[k].name, StoredExtra(ings[k].extra));
    assert LinkRows(pid, ings[..k + 1]) == LinkRows(pid, ings[..k]) + [row];
    assert u + (LinkRows(pid, ings[..k]) + [row]) == (u + LinkRows(pid, ings[..k])) + [row];
  }

  // ---------------------------------------------------------------------
  // the store

  /** `DataStore` over one database. */
  class DataStore {
    var brands: seq<BrandRow>
    var products: seq<ProductRow>
    var ingredientRows: seq<IngredientRow>

    /** The tables' `UNIQUE` and `PRIMARY KEY` constraints. */
    ghost predicate Valid()
      reads this
    {
      BrandUrlsUnique(brands) && ProductUrlsUnique(products) && IngredientKeysUnique(ingredientRows)
    }

    /** A new database: `_init_schema` creates the three tables empty. */
    constructor()
      ensures Valid()
      ensures brands == [] && products == [] && ingredientRows == []
    {
      brands, products, ingredientRows := [], [], [];
    }

    /** `has_product` */
    predicate HasProduct(url: String)
      reads this
    {
      Scraped(products, url)
    }

    /** `_get_brand_name` */
    function GetBrandName(id: int): Option<String>
      reads this
    {
      BrandName(brands, id)
    }

    method AddBrands(batch: seq<(String, String)>) returns (inserted: nat)
      requires Valid()
      modifies this
      ensures Valid()
      ensures brands == BrandsAfter(old(brands), batch)
      ensures inserted == |brands| - |old(brands)|
      ensures products == old(products) && ingredientRows == old(ingredientRows)
    {
      if batch == [] {
        return 0;
      }
      inserted := 0;
      for k := 0 to |batch|
        invariant brands == BrandsAfter(old(brands), batch[..k])
        invariant BrandsGrow(old(brands), brands)
        invariant inserted == |brands| - |old(brands)|
        invariant Valid()
        invariant products == old(products) && ingredientRows == old(ingredientRows)
      {
        var name, url := batch[k].0, batch[k].1;
        var found := FindBrand(brands, url);
        assert batch[..k + 1][..k] == batch[..k];
        BrandsAfterLaw(old(brands), batch[..k + 1]);
        if found.Some? {
          var i := found.value;
          if name != [] && brands[i].name != name {
            brands := brands[i := brands[i].(name := name)];
          }
        } else {
          brands := brands + [BrandRow(name, url, false)];
          inserted := inserted + 1;
        }
      }
      assert batch[..|batch|] == batch;
    }

    method IterPendingBrands() returns (pending: seq<(int, String, String)>)
      ensures pending == Pending(brands)
    {
      pending := [];
      for k := 0 to |brands|
        invariant pending == Pending(brands[..k])
      {
        assert brands[..k + 1][..k] == brands[..k];
        if !brands[k].processed {
          pending := pending + [(k + 1, brands[k].name, brands[k].url)];
        }
      }
      assert brands[..|brands|] == brands;
    }

    method ResetBrandProcessing()
      requires Valid()
      modifies this
      ensures Valid()
      ensures brands == ResetAll(old(brands))
      ensures products == old(products) && ingredientRows == old(ingredientRows)
    {
      brands := ResetAll(brands);
    }

    method MarkBrandProcessed(id: int)
      requires Valid()
      modifies this
      ensures Valid()
      ensures brands == MarkProcessed(old(brands), id)
      ensures products == old(products) && ingredientRows == old(ingredientRows)
    {
      if 1 <= id <= |brands| {
        brands := brands[id - 1 := brands[id - 1].(processed := true)];
      }
    }

    method AddProductsForBrand(brandId: int, batch: seq<(String, Option<String>)>) returns (inserted: nat)
      requires Valid()
      modifies this
      ensures Valid()
      ensures products == ProductsAfter(old(products), brandId, BrandName(old(brands), brandId), batch)
      ensures inserted == |products| - |old(products)|
      ensures brands == old(brands) && ingredientRows == old(ingredientRows)
    {
      if batch == [] {
        return 0;
      }
      inserted := 0;
      var brandName := GetBrandName(brandId);
      for k := 0 to |batch|
        invariant products == ProductsAfter(old(products), brandId, brandName, batch[..k])
        invariant ProductsGrow(old(products), products, brandId)
        invariant inserted == |products| - |old(products)|
        invariant Valid()
        invariant brands == old(brands) && ingredientRows == old(ingredientRows)
      {
        var url, name := batch[k].0, batch[k].1;
        var found := FindProduct(products, url);
        assert batch[..k + 1][..k] == batch[..k];
        ProductsAfterLaw(old(products), brandId, brandName, batch[..k + 1]);
        if found.Some? {
          var i := found.value;
          var existing := products[i];
          var updateName := if Filled(name) && !Filled(existing.name) then name else None;
          var updateBrand := if Filled(brandName) then brandName else None;
          if updateName.Some? || updateBrand.Some? || brandId != 0 {
            products := products[i := existing.(name := Coalesce(updateName, existing.name), brandId := Some(brandId),
                                                 brandName := Coalesce(updateBrand, existing.brandName))];
          }
        } else {
          products := products + [QueuedRow(brandId, brandName, url, name)];
          inserted := inserted + 1;
        }
      }
      assert batch[..|batch|] == batch;
    }

    method IterProductsToScrape(resume: bool) returns (queue: seq<(int, String, Option<String>, Option<String>)>)
      ensures queue == ToScrape(products, resume)
    {
      queue := [];
      for k := 0 to |products|
        invariant queue == ToScrape(products[..k], resume)
      {
        assert products[..k + 1][..k] == products[..k];
        if !(resume && products[k].scraped) {
          queue := queue + [(k + 1, products[k].url, products[k].name, products[k].brandName)];
        }
      }
      assert products[..|products|] == products;
    }

    method MarkProductScraped(id: int)
      requires Valid()
      modifies this
      ensures Valid()
      ensures products == MarkScraped(old(products), id)
      ensures brands == old(brands) && ingredientRows == old(ingredientRows)
    {
      if 1 <= id <= |products| {
        products := products[id - 1 := products[id - 1].(scraped := true)];
      }
    }

    /**
     * `save_product`: write the product row, delete the product's
     * ingredient rows and insert the new ones. An insert that repeats a
     * primary key raises, and the transaction is rolled back.
     */
    method SaveProduct(p: Product) returns (r: Result<(), String>)
      requires Valid()
      modifies this
      ensures Valid()
      ensures r.Ok? <==> KeysDistinct(p.ingredients)
      ensures r.Ok? ==> products == SavedProducts(old(products), p)
      ensures r.Ok? ==> var pid := SavedId(old(products), p.url);
        ingredientRows == Unlinked(old(ingredientRows), pid) + LinkRows(pid, p.ingredients)
      ensures r.Err? ==> products == old(products) && ingredientRows == old(ingredientRows)
      ensures brands == old(brands)
    {
      var savedProducts, savedRows := products, ingredientRows;
      var found := FindProduct(products, p.url);
      var pid: int;
      if found.Some? {
        var i := found.value;
        products := products[i := SavedRow(p, Some(products[i]))];
        pid := i + 1;
      } else {
        products := products + [SavedRow(p, None)];
        pid := |products|;
      }
      SavedProductsLaw(savedProducts, p);
      ingredientRows := Unlinked(ingredientRows, pid);
      UnlinkedSound(savedRows, pid);
      var ok := InsertLinks(pid, p.ingredients);
      if !ok {
        products, ingredientRows := savedProducts, savedRows;
        return Err("UNIQUE constraint failed: product_ingredients");
      }
      RelinkUnique(savedRows, pid, p.ingredients);
      return Ok(());
    }

    /** The `executemany` insert of a product's ingredient rows; a repeated primary key raises. */
    method InsertLinks(pid: int, ings: seq<Ingredient>) returns (ok: bool)
      requires forall r :: r in ingredientRows ==> r.productId != pid
      modifies this
      ensures ok <==> KeysDistinct(ings)
      ensures ok ==> ingredientRows == old(ingredientRows) + LinkRows(pid, ings)
      ensures brands == old(brands) && products == old(products)
    {
      ghost var u := ingredientRows;
      var rows := ingredientRows;
      for k := 0 to |ings|
        modifies {}
        invariant rows == u + LinkRows(pid, ings[..k])
        invariant KeysDistinct(ings[..k])
      {
        var ing := ings[k];
        if exists j :: 0 <= j < |rows| && rows[j].productId == pid && rows[j].url == ing.url && rows[j].name == ing.name {
          var j :| 0 <= j < |rows| && rows[j].productId == pid && rows[j].url == ing.url && rows[j].name == ing.name;
          LinkKeyClash(u, pid, ings, k, j);
          return false;
        }
        LinkKeyFree(u, pid, ings, k);
        rows := rows + [IngredientRow(pid, ing.url, ing.name, StoredExtra(ing.extra))];
      }
      assert ings[..|ings|] == ings;
      ingredientRows := rows;
      return true;
    }

    method LoadIngredients(pid: int) returns (ings: seq<Ingredient>)
      ensures ings == LoadedIngredients(ingredientRows, pid)
    {
      ings := [];
      for k := 0 to |ingredientRows|
        invariant ings == LoadedIngredients(ingredientRows[..k], pid)
      {
        assert ingredientRows[..k + 1][..k] == ingredientRows[..k];
        var row := ingredientRows[k];
        if row.productId == pid {
          ings := ings + [Ingredient(row.name, row.url, LoadedExtra(row.extra))];
        }
      }
      assert ingredientRows[..|ingredientRows|] == ingredientRows;
    }

    method IterProducts() returns (out: seq<Product>)
      ensures out == Catalog(products, ingredientRows)
    {
      out := [];
      for k := 0 to |products|
        invariant out == Catalog(products[..k], ingredientRows)
      {
        assert products[..k + 1][..k] == products[..k];
        var row := products[k];
        if row.scraped {
          var ings := LoadIngredients(k + 1);
          out := out + [LoadedProduct(row, ings)];
        }
      }
      assert products[..|products|] == products;
    }
  }
}
