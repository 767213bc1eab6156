/**
 * What `ProductHTMLParser.parse` makes of the parser's fields once the
 * stream has ended: the first JSON-LD `Product`/`ProductGroup` node, the
 * JSON-LD ingredients added to the ingredient dictionary, and the product
 * record in which JSON-LD values take precedence over the `h1`, the meta
 * tags and the brand links.
 */
module Products {
  import opened Options
  import opened Text
  import opened Json
  import opened Http
  import opened Regions
  import opened Ingredients
  import opened Extractor

  /** The `Product` dataclass. */
  datatype Product = Product(
    url: String,
    name: Option<String>,
    brand: Option<String>,
    description: Option<String>,
    imageUrl: Option<String>,
    ratingValue: Option<real>,
    ratingCount: Option<int>,
    categories: seq<String>,
    ingredients: seq<Ingredient>,
    materials: seq<String>,
    functions: seq<Entry>,
    highlights: seq<Entry>,
    jsonLd: Option<Json>,
    rawBrandLinks: seq<String>)

  /**
   * The library conversions `parse` relies on: `json.loads` (nothing on a
   * `JSONDecodeError`), `float(...)` and `int(...)` (nothing on a
   * `TypeError` or `ValueError`), and `str(...)` of a non-string value.
   */
  datatype Library = Library(
    decode: String -> Option<Json>,
    toReal: Json -> Option<real>,
    toInt: Json -> Option<int>,
    show: Json -> String)

  /** The collected `<meta>` content under `key`, if any. */
  function MetaGet(meta: map<String, String>, key: String): (r: Option<String>)
    ensures r.Some? <==> key in meta
    ensures r.Some? ==> r.value == meta[key]
  {
    if key in meta then Some(meta[key]) else None
  }

  /** The product node of one JSON-LD block: none when the block does not decode. */
  function BlockProduct(block: String, decode: String -> Option<Json>): (r: Option<Json>)
    ensures r.Some? ==> IsProductNode(r.value)
    ensures r.Some? ==> decode(block).Some? && r.value in Nodes(decode(block).value)
  {
    var parsed := decode(block);
    if parsed.None? then None
    else
      var r := FirstProduct(Nodes(parsed.value));
      if r.Some? then
        assert r.value in Nodes(parsed.value);
        r
      else r
  }

  /** The product node `parse` settles on: that of the first block that has one. */
  function ProductNode(blocks: seq<String>, decode: String -> Option<Json>): (r: Option<Json>)
    ensures r.Some? ==> IsProductNode(r.value)
    decreases |blocks|
  {
    if blocks == [] then None
    else
      var r := ProductNode(blocks[..|blocks| - 1], decode);
      if r.Some? then r else BlockProduct(blocks[|blocks| - 1], decode)
  }

  /** The settled node is none exactly when no block has a product node. */
  lemma {:induction false} ProductNodeNone(blocks: seq<String>, decode: String -> Option<Json>)
    ensures ProductNode(blocks, decode).None? <==> forall i :: 0 <= i < |blocks| ==> BlockProduct(blocks[i], decode).None?
  {
    if blocks != [] {
      var front := blocks[..|blocks| - 1];
      ProductNodeNone(front, decode);
      if ProductNode(blocks, decode).None? {
        forall i | 0 <= i < |blocks|
          ensures BlockProduct(blocks[i], decode).None?
        {
          if i < |front| {
            assert blocks[i] == front[i] && BlockProduct(front[i], decode).None?;
          } else {
            assert blocks[i] == blocks[|blocks| - 1];
          }
        }
      } else if ProductNode(front, decode).Some? {
        var i :| 0 <= i < |front| && BlockProduct(front[i], decode).Some?;
        assert blocks[i] == front[i];
      }
    }
  }

  /** A settled node is that of a block every earlier block of which has none. */
  lemma {:induction false} ProductNodeFirst(blocks: seq<String>, decode: String -> Option<Json>)
    requires ProductNode(blocks, decode).Some?
    ensures exists i :: 0 <= i < |blocks| && ProductNode(blocks, decode) == BlockProduct(blocks[i], decode)
                         && (forall j :: 0 <= j < i ==> BlockProduct(blocks[j], decode).None?)
  {
    var front := blocks[..|blocks| - 1];
    assert forall j :: 0 <= j < |front| ==> front[j] == blocks[j];
    var r := ProductNode(front, decode);
    if r.Some? {
      ProductNodeFirst(front, decode);
      var i :| 0 <= i < |front| && r == BlockProduct(front[i], decode)
        && forall j :: 0 <= j < i ==> BlockProduct(front[j], decode).None?;
      assert r == BlockProduct(blocks[i], decode);
    } else {
      ProductNodeNone(front, decode);
      assert ProductNode(blocks, decode) == BlockProduct(blocks[|blocks| - 1], decode);
    }
  }

  /** A looked-up value the product keeps as text: a non-empty string. */
  function TextOf(o: Option<Json>): (r: Option<String>)
    ensures r.Some? ==> o == Some(JString(r.value)) && r.value != []
    ensures o.Some? && o.value.JString? && o.value.s != [] ==> r == Some(o.value.s)
  {
    if o.Some? && o.value.JString? && o.value.s != [] then Some(o.value.s) else None
  }

  /**
   * The brand of a product node: an object's `name` or else its `brand`,
   * or a string as it is (even an empty one).
   */
  function JsonBrand(node: Json): (r: Option<String>)
    ensures Get(node, "brand").Some? && Get(node, "brand").value.JString? ==> r == Some(Get(node, "brand").value.s)
    ensures r.Some? ==> Get(node, "brand").Some? && (Get(node, "brand").value.JString? || Get(node, "brand").value.JObject?)
  {
    var b := Get(node, "brand");
    if b.Some? && b.value.JObject? then TextOf(Or(Get(b.value, "name"), Get(b.value, "brand")))
    else if b.Some? && b.value.JString? then Some(b.value.s)
    else None
  }

  /** `float(x)` or `int(x)` of a rating member that is neither missing nor `null`. */
  function Convert<T>(o: Option<Json>, f: Json -> Option<T>): (r: Option<T>)
    ensures o.None? || o.value.JNull? ==> r.None?
    ensures o.Some? && !o.value.JNull? ==> r == f(o.value)
  {
    if o.None? || o.value.JNull? then None else f(o.value)
  }

  /** The rating value and count of a product node's `aggregateRating` object. */
  function Rating(node: Json, lib: Library): (r: (Option<real>, Option<int>))
    ensures !(Get(node, "aggregateRating").Some? && Get(node, "aggregateRating").value.JObject?) ==> r == (None, None)
    ensures Get(node, "aggregateRating").Some? && Get(node, "aggregateRating").value.JObject? ==>
      var agg := Get(node, "aggregateRating").value;
      r.0 == Convert(Get(agg, "ratingValue"), lib.toReal) && r.1 == Convert(Get(agg, "ratingCount"), lib.toInt)
  {
    var agg := Get(node, "aggregateRating");
    if agg.Some? && agg.value.JObject? then
      (Convert(Get(agg.value, "ratingValue"), lib.toReal), Convert(Get(agg.value, "ratingCount"), lib.toInt))
    else (None, None)
  }

  /** `str(item)`: a string is itself. */
  function Show(lib: Library, v: Json): (r: String)
    ensures v.JString? ==> r == v.s
    ensures !v.JString? ==> r == lib.show(v)
  {
    if v.JString? then v.s else lib.show(v)
  }

  /** The categories of a product node: every item of a list as text, or a single string. */
  function Categories(node: Json, lib: Library): (r: seq<String>)
    ensures var c := Get(node, "category");
      && (c.Some? && c.value.JArray? ==>
            |r| == |c.value.items| && forall i :: 0 <= i < |r| ==> r[i] == Show(lib, c.value.items[i]))
      && (c.Some? && c.value.JString? ==> r == [c.value.s])
      && (c.None? || !(c.value.JArray? || c.value.JString?) ==> r == [])
  {
    var c := Get(node, "category");
    if c.Some? && c.value.JArray? then seq(|c.value.items|, i requires 0 <= i < |c.value.items| => Show(lib, c.value.items[i]))
    else if c.Some? && c.value.JString? then [c.value.s]
    else []
  }

  /** `hasIngredient or ingredient or ingredients` */
  function IngredientData(node: Json): Option<Json> {
    Or(Or(Get(node, "hasIngredient"), Get(node, "ingredient")), Get(node, "ingredients"))
  }

  /**
   * One item of a JSON-LD ingredient list. An object with a text name
   * (`name`, else `@id`, else `identifier`) is stored under its key unless
   * present, and an existing entry without a URL takes the item's; a string
   * item is stored with no URL unless its key is present; anything else is
   * passed over.
   */
  function AddJsonItem(d: Dict, item: Json, base: String): (r: Dict)
    ensures d.Valid() ==> r.Valid()
    ensures d.entries.Keys <= r.entries.Keys
    ensures forall k :: k in d.entries ==> r.entries[k].name == d.entries[k].name && r.entries[k].extra == d.entries[k].extra
    ensures ItemKey(item, base).None? ==> r == d
    ensures ItemKey(item, base).Some? ==> ItemKey(item, base).value in r.entries
    ensures ItemKey(item, base).Some? ==>
      var k := ItemKey(item, base).value;
      && (forall k' :: k' in r.entries <==> k' in d.entries || k' == k)
      && (forall k' :: k' in d.entries && k' != k ==> r.entries[k'] == d.entries[k'])
      && (k !in d.entries && item.JObject? ==> r.entries[k] == Ingredient(ItemName(item).value, ItemUrl(item, base), map[]))
      && (k !in d.entries && item.JString? ==> r.entries[k] == Ingredient(item.s, [], map[]))
      && (k in d.entries && item.JObject? ==> r.entries[k] == d.entries[k].(url := FillUrl(d.entries[k].url, ItemUrl(item, base))))
      && (k in d.entries && item.JString? ==> r.entries[k] == d.entries[k])
  {
    if item.JObject? then
      if ItemName(item).None? then d
      else AddNamed(d, ItemName(item).value, ItemUrl(item, base))
    else if item.JString? then
      var k := IngredientKey([], Some(item.s));
      SetDefaultKeeps(d, k, Ingredient(item.s, [], map[]));
      d.SetDefault(k, Ingredient(item.s, [], map[]))
    else d
  }

  /** The name of an ingredient object: `name`, else `@id`, else `identifier`, when that is a non-empty string. */
  function ItemName(item: Json): (r: Option<String>)
    ensures r.Some? ==> r.value != []
    ensures TruthyOpt(Get(item, "name")) ==> r == AsText(Get(item, "name"))
    ensures !TruthyOpt(Get(item, "name")) && TruthyOpt(Get(item, "@id")) ==> r == AsText(Get(item, "@id"))
    ensures !TruthyOpt(Get(item, "name")) && !TruthyOpt(Get(item, "@id")) ==>
      r == (if TruthyOpt(Get(item, "identifier")) then AsText(Get(item, "identifier")) else None)
  {
    var name := Or(Or(Get(item, "name"), Get(item, "@id")), Get(item, "identifier"));
    if TruthyOpt(name) && name.value.JString? then Some(name.value.s) else None
  }

  /** The URL of an ingredient object: its `@id`, else its `url`, resolved when that is a string; else empty. */
  function ItemUrl(item: Json, base: String): (r: String)
    ensures var u := Or(Get(item, "@id"), Get(item, "url"));
      (u.Some? && u.value.JString? ==> r == Resolve(base, u.value.s)) && (!(u.Some? && u.value.JString?) ==> r == [])
  {
    var urlValue := Or(Get(item, "@id"), Get(item, "url"));
    if urlValue.Some? && urlValue.value.JString? then Resolve(base, urlValue.value.s) else []
  }

  /** The key an item of an ingredient list is stored under; none for an item that is passed over. */
  function ItemKey(item: Json, base: String): (r: Option<String>)
    ensures item.JString? ==> r == Some(IngredientKey([], Some(item.s)))
    ensures item.JObject? && ItemName(item).Some? ==> r == Some(IngredientKey(ItemUrl(item, base), ItemName(item)))
    ensures r.Some? ==> item.JString? || (item.JObject? && ItemName(item).Some?)
  {
    if item.JObject? && ItemName(item).Some? then Some(IngredientKey(ItemUrl(item, base), ItemName(item)))
    else if item.JString? then Some(IngredientKey([], Some(item.s)))
    else None
  }

  /** An existing entry's URL: kept unless it is empty and a URL comes along. */
  function FillUrl(existing: String, url: String): (r: String)
    ensures existing != [] ==> r == existing
    ensures existing == [] ==> r == url
  {
    if existing == [] && url != [] then url else existing
  }

  /** `setdefault` only ever adds a key. */
  lemma SetDefaultKeeps(d: Dict, k: String, v: Ingredient)
    ensures d.Valid() ==> d.SetDefault(k, v).Valid()
    ensures d.entries.Keys <= d.SetDefault(k, v).entries.Keys
    ensures forall k' :: k' in d.entries ==> d.SetDefault(k, v).entries[k'] == d.entries[k']
  {
  }

  /** A named JSON-LD ingredient: stored under its key unless present; an existing entry without a URL takes this one. */
  function AddNamed(d: Dict, name: String, url: String): (r: Dict)
    ensures d.Valid() ==> r.Valid()
    ensures d.entries.Keys <= r.entries.Keys
    ensures forall k :: k in d.entries ==> r.entries[k].name == d.entries[k].name && r.entries[k].extra == d.entries[k].extra
    ensures IngredientKey(url, Some(name)) in r.entries
    ensures var key := IngredientKey(url, Some(name));
      && (forall k :: k in r.entries <==> k in d.entries || k == key)
      && (forall k :: k in d.entries && k != key ==> r.entries[k] == d.entries[k])
      && (key !in d.entries ==> r.entries[key] == Ingredient(name, url, map[]))
      && (key in d.entries ==> r.entries[key] == d.entries[key].(url := FillUrl(d.entries[key].url, url)))
  {
    var key := IngredientKey(url, Some(name));
    if key !in d.entries then d.Put(key, Ingredient(name, url, map[]))
    else if d.entries[key].url == [] && url != [] then d.Put(key, d.entries[key].(url := url))
    else d
  }

  /** The items of a JSON-LD ingredient list, one after the other. */
  function AddJsonItems(d: Dict, items: seq<Json>, base: String): (r: Dict)
    ensures d.Valid() ==> r.Valid()
    ensures d.entries.Keys <= r.entries.Keys
    ensures forall k :: k in d.entries ==> r.entries[k].name == d.entries[k].name && r.entries[k].extra == d.entries[k].extra
    decreases |items|
  {
    if items == [] then d
    else
      var front := AddJsonItems(d, items[..|items| - 1], base);
      AddJsonItem(front, items[|items| - 1], base)
  }

  /** The keys of the items of an ingredient list, in order; none for an item that is passed over. */
  function ItemKeys(items: seq<Json>, base: String): (ks: seq<Option<String>>)
    ensures |ks| == |items|
    decreases |items|
  {
    if items == [] then [] else ItemKeys(items[..|items| - 1], base) + [ItemKey(items[|items| - 1], base)]
  }

  /** `ItemKeys` holds each item's key at the item's place. */
  lemma {:induction false} ItemKeysAt(items: seq<Json>, base: String, i: nat)
    requires i < |items|
    ensures ItemKeys(items, base)[i] == ItemKey(items[i], base)
    decreases |items|
  {
    if i < |items| - 1 {
      ItemKeysAt(items[..|items| - 1], base, i);
    }
  }

  /**
   * After the items are added, the dictionary holds every key an item gives,
   * and any key it holds that was not there before is the key of an item.
   */
  lemma {:induction false} AddJsonItemsKeys(d: Dict, items: seq<Json>, base: String)
    ensures var r := AddJsonItems(d, items, base);
      forall k :: Some(k) in ItemKeys(items, base) ==> k in r.entries
    ensures var r := AddJsonItems(d, items, base);
      forall k :: k in r.entries && k !in d.entries ==> Some(k) in ItemKeys(items, base)
    decreases |items|
  {
    if items != [] {
      var init := items[..|items| - 1];
      AddJsonItemsKeys(d, init, base);
      var front := AddJsonItems(d, init, base);
      var last := ItemKey(items[|items| - 1], base);
      var r := AddJsonItem(front, items[|items| - 1], base);
      assert r == AddJsonItems(d, items, base);
      assert ItemKeys(items, base) == ItemKeys(init, base) + [last];
      assert last.Some? ==> last.value in r.entries;
      assert forall k :: k in r.entries && k !in front.entries ==> last == Some(k);
    }
  }

  /** A comma-separated ingredient string: every non-blank token, stripped, with no URL unless its key is present. */
  function AddJsonTokens(d: Dict, tokens: seq<String>): (r: Dict)
    ensures d.Valid() ==> r.Valid()
    ensures d.entries.Keys <= r.entries.Keys
    ensures forall k :: k in d.entries ==> r.entries[k] == d.entries[k]
    decreases |tokens|
  {
    if tokens == [] then d
    else
      var front := AddJsonTokens(d, tokens[..|tokens| - 1]);
      var token := Strip(tokens[|tokens| - 1]);
      if token != [] then
        var k := IngredientKey([], Some(token));
        SetDefaultKeeps(front, k, Ingredient(token, [], map[]));
        front.SetDefault(k, Ingredient(token, [], map[]))
      else front
  }

  /** A token that, stripped, is non-empty and gives `entry` under key `k`, with no URL and no extras. */
  predicate TokenAdds(token: String, k: String, entry: Ingredient) {
    Strip(token) != [] && k == IngredientKey([], Some(Strip(token))) && entry == Ingredient(Strip(token), [], map[])
  }

  /** The last token's step: a token that is not blank once stripped is set by default under its key. */
  lemma AddJsonTokensLast(d: Dict, tokens: seq<String>)
    requires tokens != []
    ensures var front := AddJsonTokens(d, tokens[..|tokens| - 1]);
      var token := Strip(tokens[|tokens| - 1]);
      var r := AddJsonTokens(d, tokens);
      && (token == [] ==> r == front)
      && (token != [] ==> r == front.SetDefault(IngredientKey([], Some(token)), Ingredient(token, [], map[])))
  {
  }

  /** A key that setting one token by default adds is that token's key, holding the stripped token. */
  lemma NewTokenKey(front: Dict, t: String, k: String)
    requires Strip(t) != [] && k !in front.entries
    requires k in front.SetDefault(IngredientKey([], Some(Strip(t))), Ingredient(Strip(t), [], map[])).entries
    ensures TokenAdds(t, k, front.SetDefault(IngredientKey([], Some(Strip(t))), Ingredient(Strip(t), [], map[])).entries[k])
  {
  }

  /** Every token that is not blank once stripped leaves its key behind. */
  lemma {:induction false} AddJsonTokensKeys(d: Dict, tokens: seq<String>)
    ensures var r := AddJsonTokens(d, tokens);
      forall i :: 0 <= i < |tokens| && Strip(tokens[i]) != [] ==> IngredientKey([], Some(Strip(tokens[i]))) in r.entries
    decreases |tokens|
  {
    if tokens != [] {
      var init := tokens[..|tokens| - 1];
      AddJsonTokensKeys(d, init);
      AddJsonTokensLast(d, tokens);
      var front := AddJsonTokens(d, init);
      var r := AddJsonTokens(d, tokens);
      forall i | 0 <= i < |tokens| && Strip(tokens[i]) != []
        ensures IngredientKey([], Some(Strip(tokens[i]))) in r.entries
      {
        var key := IngredientKey([], Some(Strip(tokens[i])));
        if i < |init| {
          assert init[i] == tokens[i];
          assert key in front.entries;
        } else {
          assert i == |tokens| - 1;
          var token := Strip(tokens[|tokens| - 1]);
          assert key == IngredientKey([], Some(token));
          assert r == front.SetDefault(key, Ingredient(token, [], map[]));
        }
      }
    }
  }

  /** A key the tokens add holds a stripped token as name, with no URL and no extras. */
  lemma {:induction false} AddJsonTokensOrigin(d: Dict, tokens: seq<String>)
    ensures var r := AddJsonTokens(d, tokens);
      forall k :: k in r.entries && k !in d.entries ==> exists i :: 0 <= i < |tokens| && TokenAdds(tokens[i], k, r.entries[k])
    decreases |tokens|
  {
    if tokens != [] {
      var init := tokens[..|tokens| - 1];
      AddJsonTokensOrigin(d, init);
      AddJsonTokensLast(d, tokens);
      TokenStepOrigin(d, AddJsonTokens(d, init), AddJsonTokens(d, tokens), init, tokens);
    }
  }

  /** One step of the token loop adds, if anything, the last token's key. */
  lemma TokenStepOrigin(d: Dict, front: Dict, r: Dict, init: seq<String>, tokens: seq<String>)
    requires tokens != [] && init == tokens[..|tokens| - 1]
    requires Strip(tokens[|tokens| - 1]) == [] ==> r == front
    requires var token := Strip(tokens[|tokens| - 1]);
      token != [] ==> r == front.SetDefault(IngredientKey([], Some(token)), Ingredient(token, [], map[]))
    requires forall k :: k in front.entries && k !in d.entries ==> exists i :: 0 <= i < |init| && TokenAdds(init[i], k, front.entries[k])
    ensures forall k :: k in r.entries && k !in d.entries ==> exists i :: 0 <= i < |tokens| && TokenAdds(tokens[i], k, r.entries[k])
  {
    var token := Strip(tokens[|tokens| - 1]);
    if token != [] {
      SetDefaultKeeps(front, IngredientKey([], Some(token)), Ingredient(token, [], map[]));
    }
    forall k | k in r.entries && k !in d.entries
      ensures exists i :: 0 <= i < |tokens| && TokenAdds(tokens[i], k, r.entries[k])
    {
      if k !in front.entries {
        NewTokenKey(front, tokens[|tokens| - 1], k);
      } else {
        TokenOfInit(init, tokens, k, front.entries[k]);
      }
    }
  }

  /** A token among all but the last is a token of the list. */
  lemma TokenOfInit(init: seq<String>, tokens: seq<String>, k: String, e: Ingredient)
    requires tokens != [] && init == tokens[..|tokens| - 1]
    requires exists i :: 0 <= i < |init| && TokenAdds(init[i], k, e)
    ensures exists i :: 0 <= i < |tokens| && TokenAdds(tokens[i], k, e)
  {
    var i :| 0 <= i < |init| && TokenAdds(init[i], k, e);
    assert init[i] == tokens[i];
  }

  /** The ingredient dictionary after `parse` has read the product node's ingredient data. */
  function JsonIngredients(d: Dict, node: Option<Json>, base: String): (r: Dict)
    ensures d.Valid() ==> r.Valid()
    ensures d.entries.Keys <= r.entries.Keys
    ensures forall k :: k in d.entries ==> r.entries[k].name == d.entries[k].name && r.entries[k].extra == d.entries[k].extra
    ensures node.None? ==> r == d
    ensures node.Some? ==>
      var data := IngredientData(node.value);
      && (data.Some? && data.value.JArray? ==> r == AddJsonItems(d, data.value.items, base))
      && (data.Some? && data.value.JString? ==> r == AddJsonTokens(d, Split(data.value.s, ',')))
      && (!(data.Some? && (data.value.JArray? || data.value.JString?)) ==> r == d)
  {
    if node.None? then d
    else
      var data := IngredientData(node.value);
      if data.Some? && data.value.JArray? then AddJsonItems(d, data.value.items, base)
      else if data.Some? && data.value.JString? then AddJsonTokens(d, Split(data.value.s, ','))
      else d
  }

  /** The brand a brand link names: its last path segment, dashes as spaces, title-cased. */
  function BrandSlug(link: String): String {
    Title(ReplaceChar(AfterLast(RStripChar(link, '/'), '/'), '-', ' '))
  }

  /** The name: the JSON-LD one, else the `h1`, else `og:title`, else `twitter:title`. */
  function ChooseName(jsonName: Option<String>, title: Option<String>, meta: map<String, String>): (r: Option<String>)
    ensures Present(jsonName) ==> r == jsonName
    ensures !Present(jsonName) ==> r == OrElse(title, OrElse(MetaGet(meta, "og:title"), MetaGet(meta, "twitter:title")))
  {
    if Present(jsonName) then jsonName else OrElse(title, OrElse(MetaGet(meta, "og:title"), MetaGet(meta, "twitter:title")))
  }

  /** The brand: the JSON-LD one, else the first brand link's text, else the first brand link's slug. */
  function ChooseBrand(jsonBrand: Option<String>, meta: map<String, String>, rawBrandLinks: seq<String>): (r: Option<String>)
    ensures Present(jsonBrand) ==> r == jsonBrand
    ensures !Present(jsonBrand) && "brand:text" in meta ==> r == Some(meta["brand:text"])
    ensures !Present(jsonBrand) && "brand:text" !in meta && rawBrandLinks != [] ==> r == Some(BrandSlug(rawBrandLinks[0]))
    ensures !Present(jsonBrand) && "brand:text" !in meta && rawBrandLinks == [] ==> r == jsonBrand
  {
    if Present(jsonBrand) then jsonBrand
    else if "brand:text" in meta then Some(meta["brand:text"])
    else if rawBrandLinks != [] then Some(BrandSlug(rawBrandLinks[0]))
    else jsonBrand
  }

  /**
   * The description: with no JSON-LD one, the detail-page description, else
   * `og:description`, else `description`; with one, the detail-page
   * description if captured.
   */
  function ChooseDescription(jsonDescription: Option<String>, detail: Option<String>, meta: map<String, String>): (r: Option<String>)
    ensures Present(detail) ==> r == detail
    ensures !Present(detail) && Present(jsonDescription) ==> r == jsonDescription
    ensures !Present(detail) && !Present(jsonDescription) ==> r == OrElse(MetaGet(meta, "og:description"), MetaGet(meta, "description"))
  {
    if !Present(jsonDescription) then OrElse(detail, OrElse(MetaGet(meta, "og:description"), MetaGet(meta, "description")))
    else if Present(detail) then detail
    else jsonDescription
  }

  /** The image: the JSON-LD one, else `og:image`, else `twitter:image`. */
  function ChooseImage(jsonImage: Option<String>, meta: map<String, String>): (r: Option<String>)
    ensures Present(jsonImage) ==> r == jsonImage
    ensures !Present(jsonImage) ==> r == OrElse(MetaGet(meta, "og:image"), MetaGet(meta, "twitter:image"))
  {
    if Present(jsonImage) then jsonImage else OrElse(MetaGet(meta, "og:image"), MetaGet(meta, "twitter:image"))
  }

  /**
   * The product record `parse` returns, given the parser's fields after the
   * stream, the product node, the sorted brand links and the deduplicated
   * ingredients. JSON-LD values win; the `h1`, then `og:title`, then
   * `twitter:title` stand in for a missing name; the first brand link's
   * text, else the first brand link's slug, for a missing brand; a captured
   * detail-page description always wins, and `og:description`, then
   * `description`, stand in for a missing one; `og:image`, then
   * `twitter:image`, for a missing image.
   */
  function Assemble(s: ParserState, url: String, node: Option<Json>, rawBrandLinks: seq<String>,
                    ingredients: seq<Ingredient>, lib: Library): (p: Product)
    ensures p.url == url && p.jsonLd == node && p.rawBrandLinks == rawBrandLinks && p.ingredients == ingredients
    ensures p.materials == s.materials && p.functions == s.functions && p.highlights == s.highlights
    ensures node.Some? && Present(TextOf(Get(node.value, "name"))) ==> p.name == TextOf(Get(node.value, "name"))
    ensures !(node.Some? && Present(TextOf(Get(node.value, "name")))) ==>
      p.name == OrElse(s.title, OrElse(MetaGet(s.meta, "og:title"), MetaGet(s.meta, "twitter:title")))
    ensures node.Some? && Present(JsonBrand(node.value)) ==> p.brand == JsonBrand(node.value)
    ensures !(node.Some? && Present(JsonBrand(node.value))) && "brand:text" in s.meta ==> p.brand == Some(s.meta["brand:text"])
    ensures !(node.Some? && Present(JsonBrand(node.value))) && "brand:text" !in s.meta && rawBrandLinks != [] ==>
      p.brand == Some(BrandSlug(rawBrandLinks[0]))
    ensures !(node.Some? && Present(JsonBrand(node.value))) && "brand:text" !in s.meta && rawBrandLinks == [] ==>
      p.brand == (if node.Some? then JsonBrand(node.value) else None)
    ensures Present(s.detailDescription) ==> p.description == s.detailDescription
    ensures !Present(s.detailDescription) && node.Some? && Present(TextOf(Get(node.value, "description"))) ==>
      p.description == TextOf(Get(node.value, "description"))
    ensures !Present(s.detailDescription) && !(node.Some? && Present(TextOf(Get(node.value, "description")))) ==>
      p.description == OrElse(MetaGet(s.meta, "og:description"), MetaGet(s.meta, "description"))
    ensures node.Some? ==> (p.ratingValue, p.ratingCount) == Rating(node.value, lib) && p.categories == Categories(node.value, lib)
    ensures node.None? ==> p.ratingValue.None? && p.ratingCount.None? && p.categories == []
    ensures node.Some? && Present(TextOf(FirstOf(Get(node.value, "image")))) ==> p.imageUrl == TextOf(FirstOf(Get(node.value, "image")))
    ensures !(node.Some? && Present(TextOf(FirstOf(Get(node.value, "image"))))) ==>
      p.imageUrl == OrElse(MetaGet(s.meta, "og:image"), MetaGet(s.meta, "twitter:image"))
  {
    var rating := if node.Some? then Rating(node.value, lib) else (None, None);
    var name := ChooseName(if node.Some? then TextOf(Get(node.value, "name")) else None, s.title, s.meta);
    var brand := ChooseBrand(if node.Some? then JsonBrand(node.value) else None, s.meta, rawBrandLinks);
    var description := ChooseDescription(if node.Some? then TextOf(Get(node.value, "description")) else None, s.detailDescription, s.meta);
    var image := ChooseImage(if node.Some? then TextOf(FirstOf(Get(node.value, "image"))) else None, s.meta);
    Product(url, name, brand, description, image, rating.0, rating.1,
            if node.Some? then Categories(node.value, lib) else [],
            ingredients, s.materials, s.functions, s.highlights, node, rawBrandLinks)
  }

  /** A product node found in some block stays the answer however many blocks follow. */
  lemma {:induction false} ProductNodeExtends(blocks: seq<String>, decode: String -> Option<Json>, k: nat)
    requires k <= |blocks| && ProductNode(blocks[..k], decode).Some?
    ensures ProductNode(blocks, decode) == ProductNode(blocks[..k], decode)
    decreases |blocks| - k
  {
    if k < |blocks| {
      var front := blocks[..|blocks| - 1];
      assert front[..k] == blocks[..k];
      ProductNodeExtends(front, decode, k);
    } else {
      assert blocks[..k] == blocks;
    }
  }

  /** Past blocks without a product node, the next block decides. */
  lemma ProductNodeStep(blocks: seq<String>, decode: String -> Option<Json>, i: nat)
    requires i < |blocks| && ProductNode(blocks[..i], decode).None?
    ensures ProductNode(blocks[..i + 1], decode) == BlockProduct(blocks[i], decode)
  {
    var b := blocks[..i + 1];
    assert b[..|b| - 1] == blocks[..i];
    assert b[|b| - 1] == blocks[i];
  }

  /** The block loop of `parse`: decode each block, walk its nodes, stop at the first product node. */
  method FindProductNode(blocks: seq<String>, decode: String -> Option<Json>) returns (node: Option<Json>)
    ensures node == ProductNode(blocks, decode)
  {
    var i := 0;
    while i < |blocks|
      invariant 0 <= i <= |blocks|
      invariant ProductNode(blocks[..i], decode).None?
    {
      ProductNodeStep(blocks, decode, i);
      node := BlockProduct(blocks[i], decode);
      if node.Some? {
        ProductNodeExtends(blocks, decode, i + 1);
        return;
      }
      i := i + 1;
    }
    assert blocks[..i] == blocks;
    node := None;
  }

  /** The loop over a JSON-LD ingredient list. */
  method AddJsonItemsLoop(d: Dict, items: seq<Json>, base: String) returns (r: Dict)
    ensures r == AddJsonItems(d, items, base)
  {
    r := d;
    for i := 0 to |items|
      invariant r == AddJsonItems(d, items[..i], base)
    {
      assert items[..i + 1][..i] == items[..i];
      r := AddJsonItem(r, items[i], base);
    }
    assert items[..|items|] == items;
  }

  /** The loop over the comma-separated tokens of a JSON-LD ingredient string. */
  method AddJsonTokensLoop(d: Dict, tokens: seq<String>) returns (r: Dict)
    ensures r == AddJsonTokens(d, tokens)
  {
    r := d;
    for i := 0 to |tokens|
      invariant r == AddJsonTokens(d, tokens[..i])
    {
      assert tokens[..i + 1][..i] == tokens[..i];
      var token := Strip(tokens[i]);
      if token != [] {
        r := r.SetDefault(IngredientKey([], Some(token)), Ingredient(token, [], map[]));
      }
    }
    assert tokens[..|tokens|] == tokens;
  }
}
