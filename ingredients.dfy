/**
 * Ingredients as the parser collects them: the record, the insertion-ordered
 * dictionary keyed by `_ingredient_key`, `_register_ingredient_extra`, and
 * the two-index merge that `parse` runs over the dictionary's values.
 */
module Ingredients {
  import opened Options
  import opened Text

  /** A value of an ingredient's `extra` dictionary. */
  datatype Value = VNone | VText(text: String) | VList(items: seq<String>)

  /** The keys of an ingredient's `extra`: the parser writes no others. */
  datatype Field = TitleKey | TextKey | LinksKey

  /** The key as stored: `tooltip_title`, `tooltip_text`, `tooltip_links`. */
  function FieldName(f: Field): String {
    match f
    case TitleKey => "tooltip_title"
    case TextKey => "tooltip_text"
    case LinksKey => "tooltip_links"
  }

  type Extra = map<Field, Value>

  datatype Ingredient = Ingredient(name: String, url: String, extra: Extra)

  /** A value that is neither `None`, an empty string nor an empty list. */
  predicate Kept(v: Value) {
    v != VNone && v != VText([]) && v != VList([])
  }

  /**
   * `_ingredient_key`: the lower-cased URL when there is one, else the
   * stripped lower-cased name, else the empty key.
   */
  function IngredientKey(url: String, name: Option<String>): (k: String)
    ensures url != [] ==> k == Lower(url)
    ensures url == [] && Present(name) ==> k == Lower(Strip(name.value))
    ensures url == [] && !Present(name) ==> k == []
  {
    if url != [] then Lower(url)
    else if Present(name) then Lower(Strip(name.value))
    else []
  }

  /**
   * Keys ignore case: two URLs that differ only in case, or two names that
   * differ only in case and surrounding whitespace, give the same key; a
   * key with a URL never depends on the name.
   */
  lemma IngredientKeyIgnoresCase(u1: String, u2: String, n1: Option<String>, n2: Option<String>)
    ensures u1 != [] && Lower(u1) == Lower(u2) ==> IngredientKey(u1, n1) == IngredientKey(u2, n2)
    ensures u1 == [] && u2 == [] && Present(n1) && Present(n2) && Lower(Strip(n1.value)) == Lower(Strip(n2.value)) ==>
      IngredientKey(u1, n1) == IngredientKey(u2, n2)
  {
    if u1 != [] && Lower(u1) == Lower(u2) {
      assert |u2| == |u1|;
    }
  }

  /** Python's `o or ""` for an optional text. */
  function TextOr(o: Option<String>): (r: String)
    ensures Present(o) ==> r == o.value
    ensures !Present(o) ==> r == []
  {
    if Present(o) then o.value else []
  }

  /** An insertion-ordered dictionary from keys to ingredients, as a Python `dict` keeps them. */
  datatype Dict = Dict(keys: seq<String>, entries: map<String, Ingredient>) {

    predicate Valid() {
      && (forall i, j :: 0 <= i < j < |keys| ==> keys[i] != keys[j])
      && (forall k :: k in entries ==> k in keys)
      && (forall i :: 0 <= i < |keys| ==> keys[i] in entries)
    }

    /** `d[k] = v`: a new key goes last, an existing key keeps its place. */
    function Put(k: String, v: Ingredient): (d: Dict)
      ensures Valid() ==> d.Valid()
      ensures d.entries == entries[k := v]
      ensures k in entries ==> d.keys == keys
      ensures k !in entries ==> d.keys == keys + [k]
    {
      if k in entries then Dict(keys, entries[k := v]) else Dict(keys + [k], entries[k := v])
    }

    /** `d.setdefault(k, v)` */
    function SetDefault(k: String, v: Ingredient): (d: Dict)
      ensures Valid() ==> d.Valid()
      ensures k in entries ==> d == this
      ensures k !in entries ==> d == Put(k, v)
    {
      if k in entries then this else Put(k, v)
    }

    /** `d.values()`, in insertion order. */
    function Values(): (r: seq<Ingredient>)
      requires Valid()
      ensures |r| == |keys|
      ensures forall i :: 0 <= i < |keys| ==> r[i] == entries[keys[i]]
    {
      seq(|keys|, i requires 0 <= i < |keys| => entries[keys[i]])
    }
  }

  const EmptyDict := Dict([], map[])

  /** The extras whose values are kept (see `Kept`). */
  function Sanitize(extra: Extra): (r: Extra)
    ensures forall k :: k in r <==> k in extra && Kept(extra[k])
    ensures forall k :: k in r ==> r[k] == extra[k]
  {
    map k | k in extra && Kept(extra[k]) :: extra[k]
  }

  /**
   * How the entry under one key may change when extras are registered: it
   * is new and holds exactly the kept extras, or it is the old entry with a
   * blank name or url filled in and the kept extras added over its own.
   */
  predicate RegisteredEntry(before: Option<Ingredient>, after: Ingredient, kept: Extra) {
    match before
    case None => after.extra == kept && kept != map[]
    case Some(b) =>
      after == b ||
      (&& (b.name != [] ==> after.name == b.name)
       && (b.url != [] ==> after.url == b.url)
       && after.extra == b.extra + kept)
  }

  /**
   * `_register_ingredient_extra`: the kept values of `extra` are added to
   * the ingredient under `key` (or, without a key, under the key of the
   * hints); a missing ingredient is created from the hints, an existing one
   * only has a blank name or url filled in from them.
   */
  function Register(d: Dict, key: Option<String>, extra: Extra, nameHint: Option<String>, urlHint: Option<String>): (r: Dict)
    ensures d.Valid() ==> r.Valid()
    ensures forall k :: k in d.entries ==> k in r.entries
    ensures forall k :: k in r.entries ==>
      RegisteredEntry(if k in d.entries then Some(d.entries[k]) else None, r.entries[k], Sanitize(extra))
    ensures Sanitize(extra) == map[] || RegisterTarget(key, nameHint, urlHint) == [] ==> r == d
    ensures Sanitize(extra) != map[] && RegisterTarget(key, nameHint, urlHint) != [] ==>
      var target := RegisterTarget(key, nameHint, urlHint);
      && target in r.entries
      && r.entries[target].extra == (if target in d.entries then d.entries[target].extra else map[]) + Sanitize(extra)
      && (forall k :: k != target ==> (k in r.entries <==> k in d.entries))
      && (forall k :: k != target && k in d.entries ==> r.entries[k] == d.entries[k])
  {
    var kept := Sanitize(extra);
    if extra == map[] || kept == map[] then d
    else
      var target := RegisterTarget(key, nameHint, urlHint);
      if target == [] then d else RegisterAt(d, target, kept, nameHint, urlHint)
  }

  /** The key extras go under: `key or _ingredient_key(url_hint or "", name_hint)`. */
  function RegisterTarget(key: Option<String>, nameHint: Option<String>, urlHint: Option<String>): (t: String)
    ensures Present(key) ==> t == key.value
    ensures !Present(key) ==> t == IngredientKey(TextOr(urlHint), nameHint)
  {
    if Present(key) then key.value else IngredientKey(TextOr(urlHint), nameHint)
  }

  /**
   * The registration under `target`: a missing ingredient is created from the
   * hints with exactly the kept extras and its key goes last; an existing one
   * has a blank name or url filled in and the kept extras added over its
   * own, in place. No other entry changes.
   */
  function RegisterAt(d: Dict, target: String, kept: Extra, nameHint: Option<String>, urlHint: Option<String>): (r: Dict)
    requires kept != map[]
    ensures d.Valid() ==> r.Valid()
    ensures forall k :: k in d.entries ==> k in r.entries
    ensures forall k :: k in r.entries ==>
      RegisteredEntry(if k in d.entries then Some(d.entries[k]) else None, r.entries[k], kept)
    ensures target in r.entries
    ensures target !in d.entries ==>
      r.entries[target] == Ingredient(TextOr(nameHint), TextOr(urlHint), kept) && r.keys == d.keys + [target]
    ensures target in d.entries ==>
      r.entries[target] == Fill(d.entries[target], nameHint, urlHint).(extra := d.entries[target].extra + kept)
      && r.keys == d.keys
    ensures forall k :: k != target ==> (k in r.entries <==> k in d.entries)
    ensures forall k :: k != target && k in d.entries ==> r.entries[k] == d.entries[k]
  {
    if target !in d.entries then
      d.Put(target, Ingredient(TextOr(nameHint), TextOr(urlHint), kept))
    else
      var b := d.entries[target];
      d.Put(target, Fill(b, nameHint, urlHint).(extra := b.extra + kept))
  }

  /** Fills a blank name or url from a non-empty hint; anything present stays. */
  function Fill(ing: Ingredient, nameHint: Option<String>, urlHint: Option<String>): (r: Ingredient)
    ensures r.extra == ing.extra
    ensures r.name == (if Present(nameHint) && ing.name == [] then nameHint.value else ing.name)
    ensures r.url == (if Present(urlHint) && ing.url == [] then urlHint.value else ing.url)
  {
    ing.(name := if Present(nameHint) && ing.name == [] then nameHint.value else ing.name,
         url := if Present(urlHint) && ing.url == [] then urlHint.value else ing.url)
  }

  /** Every value in every `extra` of the dictionary is kept (neither `None`, `""` nor `[]`). */
  predicate ExtrasClean(d: Dict) {
    forall k, x :: k in d.entries && x in d.entries[k].extra ==> Kept(d.entries[k].extra[x])
  }

  /** Registering never stores `None`, `""` or `[]` in an `extra`. */
  lemma RegisterKeepsExtrasClean(d: Dict, key: Option<String>, extra: Extra, nameHint: Option<String>, urlHint: Option<String>)
    requires ExtrasClean(d)
    ensures ExtrasClean(Register(d, key, extra, nameHint, urlHint))
  {
    var r := Register(d, key, extra, nameHint, urlHint);
    forall k, x | k in r.entries && x in r.entries[k].extra ensures Kept(r.entries[k].extra[x]) {
      assert RegisteredEntry(if k in d.entries then Some(d.entries[k]) else None, r.entries[k], Sanitize(extra));
    }
  }

  /** The extras whose values are not `None`. */
  function NonNone(extra: Extra): (r: Extra)
    ensures forall k :: k in r <==> k in extra && extra[k] != VNone
    ensures forall k :: k in r ==> r[k] == extra[k]
  {
    map k | k in extra && extra[k] != VNone :: extra[k]
  }

  /**
   * Merging `ing` into `into`: a blank name or url is filled from `ing`,
   * and `ing`'s non-`None` extras are added over the existing ones.
   */
  function Merge(into: Ingredient, ing: Ingredient): (r: Ingredient)
    ensures into.name != [] ==> r.name == into.name
    ensures into.url != [] ==> r.url == into.url
    ensures into.name == [] ==> r.name == ing.name
    ensures into.url == [] ==> r.url == ing.url
    ensures forall x :: x in r.extra <==> x in into.extra || (x in ing.extra && ing.extra[x] != VNone)
    ensures forall x :: x in r.extra && r.extra[x] == VNone ==> x in into.extra && into.extra[x] == VNone
    ensures forall x :: x in r.extra ==>
      r.extra[x] == (if x in ing.extra && ing.extra[x] != VNone then ing.extra[x] else into.extra[x])
  {
    var named := if ing.name != [] && into.name == [] then into.(name := ing.name) else into;
    var located := if ing.url != [] && named.url == [] then named.(url := ing.url) else named;
    if ing.extra != map[] then located.(extra := located.extra + NonNone(ing.extra)) else located
  }

  /** The extras of a merged entry: the old ones with the newcomer's non-`None` extras laid over them. */
  lemma MergeExtra(into: Ingredient, ing: Ingredient)
    ensures Merge(into, ing).extra == into.extra + NonNone(ing.extra)
  {
    if ing.extra == map[] {
      assert NonNone(ing.extra) == map[];
      assert into.extra + map[] == into.extra;
    }
  }

  /** Non-empty URLs of distinct entries differ even ignoring case. */
  predicate UrlsDistinct(out: seq<Ingredient>) {
    forall i, j :: 0 <= i < j < |out| && out[i].url != [] && out[j].url != [] ==> Lower(out[i].url) != Lower(out[j].url)
  }

  /** Among entries without a URL, non-empty names differ even ignoring case. */
  predicate BlankUrlNamesDistinct(out: seq<Ingredient>) {
    forall i, j :: 0 <= i < j < |out| && out[i].url == [] && out[j].url == [] && out[i].name != [] && out[j].name != [] ==>
      Lower(out[i].name) != Lower(out[j].name)
  }

  /** The invariant of the merge loop, over the entries so far and the two indexes. */
  predicate Indexed(out: seq<Ingredient>, byUrl: map<String, nat>, byName: map<String, nat>) {
    && (forall k :: k in byUrl ==> byUrl[k] < |out|)
    && (forall k :: k in byName ==> byName[k] < |out|)
    && (forall j :: 0 <= j < |out| && out[j].url != [] ==> Lower(out[j].url) in byUrl && byUrl[Lower(out[j].url)] == j)
    && (forall j :: 0 <= j < |out| && out[j].url == [] && out[j].name != [] ==>
          Lower(out[j].name) in byName && byName[Lower(out[j].name)] == j)
    && (forall k :: k in byName && out[byName[k]].url == [] ==> out[byName[k]].name != [] && Lower(out[byName[k]].name) == k)
  }

  lemma IndexedDistinct(out: seq<Ingredient>, byUrl: map<String, nat>, byName: map<String, nat>)
    requires Indexed(out, byUrl, byName)
    ensures UrlsDistinct(out) && BlankUrlNamesDistinct(out)
  {
  }

  /** The entry an ingredient joins: its URL's, else its name's, else a new one at the end. */
  function PickTarget(out: seq<Ingredient>, byUrl: map<String, nat>, byName: map<String, nat>, ing: Ingredient): (t: nat)
    requires Indexed(out, byUrl, byName)
    ensures t <= |out|
    ensures ing.url != [] && Lower(ing.url) in byUrl ==> t == byUrl[Lower(ing.url)]
    ensures !(ing.url != [] && Lower(ing.url) in byUrl) && ing.name != [] && Lower(ing.name) in byName ==>
      t == byName[Lower(ing.name)]
    ensures t == |out| <==> !(ing.url != [] && Lower(ing.url) in byUrl) && !(ing.name != [] && Lower(ing.name) in byName)
  {
    if ing.url != [] && Lower(ing.url) in byUrl then byUrl[Lower(ing.url)]
    else if ing.name != [] && Lower(ing.name) in byName then byName[Lower(ing.name)]
    else |out|
  }

  /** Appends a copy of `ing` as a new entry, or merges it into entry `t`. */
  function Place(out: seq<Ingredient>, ing: Ingredient, t: nat): (r: seq<Ingredient>)
    requires t <= |out|
    ensures t == |out| ==> r == out + [ing]
    ensures t < |out| ==> r == out[t := Merge(out[t], ing)]
  {
    if t == |out| then out + [Ingredient(ing.name, ing.url, ing.extra)] else out[t := Merge(out[t], ing)]
  }

  /** Records `t` under `key` unless the key is empty or already recorded. */
  function Note(index: map<String, nat>, key: String, t: nat): (r: map<String, nat>)
    ensures forall k :: k in index ==> k in r && r[k] == index[k]
    ensures key != [] ==> key in r
    ensures forall k :: k in r && k !in index ==> k == key && r[k] == t
  {
    if key != [] && key !in index then index[key := t] else index
  }

  lemma LowerEmpty(s: String)
    ensures Lower(s) == [] <==> s == []
  {
  }

  /** One step of the merge keeps the two indexes faithful to the entries. */
  lemma PlaceIndexed(out: seq<Ingredient>, byUrl: map<String, nat>, byName: map<String, nat>, ing: Ingredient)
    requires Indexed(out, byUrl, byName)
    ensures var t := PickTarget(out, byUrl, byName, ing);
      Indexed(Place(out, ing, t), Note(byUrl, Lower(ing.url), t), Note(byName, Lower(ing.name), t))
  {
    var t := PickTarget(out, byUrl, byName, ing);
    var out' := Place(out, ing, t);
    var byUrl' := Note(byUrl, Lower(ing.url), t);
    var byName' := Note(byName, Lower(ing.name), t);
    LowerEmpty(ing.url);
    LowerEmpty(ing.name);
    assert |out'| == |out| || |out'| == |out| + 1;
    forall j | 0 <= j < |out'| && out'[j].url != []
      ensures Lower(out'[j].url) in byUrl' && byUrl'[Lower(out'[j].url)] == j
    {
      if j != t {
        assert out'[j] == out[j];
      } else if t < |out| && out[t].url != [] {
        assert out'[j].url == out[t].url;
      } else {
        assert out'[j].url == ing.url;
      }
    }
    forall j | 0 <= j < |out'| && out'[j].url == [] && out'[j].name != []
      ensures Lower(out'[j].name) in byName' && byName'[Lower(out'[j].name)] == j
    {
      if j != t {
        assert out'[j] == out[j];
      } else if t < |out| {
        assert out[t].url == [] && ing.url == [];
        assert out'[j].name == out[t].name;
      } else {
        assert out'[j].name == ing.name;
      }
    }
    forall k | k in byName' && out'[byName'[k]].url == []
      ensures out'[byName'[k]].name != [] && Lower(out'[byName'[k]].name) == k
    {
      var j := byName'[k];
      if k in byName {
        if j != t {
          assert out'[j] == out[j];
        } else if t < |out| {
          assert out[t].url == [];
          assert out'[j].name == out[t].name;
        }
      }
    }
  }

  /** Who joined which entry, and who started it. */
  predicate Owners(items: seq<Ingredient>, i: nat, out: seq<Ingredient>, owner: seq<nat>, creator: seq<nat>) {
    && i <= |items| && |out| <= i && |owner| == i && |creator| == |out|
    && (forall i' :: 0 <= i' < i ==> owner[i'] < |out|)
    && (forall j :: 0 <= j < |out| ==> creator[j] < i && owner[creator[j]] == j)
    && (forall j, k :: 0 <= j < k < |out| ==> creator[j] < creator[k])
  }

  /** Each ingredient seen so far is recorded under its URL key, or without a URL under its name key. */
  predicate KeysOwned(items: seq<Ingredient>, i: nat, owner: seq<nat>, byUrl: map<String, nat>, byName: map<String, nat>)
    requires i <= |items| && |owner| == i
  {
    && (forall i' :: 0 <= i' < i && items[i'].url != [] ==>
          Lower(items[i'].url) in byUrl && byUrl[Lower(items[i'].url)] == owner[i'])
    && (forall i' :: 0 <= i' < i && items[i'].url == [] && items[i'].name != [] ==>
          Lower(items[i'].name) in byName && byName[Lower(items[i'].name)] == owner[i'])
  }

  /** What each entry keeps of the ingredient that started it. */
  predicate CreatorKept(items: seq<Ingredient>, out: seq<Ingredient>, creator: seq<nat>)
    requires |creator| == |out| && forall j :: 0 <= j < |out| ==> creator[j] < |items|
  {
    && (forall j :: 0 <= j < |out| && items[creator[j]].name != [] ==> out[j].name == items[creator[j]].name)
    && (forall j :: 0 <= j < |out| && items[creator[j]].url != [] ==> out[j].url == items[creator[j]].url)
    && (forall j, x :: 0 <= j < |out| && x in out[j].extra && out[j].extra[x] == VNone ==>
          x in items[creator[j]].extra && items[creator[j]].extra[x] == VNone)
  }

  /** A name or url an ingredient brings is never lost by the entry it joined. */
  predicate OwnersFilled(items: seq<Ingredient>, i: nat, out: seq<Ingredient>, owner: seq<nat>)
    requires i <= |items| && |owner| == i && forall i' :: 0 <= i' < i ==> owner[i'] < |out|
  {
    && (forall i' :: 0 <= i' < i && items[i'].name != [] ==> out[owner[i']].name != [])
    && (forall i' :: 0 <= i' < i && items[i'].url != [] ==> out[owner[i']].url != [])
  }

  lemma StepOwners(items: seq<Ingredient>, i: nat, out: seq<Ingredient>, owner: seq<nat>, creator: seq<nat>, t: nat)
    requires i < |items| && Owners(items, i, out, owner, creator) && t <= |out|
    ensures Owners(items, i + 1, Place(out, items[i], t), owner + [t], if t == |out| then creator + [i] else creator)
  {
  }

  lemma StepKeysOwned(items: seq<Ingredient>, i: nat, out: seq<Ingredient>, owner: seq<nat>,
                      byUrl: map<String, nat>, byName: map<String, nat>)
    requires i < |items| && |owner| == i && Indexed(out, byUrl, byName) && KeysOwned(items, i, owner, byUrl, byName)
    ensures var t := PickTarget(out, byUrl, byName, items[i]);
      KeysOwned(items, i + 1, owner + [t], Note(byUrl, Lower(items[i].url), t), Note(byName, Lower(items[i].name), t))
  {
    LowerEmpty(items[i].url);
    LowerEmpty(items[i].name);
  }

  lemma StepCreatorKept(items: seq<Ingredient>, i: nat, out: seq<Ingredient>, owner: seq<nat>, creator: seq<nat>, t: nat)
    requires i < |items| && Owners(items, i, out, owner, creator) && t <= |out| && CreatorKept(items, out, creator)
    ensures StepOwnersHold(items, i, out, owner, creator, t)
    ensures CreatorKept(items, Place(out, items[i], t), if t == |out| then creator + [i] else creator)
  {
    StepOwners(items, i, out, owner, creator, t);
    var out' := Place(out, items[i], t);
    var creator' := if t == |out| then creator + [i] else creator;
    assert forall j :: 0 <= j < |out| && j != t ==> out'[j] == out[j];
    assert forall j :: 0 <= j < |out| ==> creator'[j] == creator[j];
    if t == |out| {
      assert out'[t] == items[i] && creator'[t] == i;
    } else {
      assert out'[t] == Merge(out[t], items[i]);
    }
    forall j | 0 <= j < |out'| && items[creator'[j]].name != []
      ensures out'[j].name == items[creator'[j]].name
    {
      if j < |out| {
        assert items[creator[j]].name != [] && out[j].name == items[creator[j]].name;
      }
    }
    forall j | 0 <= j < |out'| && items[creator'[j]].url != []
      ensures out'[j].url == items[creator'[j]].url
    {
      if j < |out| {
        assert items[creator[j]].url != [] && out[j].url == items[creator[j]].url;
      }
    }
    forall j, x | 0 <= j < |out'| && x in out'[j].extra && out'[j].extra[x] == VNone
      ensures x in items[creator'[j]].extra && items[creator'[j]].extra[x] == VNone
    {
      if j < |out| {
        assert x in out[j].extra && out[j].extra[x] == VNone;
      }
    }
  }

  lemma StepOwnersFilled(items: seq<Ingredient>, i: nat, out: seq<Ingredient>, owner: seq<nat>, t: nat)
    requires i < |items| && |owner| == i && (forall i' :: 0 <= i' < i ==> owner[i'] < |out|) && t <= |out|
    requires OwnersFilled(items, i, out, owner)
    ensures forall i' :: 0 <= i' < i + 1 ==> (owner + [t])[i'] < |Place(out, items[i], t)|
    ensures OwnersFilled(items, i + 1, Place(out, items[i], t), owner + [t])
  {
    var out' := Place(out, items[i], t);
    var owner' := owner + [t];
    assert forall j :: 0 <= j < |out| && j != t ==> out'[j] == out[j];
    if t < |out| {
      assert out'[t] == Merge(out[t], items[i]);
    }
    forall i' | 0 <= i' < i + 1 && items[i'].name != []
      ensures out'[owner'[i']].name != []
    {
      if i' < i {
        assert owner'[i'] == owner[i'];
      }
    }
    forall i' | 0 <= i' < i + 1 && items[i'].url != []
      ensures out'[owner'[i']].url != []
    {
      if i' < i {
        assert owner'[i'] == owner[i'];
      }
    }
  }

  predicate StepOwnersHold(items: seq<Ingredient>, i: nat, out: seq<Ingredient>, owner: seq<nat>, creator: seq<nat>, t: nat)
    requires i < |items| && t <= |out|
  {
    Owners(items, i + 1, Place(out, items[i], t), owner + [t], if t == |out| then creator + [i] else creator)
  }

  /** The invariant of `Dedupe` after the first `i` ingredients. */
  predicate DedupeInv(items: seq<Ingredient>, i: nat, out: seq<Ingredient>, owner: seq<nat>, creator: seq<nat>,
                      byUrl: map<String, nat>, byName: map<String, nat>) {
    && Indexed(out, byUrl, byName)
    && Owners(items, i, out, owner, creator)
    && KeysOwned(items, i, owner, byUrl, byName)
    && CreatorKept(items, out, creator)
    && OwnersFilled(items, i, out, owner)
  }

  /** One ingredient of the merge keeps the invariant. */
  lemma DedupeStep(items: seq<Ingredient>, i: nat, out: seq<Ingredient>, owner: seq<nat>, creator: seq<nat>,
                   byUrl: map<String, nat>, byName: map<String, nat>)
    requires i < |items| && DedupeInv(items, i, out, owner, creator, byUrl, byName)
    ensures var t := PickTarget(out, byUrl, byName, items[i]);
      DedupeInv(items, i + 1, Place(out, items[i], t), owner + [t], if t == |out| then creator + [i] else creator,
                Note(byUrl, Lower(items[i].url), t), Note(byName, Lower(items[i].name), t))
  {
    var t := PickTarget(out, byUrl, byName, items[i]);
    PlaceIndexed(out, byUrl, byName, items[i]);
    StepKeysOwned(items, i, out, owner, byUrl, byName);
    StepCreatorKept(items, i, out, owner, creator, t);
    StepOwnersFilled(items, i, out, owner, t);
  }

  /**
   * What the merge guarantees besides distinctness: every ingredient went
   * to one entry, entries are in the order of the ingredients that started
   * them, ingredients sharing a URL (ignoring case), or without URL sharing
   * a name (ignoring case), went to the same entry, an entry keeps the name
   * and url of the ingredient that started it, a name or url an ingredient
   * brought is never blank in its entry, and a `None` extra only comes from
   * the ingredient that started the entry.
   */
  predicate Merged(items: seq<Ingredient>, out: seq<Ingredient>, owner: seq<nat>, creator: seq<nat>) {
    && (|owner| == |items| && |creator| == |out|)
    && (forall i :: 0 <= i < |items| ==> owner[i] < |out|)
    && (forall j :: 0 <= j < |out| ==> creator[j] < |items| && owner[creator[j]] == j)
    && (forall j, k :: 0 <= j < k < |out| ==> creator[j] < creator[k])
    && (forall i, i' :: 0 <= i < i' < |items| && items[i].url != [] && Lower(items[i].url) == Lower(items[i'].url) ==>
      owner[i] == owner[i'])
    && (forall i, i' :: (0 <= i < i' < |items| && items[i].url == [] && items[i'].url == [] && items[i].name != []
      && Lower(items[i].name) == Lower(items[i'].name)) ==> owner[i] == owner[i'])
    && (forall j :: 0 <= j < |out| && creator[j] < |items| && items[creator[j]].name != [] ==> out[j].name == items[creator[j]].name)
    && (forall j :: 0 <= j < |out| && creator[j] < |items| && items[creator[j]].url != [] ==> out[j].url == items[creator[j]].url)
    && (forall i :: 0 <= i < |items| && owner[i] < |out| && items[i].name != [] ==> out[owner[i]].name != [])
    && (forall i :: 0 <= i < |items| && owner[i] < |out| && items[i].url != [] ==> out[owner[i]].url != [])
    && (forall j, x :: 0 <= j < |out| && creator[j] < |items| && x in out[j].extra && out[j].extra[x] == VNone ==>
      x in items[creator[j]].extra && items[creator[j]].extra[x] == VNone)
  }

  /** The loop invariants of `Dedupe`, read at the end of the list. */
  lemma DedupeConclusion(items: seq<Ingredient>, out: seq<Ingredient>, owner: seq<nat>, creator: seq<nat>,
                         byUrl: map<String, nat>, byName: map<String, nat>)
    requires Indexed(out, byUrl, byName)
    requires Owners(items, |items|, out, owner, creator)
    requires KeysOwned(items, |items|, owner, byUrl, byName)
    requires CreatorKept(items, out, creator)
    requires OwnersFilled(items, |items|, out, owner)
    ensures UrlsDistinct(out) && BlankUrlNamesDistinct(out)
    ensures |out| <= |items|
    ensures Merged(items, out, owner, creator)
  {
    IndexedDistinct(out, byUrl, byName);
  }

  /**
   * The merge of a list of ingredients, with the two indexes it builds:
   * each ingredient in turn joins the entry `PickTarget` names.
   */
  function Merging(items: seq<Ingredient>): (r: (seq<Ingredient>, map<String, nat>, map<String, nat>))
    ensures Indexed(r.0, r.1, r.2)
    decreases |items|
  {
    if items == [] then ([], map[], map[])
    else
      var m := Merging(items[..|items| - 1]);
      var ing := items[|items| - 1];
      var t := PickTarget(m.0, m.1, m.2, ing);
      PlaceIndexed(m.0, m.1, m.2, ing);
      (Place(m.0, ing, t), Note(m.1, Lower(ing.url), t), Note(m.2, Lower(ing.name), t))
  }

  /** The merge of one ingredient more is one `Place` more. */
  lemma MergingStep(items: seq<Ingredient>, i: nat)
    requires i < |items|
    ensures var m := Merging(items[..i]);
      var t := PickTarget(m.0, m.1, m.2, items[i]);
      Merging(items[..i + 1]) == (Place(m.0, items[i], t), Note(m.1, Lower(items[i].url), t), Note(m.2, Lower(items[i].name), t))
  {
    assert items[..i + 1][..i] == items[..i];
  }

  /** The deduplicated list of ingredients `parse` ends with. */
  function Deduped(items: seq<Ingredient>): (r: seq<Ingredient>)
    ensures UrlsDistinct(r) && BlankUrlNamesDistinct(r)
  {
    var m := Merging(items);
    IndexedDistinct(m.0, m.1, m.2);
    m.0
  }

  /**
   * The extras entry `j`, started by ingredient `start`, holds once the
   * ingredients `owner` covers are merged: those `start` brought, then the
   * non-`None` extras of each later ingredient that joined it, laid over
   * them in order.
   */
  function EntryExtra(items: seq<Ingredient>, owner: seq<nat>, j: nat, start: nat): Extra
    requires |owner| <= |items|
    decreases |owner|
  {
    if owner == [] then map[]
    else
      var n := |owner| - 1;
      var e := EntryExtra(items, owner[..n], j, start);
      if owner[n] != j then e
      else if n == start then items[n].extra
      else e + NonNone(items[n].extra)
  }

  /** Every entry holds the extras `EntryExtra` gives it. */
  predicate ExtrasJoined(items: seq<Ingredient>, out: seq<Ingredient>, owner: seq<nat>, creator: seq<nat>)
    requires |owner| <= |items| && |creator| == |out|
  {
    forall j :: 0 <= j < |out| ==> out[j].extra == EntryExtra(items, owner, j, creator[j])
  }

  /** One ingredient of the merge keeps every entry's extras as `EntryExtra` gives them. */
  lemma StepExtrasJoined(items: seq<Ingredient>, i: nat, out: seq<Ingredient>, owner: seq<nat>, creator: seq<nat>, t: nat)
    requires i < |items| && Owners(items, i, out, owner, creator) && t <= |out|
    requires ExtrasJoined(items, out, owner, creator)
    ensures StepOwnersHold(items, i, out, owner, creator, t)
    ensures ExtrasJoined(items, Place(out, items[i], t), owner + [t], if t == |out| then creator + [i] else creator)
  {
    StepOwners(items, i, out, owner, creator, t);
    var out' := Place(out, items[i], t);
    var owner' := owner + [t];
    var creator' := if t == |out| then creator + [i] else creator;
    assert owner'[..i] == owner;
    forall j | 0 <= j < |out'| ensures out'[j].extra == EntryExtra(items, owner', j, creator'[j]) {
      if j < |out| {
        assert creator'[j] == creator[j] && creator[j] < i;
        if j == t {
          MergeExtra(out[t], items[i]);
        }
      } else {
        assert creator'[j] == i;
      }
    }
  }

  /** One ingredient of the merge: join the entry holding its URL or name, or start one. */
  method MergeOne(items: seq<Ingredient>, i: nat, out: seq<Ingredient>, ghost owner: seq<nat>, ghost creator: seq<nat>,
                  byUrl: map<String, nat>, byName: map<String, nat>)
    returns (out': seq<Ingredient>, ghost owner': seq<nat>, ghost creator': seq<nat>,
             byUrl': map<String, nat>, byName': map<String, nat>)
    requires i < |items| && DedupeInv(items, i, out, owner, creator, byUrl, byName)
    requires (out, byUrl, byName) == Merging(items[..i])
    requires ExtrasJoined(items, out, owner, creator)
    ensures DedupeInv(items, i + 1, out', owner', creator', byUrl', byName')
    ensures (out', byUrl', byName') == Merging(items[..i + 1])
    ensures ExtrasJoined(items, out', owner', creator')
  {
    var ing := items[i];
    var target := PickTarget(out, byUrl, byName, ing);
    DedupeStep(items, i, out, owner, creator, byUrl, byName);
    StepExtrasJoined(items, i, out, owner, creator, target);
    MergingStep(items, i);
    creator' := if target == |out| then creator + [i] else creator;
    out' := Place(out, ing, target);
    byName' := Note(byName, Lower(ing.name), target);
    byUrl' := Note(byUrl, Lower(ing.url), target);
    owner' := owner + [target];
  }

  /**
   * The merge at the end of `parse`: each ingredient joins the entry already
   * holding its URL (ignoring case), else the entry already holding its
   * name (ignoring case), else starts a new entry. `owner[i]` is the entry
   * ingredient `i` went to and `creator[j]` the ingredient that started
   * entry `j`.
   */
  method Dedupe(items: seq<Ingredient>) returns (out: seq<Ingredient>, ghost owner: seq<nat>, ghost creator: seq<nat>)
    ensures out == Deduped(items)
    ensures UrlsDistinct(out) && BlankUrlNamesDistinct(out)
    ensures |out| <= |items|
    ensures Merged(items, out, owner, creator)
    ensures forall j :: 0 <= j < |out| ==> out[j].extra == EntryExtra(items, owner, j, creator[j])
  {
    out := [];
    owner := [];
    creator := [];
    var byUrl: map<String, nat> := map[];
    var byName: map<String, nat> := map[];
    for i := 0 to |items|
      invariant DedupeInv(items, i, out, owner, creator, byUrl, byName)
      invariant (out, byUrl, byName) == Merging(items[..i])
      invariant ExtrasJoined(items, out, owner, creator)
    {
      out, owner, creator, byUrl, byName := MergeOne(items, i, out, owner, creator, byUrl, byName);
    }
    assert items[..|items|] == items;
    DedupeConclusion(items, out, owner, creator, byUrl, byName);
  }
}
