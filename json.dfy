/**
 * Already-decoded JSON values, the Python idioms the parser applies to them
 * (`dict.get`, truthiness, `a or b`), the pre-order node walk of
 * `_iter_json_nodes`, `_first_of`, and the search for the first
 * `Product`/`ProductGroup` node of a JSON-LD block.
 */
module Json {
  import opened Options
  import opened Text

  /** A value as `json.loads` returns it; an object keeps its members in document order. */
  datatype Json =
    | JNull
    | JBool(b: bool)
    | JNumber(n: real)
    | JString(s: String)
    | JArray(items: seq<Json>)
    | JObject(members: seq<(String, Json)>)

  /** Python truthiness of a decoded value. */
  predicate Truthy(v: Json) {
    match v
    case JNull => false
    case JBool(b) => b
    case JNumber(n) => n != 0.0
    case JString(s) => s != ""
    case JArray(items) => items != []
    case JObject(members) => members != []
  }

  /** Python truthiness of `d.get(k)`, where a missing key reads as `None`. */
  predicate TruthyOpt(o: Option<Json>) {
    o.Some? && Truthy(o.value)
  }

  /** The value of the last member named `key` (a decoded object keeps the last duplicate). */
  function Lookup(members: seq<(String, Json)>, key: String): (r: Option<Json>)
    ensures r.None? <==> forall i :: 0 <= i < |members| ==> members[i].0 != key
    ensures r.Some? ==> exists i :: 0 <= i < |members| && members[i] == (key, r.value)
                                   && forall j :: i < j < |members| ==> members[j].0 != key
  {
    if members == [] then None
    else if members[|members| - 1].0 == key then Some(members[|members| - 1].1)
    else
      var r := Lookup(members[..|members| - 1], key);
      LookupStep(members, key, r);
      r
  }

  /** A lookup that passes over the last member keeps the earlier members' answer. */
  lemma LookupStep(members: seq<(String, Json)>, key: String, r: Option<Json>)
    requires members != [] && members[|members| - 1].0 != key
    requires var init := members[..|members| - 1];
      && (r.None? <==> forall i :: 0 <= i < |init| ==> init[i].0 != key)
      && (r.Some? ==> exists i :: 0 <= i < |init| && init[i] == (key, r.value)
                                  && forall j :: i < j < |init| ==> init[j].0 != key)
    ensures r.None? <==> forall i :: 0 <= i < |members| ==> members[i].0 != key
    ensures r.Some? ==> exists i :: 0 <= i < |members| && members[i] == (key, r.value)
                                   && forall j :: i < j < |members| ==> members[j].0 != key
  {
    var init := members[..|members| - 1];
    assert forall i :: 0 <= i < |init| ==> init[i] == members[i];
    if r.Some? {
      var i :| 0 <= i < |init| && init[i] == (key, r.value) && forall j :: i < j < |init| ==> init[j].0 != key;
      assert members[i] == (key, r.value);
      assert forall j :: i < j < |members| ==> members[j].0 != key;
    }
  }

  /** A later part decides a lookup; the earlier part only when the later has no such key. */
  lemma {:induction false} LookupConcat(a: seq<(String, Json)>, b: seq<(String, Json)>, key: String)
    ensures Lookup(a + b, key) == if Lookup(b, key).Some? then Lookup(b, key) else Lookup(a, key)
  {
    if b == [] {
      assert a + b == a;
    } else {
      assert (a + b)[|a + b| - 1] == b[|b| - 1];
      assert (a + b)[..|a + b| - 1] == a + b[..|b| - 1];
      LookupConcat(a, b[..|b| - 1], key);
    }
  }

  /** The members not named `key`, in order. */
  function Without(members: seq<(String, Json)>, key: String): (r: seq<(String, Json)>)
    ensures |r| <= |members|
    ensures forall p :: p in r ==> p in members && p.0 != key
  {
    if members == [] then []
    else (if members[0].0 == key then [] else [members[0]]) + Without(members[1..], key)
  }

  lemma {:induction false} LookupWithout(members: seq<(String, Json)>, k: String, key: String)
    requires key != k
    ensures Lookup(Without(members, k), key) == Lookup(members, key)
  {
    if members != [] {
      var head := if members[0].0 == k then [] else [members[0]];
      assert Without(members, k) == head + Without(members[1..], k);
      assert Lookup(head, key) == Lookup([members[0]], key);
      LookupWithout(members[1..], k, key);
      LookupConcat(head, Without(members[1..], k), key);
      LookupConcat([members[0]], members[1..], key);
      assert [members[0]] + members[1..] == members;
    }
  }

  /**
   * The object `json.loads` builds from `members`: one member per key, at
   * the position of the key's first occurrence, holding the key's last value.
   */
  function Canonical(members: seq<(String, Json)>): (r: seq<(String, Json)>)
    ensures forall i :: 0 <= i < |r| ==> r[i] in members
    ensures forall i, j :: 0 <= i < j < |r| ==> r[i].0 != r[j].0
    ensures forall key :: Lookup(r, key) == Lookup(members, key)
    decreases |members|
  {
    if members == [] then []
    else
      var k := members[0].0;
      var v := Lookup(members, k).value;
      var rest := Canonical(Without(members[1..], k));
      LookupWithoutSelf(members[1..], k);
      CanonicalStepMembers(members, rest);
      CanonicalStepKeys(k, v, rest);
      CanonicalStepLookup(members, rest);
      [(k, v)] + rest
  }

  lemma {:induction false} LookupWithoutSelf(members: seq<(String, Json)>, k: String)
    ensures Lookup(Without(members, k), k).None?
  {
    var w := Without(members, k);
    forall i | 0 <= i < |w|
      ensures w[i].0 != k
    {
      assert w[i] in w;
    }
  }

  lemma CanonicalStepMembers(members: seq<(String, Json)>, rest: seq<(String, Json)>)
    requires members != []
    requires forall p :: p in rest ==> p in Without(members[1..], members[0].0)
    ensures Lookup(members, members[0].0).Some?
    ensures var r := [(members[0].0, Lookup(members, members[0].0).value)] + rest;
      forall i :: 0 <= i < |r| ==> r[i] in members
  {
    var k := members[0].0;
    assert members[0] in members;
    var v := Lookup(members, k).value;
    var r := [(k, v)] + rest;
    forall i | 0 <= i < |r|
      ensures r[i] in members
    {
      if i > 0 {
        assert r[i] == rest[i - 1] && r[i] in rest;
        assert r[i] in members[1..];
      }
    }
  }

  lemma CanonicalStepKeys(k: String, v: Json, rest: seq<(String, Json)>)
    requires forall i, j :: 0 <= i < j < |rest| ==> rest[i].0 != rest[j].0
    requires Lookup(rest, k).None?
    ensures var r := [(k, v)] + rest; forall i, j :: 0 <= i < j < |r| ==> r[i].0 != r[j].0
  {
    var r := [(k, v)] + rest;
    forall i, j | 0 <= i < j < |r|
      ensures r[i].0 != r[j].0
    {
      assert r[j] == rest[j - 1];
      if i > 0 {
        assert r[i] == rest[i - 1];
      }
    }
  }

  lemma CanonicalStepLookup(members: seq<(String, Json)>, rest: seq<(String, Json)>)
    requires members != [] && Lookup(members, members[0].0).Some?
    requires forall key :: Lookup(rest, key) == Lookup(Without(members[1..], members[0].0), key)
    ensures forall key :: Lookup([(members[0].0, Lookup(members, members[0].0).value)] + rest, key) == Lookup(members, key)
  {
    var k := members[0].0;
    var v := Lookup(members, k).value;
    assert [members[0]] + members[1..] == members;
    forall key
      ensures Lookup([(k, v)] + rest, key) == Lookup(members, key)
    {
      LookupConcat([(k, v)], rest, key);
      LookupConcat([members[0]], members[1..], key);
      if key != k {
        LookupWithout(members[1..], k, key);
      } else {
        LookupWithoutSelf(members[1..], k);
      }
    }
  }

  /** An object whose keys are distinct is decoded member for member. */
  lemma {:induction false} CanonicalOfDistinct(members: seq<(String, Json)>)
    requires forall i, j :: 0 <= i < j < |members| ==> members[i].0 != members[j].0
    ensures Canonical(members) == members
  {
    if members != [] {
      var k := members[0].0;
      assert Lookup(members[1..], k).None? by {
        forall i | 0 <= i < |members[1..]|
          ensures members[1..][i].0 != k
        {
          assert members[1..][i] == members[i + 1];
        }
      }
      LookupConcat([members[0]], members[1..], k);
      assert [members[0]] + members[1..] == members;
      WithoutAbsent(members[1..], k);
      CanonicalOfDistinct(members[1..]);
    }
  }

  lemma {:induction false} WithoutAbsent(members: seq<(String, Json)>, k: String)
    requires forall i :: 0 <= i < |members| ==> members[i].0 != k
    ensures Without(members, k) == members
  {
    if members != [] {
      WithoutAbsent(members[1..], k);
    }
  }

  /** `node.get(key)` on an object; any other value has no members. */
  function Get(v: Json, key: String): Option<Json> {
    if v.JObject? then Lookup(v.members, key) else None
  }

  /** Python's `a or b` on two looked-up values. */
  function Or(a: Option<Json>, b: Option<Json>): (r: Option<Json>)
    ensures TruthyOpt(a) ==> r == a
    ensures !TruthyOpt(a) ==> r == b
  {
    if TruthyOpt(a) then a else b
  }

  /** A looked-up value read as text: a string, and otherwise nothing. */
  function AsText(o: Option<Json>): (r: Option<String>)
    ensures r.Some? <==> o.Some? && o.value.JString?
  {
    if o.Some? && o.value.JString? then Some(o.value.s) else None
  }

  /** `_first_of`: the first element of a list (nothing for an empty one), any other value unchanged. */
  function FirstOf(o: Option<Json>): (r: Option<Json>)
    ensures o.Some? && o.value.JArray? && o.value.items != [] ==> r == Some(o.value.items[0])
    ensures o.Some? && o.value.JArray? && o.value.items == [] ==> r.None?
    ensures o.None? || !o.value.JArray? ==> r == o
  {
    match o
    case Some(JArray(items)) => if items == [] then None else Some(items[0])
    case _ => o
  }

  function Flatten<T(!new)>(parts: seq<seq<T>>): (r: seq<T>)
    ensures forall x :: x in r <==> exists i :: 0 <= i < |parts| && x in parts[i]
  {
    if parts == [] then []
    else
      var rest := Flatten(parts[1..]);
      assert forall i :: 1 <= i < |parts| ==> parts[1..][i - 1] == parts[i];
      parts[0] + rest
  }

  /**
   * `_iter_json_nodes`: every object in `v`, in pre-order (an object before
   * the objects among its values, which are taken key by key as the decoded
   * object holds them, and list items in order).
   */
  function Nodes(v: Json): (r: seq<Json>)
    ensures forall n :: n in r ==> n.JObject?
    ensures v.JObject? ==> r != [] && r[0] == v
    ensures !v.JObject? && !v.JArray? ==> r == []
    decreases v, 1
  {
    match v
    case JObject(members) => [v] + Flatten(MemberWalks(v, Canonical(members)))
    case JArray(items) =>
      Flatten(seq(|items|, i requires 0 <= i < |items| => Nodes(items[i])))
    case _ => []
  }

  /** The walks of the values of `dict`, the decoded members of object `v`. */
  function MemberWalks(v: Json, dict: seq<(String, Json)>): (r: seq<seq<Json>>)
    requires v.JObject? && forall i :: 0 <= i < |dict| ==> dict[i] in v.members
    ensures |r| == |dict| && forall i :: 0 <= i < |dict| ==> r[i] == Nodes(dict[i].1)
    decreases v, 0
  {
    seq(|dict|, i requires 0 <= i < |dict| => Nodes(dict[i].1))
  }

  /** Whether a node's `@type` is the text `Product` or `ProductGroup`. */
  predicate IsProductNode(n: Json) {
    n.JObject? && Get(n, "@type") in {Some(JString("Product")), Some(JString("ProductGroup"))}
  }

  /**
   * The first product node of a walk. A node whose `@type` is not a text
   * (a list of types, say) is passed over like any other non-product node.
   */
  function FirstProduct(nodes: seq<Json>): (r: Option<Json>)
    ensures r.None? <==> forall i :: 0 <= i < |nodes| ==> !IsProductNode(nodes[i])
    ensures r.Some? ==> exists i :: 0 <= i < |nodes| && nodes[i] == r.value && IsProductNode(r.value)
                                   && (forall j :: 0 <= j < i ==> !IsProductNode(nodes[j]))
  {
    if nodes == [] then None
    else if IsProductNode(nodes[0]) then Some(nodes[0])
    else
      var r := FirstProduct(nodes[1..]);
      assert forall i :: 1 <= i < |nodes| ==> nodes[1..][i - 1] == nodes[i];
      r
  }

  /** How testing one node's `@type` against the product types ends. */
  datatype Scan = Found(node: Json) | NotFound | Unhashable

  /**
   * The walk as the membership test runs it: a list or object `@type` cannot
   * be looked up in a set, and the `TypeError` ends the whole parse.
   */
  function FirstProductAsWritten(nodes: seq<Json>): Scan {
    if nodes == [] then NotFound
    else
      var t := Get(nodes[0], "@type");
      if t.Some? && (t.value.JArray? || t.value.JObject?) then Unhashable
      else if IsProductNode(nodes[0]) then Found(nodes[0])
      else FirstProductAsWritten(nodes[1..])
  }

  /** The two walks agree on every node sequence without a list- or object-valued `@type`. */
  lemma {:induction false} FirstProductAgrees(nodes: seq<Json>)
    requires forall i :: 0 <= i < |nodes| ==> var t := Get(nodes[i], "@type");
      t.None? || !(t.value.JArray? || t.value.JObject?)
    ensures FirstProductAsWritten(nodes) == (if FirstProduct(nodes).Some? then Found(FirstProduct(nodes).value) else NotFound)
  {
    if nodes != [] {
      assert forall i :: 1 <= i < |nodes| ==> nodes[1..][i - 1] == nodes[i];
      FirstProductAgrees(nodes[1..]);
    }
  }

  lemma NodesOfArray(items: seq<Json>, parts: seq<seq<Json>>)
    requires |parts| == |items|
    requires forall i :: 0 <= i < |items| ==> parts[i] == Nodes(items[i])
    ensures Nodes(JArray(items)) == Flatten(parts)
  {
    assert seq(|items|, i requires 0 <= i < |items| => Nodes(items[i])) == parts;
  }

  lemma NodesOfObject(members: seq<(String, Json)>, parts: seq<seq<Json>>)
    requires forall i, j :: 0 <= i < j < |members| ==> members[i].0 != members[j].0
    requires |parts| == |members|
    requires forall i :: 0 <= i < |members| ==> parts[i] == Nodes(members[i].1)
    ensures Nodes(JObject(members)) == [JObject(members)] + Flatten(parts)
  {
    CanonicalOfDistinct(members);
    NodesOfDecoded(members, parts);
  }

  lemma NodesOfDecoded(members: seq<(String, Json)>, parts: seq<seq<Json>>)
    requires Canonical(members) == members
    requires |parts| == |members|
    requires forall i :: 0 <= i < |members| ==> parts[i] == Nodes(members[i].1)
    ensures Nodes(JObject(members)) == [JObject(members)] + Flatten(parts)
  {
    var v := JObject(members);
    assert MemberWalks(v, members) == parts;
  }

  lemma {:induction false} FlattenEmpty(parts: seq<seq<Json>>)
    requires forall i :: 0 <= i < |parts| ==> parts[i] == []
    ensures Flatten(parts) == []
  {
    if parts != [] {
      assert forall i :: 0 <= i < |parts[1..]| ==> parts[1..][i] == parts[i + 1];
      FlattenEmpty(parts[1..]);
    }
  }

  /** An object none of whose values holds an object is a walk of one node. */
  lemma LeafObjectNodes(members: seq<(String, Json)>)
    requires forall i, j :: 0 <= i < j < |members| ==> members[i].0 != members[j].0
    requires forall i :: 0 <= i < |members| ==> Nodes(members[i].1) == []
    ensures Nodes(JObject(members)) == [JObject(members)]
  {
    var parts := seq(|members|, i requires 0 <= i < |members| => []);
    NodesOfObject(members, parts);
    FlattenEmpty(parts);
  }

  /** The walk of a two-node graph whose nodes hold only scalars and a list of scalars. */
  lemma TwoNodeWalk(listTyped: Json, product: Json)
    requires listTyped == JObject([("@type", JArray([JString("Product")]))])
    requires product == JObject([("@type", JString("Product")), ("name", JString("Cream"))])
    ensures Nodes(JArray([listTyped, product])) == [listTyped, product]
  {
    ScalarNodes(JArray([JString("Product")]));
    ScalarNodes(JString("Product"));
    ScalarNodes(JString("Cream"));
    OneMemberLeaf("@type", JArray([JString("Product")]));
    TwoMemberLeaf("@type", JString("Product"), "name", JString("Cream"));
    PairWalk(listTyped, product);
  }

  /** A text, or a list of texts, holds no object. */
  lemma ScalarNodes(v: Json)
    requires v.JString? || (v.JArray? && forall i :: 0 <= i < |v.items| ==> v.items[i].JString?)
    ensures Nodes(v) == []
  {
    if v.JArray? {
      var parts := seq(|v.items|, i requires 0 <= i < |v.items| => []);
      NodesOfArray(v.items, parts);
      FlattenEmpty(parts);
    }
  }

  lemma OneMemberLeaf(k: String, v: Json)
    requires Nodes(v) == []
    ensures Nodes(JObject([(k, v)])) == [JObject([(k, v)])]
  {
    LeafObjectNodes([(k, v)]);
  }

  lemma TwoMemberLeaf(k1: String, v1: Json, k2: String, v2: Json)
    requires k1 != k2 && Nodes(v1) == [] && Nodes(v2) == []
    ensures Nodes(JObject([(k1, v1), (k2, v2)])) == [JObject([(k1, v1), (k2, v2)])]
  {
    LeafObjectNodes([(k1, v1), (k2, v2)]);
  }

  lemma PairWalk(a: Json, b: Json)
    requires Nodes(a) == [a] && Nodes(b) == [b]
    ensures Nodes(JArray([a, b])) == [a, b]
  {
    assert Flatten([[a], [b]]) == [a, b] by {
      assert [[a], [b]][1..] == [[b]];
      assert Flatten([[b]]) == [b] by {
        assert [[b]][1..] == [];
      }
    }
    NodesOfArray([a, b], [[a], [b]]);
  }

  /**
   * A JSON-LD graph whose first node lists its types, followed by a plain
   * `Product` node: the membership test aborts, the intended search finds
   * the product.
   */
  lemma ListTypeAbortsSearch()
    ensures var listTyped := JObject([("@type", JArray([JString("Product")]))]);
      var product := JObject([("@type", JString("Product")), ("name", JString("Cream"))]);
      var doc := JArray([listTyped, product]);
      FirstProductAsWritten(Nodes(doc)) == Unhashable
      && FirstProduct(Nodes(doc)) == Some(product)
  {
    var listTyped := JObject([("@type", JArray([JString("Product")]))]);
    var product := JObject([("@type", JString("Product")), ("name", JString("Cream"))]);
    TwoNodeWalk(listTyped, product);
    assert Get(listTyped, "@type") == Some(JArray([JString("Product")]));
    assert IsProductNode(product);
    assert [listTyped, product][1..] == [product];
  }
}
