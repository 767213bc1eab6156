/**
 * Python's ordering of strings, `sorted(...)` over sets of strings, and the
 * "append if not already seen" pattern the scraper uses for link lists and
 * for the discovery stream.
 */
module Ordering {
  import opened Text

  /** Python's `a < b` on strings: code-point lexicographic, a proper prefix first. */
  predicate Less(a: String, b: String)
    decreases |a|
  {
    if a == [] then b != []
    else if b == [] then false
    else if a[0] != b[0] then a[0] < b[0]
    else Less(a[1..], b[1..])
  }

  lemma {:induction false} LessIrreflexive(a: String)
    ensures !Less(a, a)
  {
    if a != [] {
      LessIrreflexive(a[1..]);
    }
  }

  lemma {:induction false} LessTransitive(a: String, b: String, c: String)
    requires Less(a, b) && Less(b, c)
    ensures Less(a, c)
  {
    if a != [] && b != [] && c != [] && a[0] == b[0] && b[0] == c[0] {
      LessTransitive(a[1..], b[1..], c[1..]);
    }
  }

  lemma {:induction false} LessTotal(a: String, b: String)
    requires a != b
    ensures Less(a, b) || Less(b, a)
  {
    if a != [] && b != [] && a[0] == b[0] {
      assert a == [a[0]] + a[1..] && b == [b[0]] + b[1..];
      LessTotal(a[1..], b[1..]);
    }
  }

  lemma LessAsymmetric(a: String, b: String)
    requires Less(a, b)
    ensures !Less(b, a)
  {
    if Less(b, a) {
      LessTransitive(a, b, a);
      LessIrreflexive(a);
    }
  }

  predicate StrictlySorted(s: seq<String>) {
    forall i, j :: 0 <= i < j < |s| ==> Less(s[i], s[j])
  }

  predicate NoDup<T(==,!new)>(s: seq<T>) {
    forall i, j :: 0 <= i < j < |s| ==> s[i] != s[j]
  }

  lemma StrictlySortedNoDup(s: seq<String>)
    requires StrictlySorted(s)
    ensures NoDup(s)
  {
    forall i, j | 0 <= i < j < |s| ensures s[i] != s[j] {
      if s[i] == s[j] {
        LessIrreflexive(s[i]);
      }
    }
  }

  /** Lists with the same members are empty together. */
  lemma EmptyByMembers(a: seq<String>, b: seq<String>)
    requires forall y :: y in a <==> y in b
    ensures a == [] <==> b == []
  {
    if a != [] {
      assert a[0] in b;
    }
    if b != [] {
      assert b[0] in a;
    }
  }

  /** A strictly sorted list is fixed by its members: two with the same members are equal. */
  lemma {:induction false} SortedByMembers(a: seq<String>, b: seq<String>)
    requires StrictlySorted(a) && StrictlySorted(b)
    requires forall y :: y in a <==> y in b
    ensures a == b
    decreases |a|
  {
    EmptyByMembers(a, b);
    if a != [] {
      assert a[0] in b && b != [] && b[0] in a;
      if a[0] != b[0] {
        var k :| 0 <= k < |a| && a[k] == b[0];
        var m :| 0 <= m < |b| && b[m] == a[0];
        assert Less(a[0], b[0]) && Less(b[0], a[0]);
        LessAsymmetric(a[0], b[0]);
      }
      forall y | y in a[1..] ensures y in b[1..] {
        var k :| 0 <= k < |a[1..]| && a[1..][k] == y;
        assert a[k + 1] == y && Less(a[0], y);
        LessIrreflexive(y);
        assert y in a && y in b;
        var m :| 0 <= m < |b| && b[m] == y;
        assert m != 0;
      }
      forall y | y in b[1..] ensures y in a[1..] {
        var k :| 0 <= k < |b[1..]| && b[1..][k] == y;
        assert b[k + 1] == y && Less(b[0], y);
        LessIrreflexive(y);
        assert y in b && y in a;
        var m :| 0 <= m < |a| && a[m] == y;
        assert m != 0;
      }
      SortedByMembers(a[1..], b[1..]);
      assert a == [a[0]] + a[1..] && b == [b[0]] + b[1..];
    }
  }

  /** Inserts `x` into a strictly sorted list unless it is already there. */
  function Insert(x: String, s: seq<String>): (r: seq<String>)
    requires StrictlySorted(s)
    ensures StrictlySorted(r)
    ensures forall y :: y in r <==> y == x || y in s
  {
    if s == [] then [x]
    else if x == s[0] then s
    else if Less(x, s[0]) then
      assert forall j :: 0 <= j < |s| ==> Less(x, s[j]) by {
        forall j | 0 < j < |s| ensures Less(x, s[j]) {
          LessTransitive(x, s[0], s[j]);
        }
      }
      [x] + s
    else
      LessTotal(x, s[0]);
      var tail := Insert(x, s[1..]);
      assert forall y :: y in s[1..] ==> Less(s[0], y) by {
        forall y | y in s[1..] ensures Less(s[0], y) {
          var j :| 0 <= j < |s[1..]| && s[1..][j] == y;
          assert s[j + 1] == y;
        }
      }
      [s[0]] + tail
  }

  /** The distinct non-empty strings of `s`, in ascending order. */
  function SortedUnique(s: seq<String>): (r: seq<String>)
    ensures StrictlySorted(r)
    ensures forall y :: y in r <==> y in s && y != ""
  {
    if s == [] then []
    else
      var r := SortedUnique(s[..|s| - 1]);
      assert s == s[..|s| - 1] + [s[|s| - 1]];
      if s[|s| - 1] == "" then r else Insert(s[|s| - 1], r)
  }

  /** `sorted(links)` for a set of strings. */
  method SortSet(s: set<String>) returns (r: seq<String>)
    ensures StrictlySorted(r)
    ensures forall y :: y in r <==> y in s
  {
    r := [];
    var rest := s;
    while rest != {}
      invariant rest <= s
      invariant StrictlySorted(r)
      invariant forall y :: y in r <==> y in s && y !in rest
      decreases rest
    {
      var x :| x in rest;
      r := Insert(x, r);
      rest := rest - {x};
    }
  }

  /**
   * The list built by appending each element of `s` not already present:
   * the first occurrence of every element, in order.
   */
  function Dedup<T(==,!new)>(s: seq<T>): (r: seq<T>)
    ensures NoDup(r)
    ensures forall x :: x in r <==> x in s
  {
    if s == [] then []
    else
      var d := Dedup(s[..|s| - 1]);
      assert s == s[..|s| - 1] + [s[|s| - 1]];
      if s[|s| - 1] in d then d else d + [s[|s| - 1]]
  }

  /** Appending one element is the `append` step of the loop. */
  lemma DedupSnoc<T(!new)>(s: seq<T>, x: T)
    ensures Dedup(s + [x]) == if x in s then Dedup(s) else Dedup(s) + [x]
  {
    assert (s + [x])[..|s|] == s;
  }

  /** The elements of `b` that are neither in `a` nor earlier in `b`, in order. */
  function NewOf<T(==,!new)>(a: seq<T>, b: seq<T>): (r: seq<T>)
    ensures forall x :: x in r ==> x !in a && x in b
  {
    if b == [] then []
    else
      var n := NewOf(a, b[..|b| - 1]);
      var x := b[|b| - 1];
      if x in a || x in n then n else n + [x]
  }

  lemma ConcatSnoc<T>(a: seq<T>, b: seq<T>)
    requires b != []
    ensures a + b == (a + b[..|b| - 1]) + [b[|b| - 1]]
  {
    assert b == b[..|b| - 1] + [b[|b| - 1]];
  }

  lemma ConcatAssoc<T>(a: seq<T>, b: seq<T>, c: seq<T>)
    ensures (a + b) + c == a + (b + c)
  {
  }

  /**
   * Deduplicating a concatenation keeps the deduplicated first part as a
   * prefix; everything after it is absent from the first part.
   */
  lemma {:induction false} DedupConcat<T(!new)>(a: seq<T>, b: seq<T>)
    ensures Dedup(a + b) == Dedup(a) + NewOf(a, b)
  {
    if b == [] {
      assert a + b == a;
    } else {
      var b' := b[..|b| - 1];
      var x := b[|b| - 1];
      var n := NewOf(a, b');
      DedupConcat(a, b');
      ConcatSnoc(a, b);
      DedupSnoc(a + b', x);
      var d := Dedup(a + b');
      assert x in a + b' <==> x in d;
      assert x in d <==> x in Dedup(a) || x in n;
      assert x in Dedup(a) <==> x in a;
      if x in a || x in n {
        assert NewOf(a, b) == n;
        assert Dedup(a + b) == d;
      } else {
        assert NewOf(a, b) == n + [x];
        assert Dedup(a + b) == d + [x];
        ConcatAssoc(Dedup(a), n, [x]);
      }
    }
  }

  /** The position of the first occurrence of `x` in `s`. */
  function FirstIndex<T(==,!new)>(s: seq<T>, x: T): (k: nat)
    requires x in s
    ensures k < |s| && s[k] == x && x !in s[..k]
  {
    if s[0] == x then 0
    else
      var k := FirstIndex(s[1..], x);
      assert s[..k + 1] == [s[0]] + s[1..][..k];
      k + 1
  }

  lemma FirstIndexPrefix<T(!new)>(s: seq<T>, t: seq<T>, x: T)
    requires x in s
    ensures FirstIndex(s + t, x) == FirstIndex(s, x)
  {
    var k := FirstIndex(s, x);
    assert (s + t)[k] == x;
    assert (s + t)[..k] == s[..k];
  }

  /** Deduplication keeps first-seen order. */
  lemma {:induction false} DedupFirstSeenOrder<T(!new)>(s: seq<T>)
    ensures forall i, j :: 0 <= i < j < |Dedup(s)| ==>
      FirstIndex(s, Dedup(s)[i]) < FirstIndex(s, Dedup(s)[j])
  {
    if s != [] {
      var p := s[..|s| - 1];
      var x := s[|s| - 1];
      assert s == p + [x];
      DedupFirstSeenOrder(p);
      var d := Dedup(p);
      forall i, j | 0 <= i < j < |Dedup(s)|
        ensures FirstIndex(s, Dedup(s)[i]) < FirstIndex(s, Dedup(s)[j])
      {
        assert d[i] in p;
        FirstIndexPrefix(p, [x], d[i]);
        if j < |d| {
          assert d[j] in p;
          FirstIndexPrefix(p, [x], d[j]);
        } else {
          assert Dedup(s)[j] == x && x !in p;
          assert s[..|p|] == p;
        }
      }
    }
  }
}
