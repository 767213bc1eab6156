/**
 * The Python string operations the scraper relies on (`lower`, `strip`,
 * `split`, `" ".join`, `startswith`, `title`, `in`), stated over ASCII.
 */
module Text {
  import opened Options

  type String = seq<char>

  /** `str.isspace()` on the ASCII range. */
  predicate IsSpace(c: char) {
    c == ' ' || c == '\t' || c == '\n' || c == '\r' || c == '\U{000B}' || c == '\U{000C}'
    || ('\U{001C}' <= c <= '\U{001F}')
  }

  predicate AllSpace(s: String) {
    forall i :: 0 <= i < |s| ==> IsSpace(s[i])
  }

  predicate NoSpace(s: String) {
    forall i :: 0 <= i < |s| ==> !IsSpace(s[i])
  }

  predicate IsLetter(c: char) {
    'a' <= c <= 'z' || 'A' <= c <= 'Z'
  }

  function LowerChar(c: char): char {
    if 'A' <= c <= 'Z' then (c as int + 32) as char else c
  }

  function UpperChar(c: char): char {
    if 'a' <= c <= 'z' then (c as int - 32) as char else c
  }

  /** `s.lower()` */
  function Lower(s: String): (r: String)
    ensures |r| == |s|
    ensures forall i :: 0 <= i < |s| ==> r[i] == LowerChar(s[i])
  {
    seq(|s|, i requires 0 <= i < |s| => LowerChar(s[i]))
  }

  /** Lower-casing twice is lower-casing once, so a key computed from an already lower-cased text is unchanged. */
  lemma LowerIdempotent(s: String)
    ensures Lower(Lower(s)) == Lower(s)
  {
  }

  /** A truthy Python string: present and non-empty. */
  predicate Present(o: Option<String>) {
    o.Some? && o.value != ""
  }

  /** Python's `a or b` on optional strings. */
  function OrElse(a: Option<String>, b: Option<String>): (r: Option<String>)
    ensures Present(a) ==> r == a
    ensures !Present(a) ==> r == b
  {
    if Present(a) then a else b
  }

  /** `s.startswith(p)` */
  predicate StartsWith(s: String, p: String) {
    |p| <= |s| && s[..|p|] == p
  }

  /** `sub in s` */
  predicate Contains(s: String, sub: String)
    decreases |s|
  {
    StartsWith(s, sub) || (s != [] && Contains(s[1..], sub))
  }

  /** `s.lstrip()` */
  function LStrip(s: String): (r: String)
    ensures |r| <= |s| && r == s[|s| - |r|..]
    ensures r != [] ==> !IsSpace(r[0])
    ensures AllSpace(s[..|s| - |r|])
  {
    if s != [] && IsSpace(s[0]) then
      var r := LStrip(s[1..]);
      assert s[1..][..|s| - 1 - |r|] == s[1..|s| - |r|];
      r
    else s
  }

  /** `s.rstrip()` */
  function RStrip(s: String): (r: String)
    ensures |r| <= |s| && r == s[..|r|]
    ensures r != [] ==> !IsSpace(r[|r| - 1])
    ensures AllSpace(s[|r|..])
  {
    if s != [] && IsSpace(s[|s| - 1]) then
      var r := RStrip(s[..|s| - 1]);
      assert s[..|s| - 1][|r|..] + [s[|s| - 1]] == s[|r|..];
      r
    else s
  }

  /** `s.strip()`: the text between the leading and the trailing whitespace. */
  function Strip(s: String): (r: String)
    ensures r == [] ==> AllSpace(s)
    ensures r != [] ==> !IsSpace(r[0]) && !IsSpace(r[|r| - 1])
    ensures |r| <= |s|
  {
    var l := LStrip(s);
    var r := RStrip(l);
    StripFacts(s, |s| - |l|, l, r);
    r
  }

  /**
   * `s.strip()` removes exactly a whitespace prefix and a whitespace suffix
   * of `s`, and is empty only for an all-whitespace text.
   */
  lemma StripSpan(s: String)
    ensures Strip(s) == [] <==> AllSpace(s)
    ensures exists k :: 0 <= k <= |s| - |Strip(s)| && Strip(s) == s[k..k + |Strip(s)|]
                        && AllSpace(s[..k]) && AllSpace(s[k + |Strip(s)|..])
  {
    var l := LStrip(s);
    var r := RStrip(l);
    var k := |s| - |l|;
    assert Strip(s) == r;
    StripFacts(s, k, l, r);
    assert 0 <= k <= |s| - |r| && r == s[k..k + |r|] && AllSpace(s[..k]) && AllSpace(s[k + |r|..]);
  }

  /** `s.strip()` is empty exactly for an all-whitespace text. */
  lemma StripBlank(s: String)
    ensures Strip(s) == [] <==> AllSpace(s)
  {
    var l := LStrip(s);
    StripFacts(s, |s| - |l|, l, RStrip(l));
  }

  /** `r`, the text `l` without trailing whitespace, where `l` is `s` from `k` on, with whitespace only before `k`. */
  lemma StripFacts(s: String, k: nat, l: String, r: String)
    requires k <= |s| && l == s[k..] && AllSpace(s[..k]) && (l != [] ==> !IsSpace(l[0]))
    requires |r| <= |l| && r == l[..|r|] && AllSpace(l[|r|..]) && (r != [] ==> !IsSpace(r[|r| - 1]))
    ensures r == [] <==> AllSpace(s)
    ensures r != [] ==> !IsSpace(r[0])
    ensures r == s[k..k + |r|] && AllSpace(s[k + |r|..])
  {
    assert s[k + |r|..] == l[|r|..];
    if r == [] {
      assert s == s[..k] + l;
      AllSpaceConcat(s[..k], l);
    } else {
      assert s[k] == r[0];
    }
  }

  lemma AllSpaceConcat(a: String, b: String)
    requires AllSpace(a) && AllSpace(b)
    ensures AllSpace(a + b)
  {
  }

  /** `s.lstrip(c)` for one character `c`. */
  function LStripChar(s: String, c: char): (r: String)
    ensures |r| <= |s| && r == s[|s| - |r|..]
    ensures r != [] ==> r[0] != c
    ensures forall i :: 0 <= i < |s| - |r| ==> s[i] == c
  {
    if s != [] && s[0] == c then LStripChar(s[1..], c) else s
  }

  /** `s.rstrip(c)` for one character `c`. */
  function RStripChar(s: String, c: char): (r: String)
    ensures |r| <= |s| && r == s[..|r|]
    ensures r != [] ==> r[|r| - 1] != c
    ensures forall i :: |r| <= i < |s| ==> s[i] == c
  {
    if s != [] && s[|s| - 1] == c then RStripChar(s[..|s| - 1], c) else s
  }

  /** `s.split(c, 1)[0]`: the text before the first `c`. */
  function CutAt(s: String, c: char): (r: String)
    ensures |r| <= |s| && r == s[..|r|]
    ensures c !in r
    ensures |r| < |s| ==> s[|r|] == c
  {
    if s == [] then []
    else if s[0] == c then []
    else
      var t := CutAt(s[1..], c);
      assert s[..|t| + 1] == [s[0]] + s[1..][..|t|];
      [s[0]] + t
  }

  /** `s.split(c)[-1]`: the text after the last `c`. */
  function AfterLast(s: String, c: char): (r: String)
    ensures |r| <= |s| && r == s[|s| - |r|..]
    ensures c !in r
    ensures |r| < |s| ==> s[|s| - |r| - 1] == c
  {
    if s == [] || s[|s| - 1] == c then []
    else AfterLast(s[..|s| - 1], c) + [s[|s| - 1]]
  }

  /** `s.replace(a, b)` for single characters. */
  function ReplaceChar(s: String, a: char, b: char): (r: String)
    ensures |r| == |s|
    ensures forall i :: 0 <= i < |s| && s[i] == a ==> r[i] == b
    ensures forall i :: 0 <= i < |s| && s[i] != a ==> r[i] == s[i]
    ensures a != b ==> a !in r
  {
    seq(|s|, i requires 0 <= i < |s| => if s[i] == a then b else s[i])
  }

  /**
   * `s.title()`: a letter that follows a letter is lower-cased, every other
   * letter is upper-cased.
   */
  function Title(s: String): (r: String)
    ensures |r| == |s|
  {
    seq(|s|, i requires 0 <= i < |s| =>
      if !IsLetter(s[i]) then s[i]
      else if i > 0 && IsLetter(s[i - 1]) then LowerChar(s[i])
      else UpperChar(s[i]))
  }

  /** `s.split(c)`: the pieces between occurrences of `c`, always at least one. */
  function Split(s: String, c: char): (r: seq<String>)
    ensures |r| >= 1
    ensures forall p :: p in r ==> c !in p
    decreases |s|
  {
    var head := CutAt(s, c);
    if |head| == |s| then [s] else [head] + Split(s[|head| + 1..], c)
  }

  /** Joining the pieces of `s.split(c)` with `c` gives back `s`. */
  lemma {:induction false} SplitJoin(s: String, c: char)
    ensures JoinWith([c], Split(s, c)) == s
    decreases |s|
  {
    var head := CutAt(s, c);
    if |head| < |s| {
      var rest := s[|head| + 1..];
      SplitJoin(rest, c);
      var tail := Split(rest, c);
      assert ([head] + tail)[1..] == tail;
      assert s == head + [c] + rest;
    }
  }

  /** Splitting on `c` a join with `c` of pieces free of `c` gives back the pieces. */
  lemma {:induction false} JoinSplit(parts: seq<String>, c: char)
    requires parts != []
    requires forall p :: p in parts ==> c !in p
    ensures Split(JoinWith([c], parts), c) == parts
  {
    assert parts[0] in parts;
    if |parts| == 1 {
      CutAtFree(parts[0], c);
    } else {
      assert forall p :: p in parts[1..] ==> p in parts;
      JoinSplit(parts[1..], c);
      SplitCons(parts[0], c, JoinWith([c], parts[1..]));
      assert [parts[0]] + parts[1..] == parts;
    }
  }

  /** A piece free of `c`, then `c`, then `b` splits into that piece followed by the pieces of `b`. */
  lemma SplitCons(a: String, c: char, b: String)
    requires c !in a
    ensures Split(a + [c] + b, c) == [a] + Split(b, c)
  {
    var s := a + [c] + b;
    CutAtBefore(a, [c] + b, c);
    assert s == a + ([c] + b);
    assert s[|a| + 1..] == b;
  }

  lemma CutAtFree(s: String, c: char)
    requires c !in s
    ensures CutAt(s, c) == s
  {
  }

  lemma {:induction false} CutAtBefore(a: String, b: String, c: char)
    requires c !in a && b != [] && b[0] == c
    ensures CutAt(a + b, c) == a
  {
    if a != [] {
      assert a[0] in a;
      assert (a + b)[1..] == a[1..] + b;
      CutAtBefore(a[1..], b, c);
    }
  }

  /** The number of leading characters of `s` that are not whitespace. */
  function WordLength(s: String): (n: nat)
    ensures n <= |s|
    ensures NoSpace(s[..n])
    ensures n < |s| ==> IsSpace(s[n])
  {
    if s == [] || IsSpace(s[0]) then 0
    else
      var n := WordLength(s[1..]);
      assert s[..n + 1] == [s[0]] + s[1..][..n];
      n + 1
  }

  /** `s.split()`: the maximal runs of non-whitespace characters, in order. */
  function Words(s: String): (r: seq<String>)
    ensures forall w :: w in r ==> w != [] && NoSpace(w)
    ensures r == [] <==> AllSpace(s)
    decreases |s|
  {
    if s == [] then []
    else if IsSpace(s[0]) then
      var r := Words(s[1..]);
      assert AllSpace(s) <==> AllSpace(s[1..]);
      r
    else
      var n := WordLength(s);
      var rest := Words(s[n..]);
      ConsWord(s[..n], rest);
      [s[..n]] + rest
  }

  lemma ConsWord(w: String, rest: seq<String>)
    requires w != [] && NoSpace(w)
    requires forall x :: x in rest ==> x != [] && NoSpace(x)
    ensures forall x :: x in [w] + rest ==> x != [] && NoSpace(x)
  {
    assert forall x :: x in [w] + rest ==> x == w || x in rest;
  }

  lemma NotAllSpace(s: String, k: nat)
    requires k < |s| && !IsSpace(s[k])
    ensures !AllSpace(s)
  {
  }

  /** A leading whitespace character does not change the words. */
  lemma WordsLeadingSpace(c: char, s: String)
    requires IsSpace(c)
    ensures Words([c] + s) == Words(s)
  {
    assert ([c] + s)[0] == c;
    assert ([c] + s)[1..] == s;
  }

  /** A word followed by whitespace (or by nothing) is the first word. */
  lemma {:induction false} WordsCons(w: String, x: String)
    requires w != [] && NoSpace(w)
    requires x == [] || IsSpace(x[0])
    ensures Words(w + x) == [w] + Words(x)
  {
    var s := w + x;
    assert s[0] == w[0];
    WordLengthOf(w, x);
    assert s[..|w|] == w && s[|w|..] == x;
  }

  lemma {:induction false} WordLengthOf(w: String, x: String)
    requires NoSpace(w)
    requires x == [] || IsSpace(x[0])
    ensures WordLength(w + x) == |w|
  {
    if w != [] {
      assert (w + x)[0] == w[0];
      assert (w + x)[1..] == w[1..] + x;
      WordLengthOf(w[1..], x);
    }
  }

  /** `s.split()` splits at every whitespace character. */
  lemma {:induction false} WordsSplitAtSpace(a: String, c: char, b: String)
    requires IsSpace(c)
    ensures Words(a + [c] + b) == Words(a) + Words(b)
    decreases |a|
  {
    if a == [] {
      assert a + [c] + b == [c] + b;
      WordsLeadingSpace(c, b);
    } else if IsSpace(a[0]) {
      assert a + [c] + b == [a[0]] + (a[1..] + [c] + b);
      WordsLeadingSpace(a[0], a[1..] + [c] + b);
      WordsSplitAtSpace(a[1..], c, b);
    } else {
      var n := WordLength(a);
      var w, u := a[..n], a[n..];
      assert a == w + u;
      assert a + [c] + b == w + (u + [c] + b);
      WordsCons(w, u + [c] + b);
      WordsSplitAtSpace(u, c, b);
    }
  }

  /** The non-whitespace characters of `s`, in order. */
  function NonSpace(s: String): (r: String)
    ensures NoSpace(r)
  {
    if s == [] then []
    else (if IsSpace(s[0]) then [] else [s[0]]) + NonSpace(s[1..])
  }

  lemma {:induction false} NonSpaceConcat(a: String, b: String)
    ensures NonSpace(a + b) == NonSpace(a) + NonSpace(b)
  {
    if a != [] {
      var h := if IsSpace(a[0]) then [] else [a[0]];
      assert (a + b)[0] == a[0];
      assert (a + b)[1..] == a[1..] + b;
      calc {
        NonSpace(a + b);
        h + NonSpace(a[1..] + b);
        { NonSpaceConcat(a[1..], b); }
        h + (NonSpace(a[1..]) + NonSpace(b));
        (h + NonSpace(a[1..])) + NonSpace(b);
        NonSpace(a) + NonSpace(b);
      }
    } else {
      assert a + b == b;
    }
  }

  lemma {:induction false} NonSpaceOfWord(s: String)
    requires NoSpace(s)
    ensures NonSpace(s) == s
  {
    if s != [] {
      NonSpaceOfWord(s[1..]);
    }
  }

  /** `"".join(parts)` */
  function Glued(parts: seq<String>): String {
    if parts == [] then [] else parts[0] + Glued(parts[1..])
  }

  /** The words of `s` hold exactly its non-whitespace characters, in order. */
  lemma {:induction false} WordsContent(s: String)
    ensures Glued(Words(s)) == NonSpace(s)
    decreases |s|
  {
    if s != [] {
      if IsSpace(s[0]) {
        WordsContent(s[1..]);
      } else {
        var n := WordLength(s);
        assert s == s[..n] + s[n..];
        NonSpaceConcat(s[..n], s[n..]);
        NonSpaceOfWord(s[..n]);
        WordsContent(s[n..]);
        assert ([s[..n]] + Words(s[n..]))[1..] == Words(s[n..]);
      }
    }
  }

  /** `" ".join(ws).split()` gives back words `ws`. */
  lemma {:induction false} WordsOfJoin(ws: seq<String>)
    requires forall w :: w in ws ==> w != [] && NoSpace(w)
    ensures Words(JoinWith(" ", ws)) == ws
  {
    if ws == [] {
    } else if |ws| == 1 {
      assert ws[0] in ws;
      WordsCons(ws[0], []);
      assert ws[0] + [] == ws[0];
    } else {
      assert ws[0] in ws;
      assert forall w :: w in ws[1..] ==> w in ws;
      WordsOfJoin(ws[1..]);
      WordsSplitAtSpace(ws[0], ' ', JoinWith(" ", ws[1..]));
      assert ws[0] + " " + JoinWith(" ", ws[1..]) == ws[0] + [' '] + JoinWith(" ", ws[1..]);
      WordsCons(ws[0], []);
      assert ws[0] + [] == ws[0];
      assert [ws[0]] + ws[1..] == ws;
    }
  }

  /** `sep.join(parts)` */
  function JoinWith(sep: String, parts: seq<String>): String
  {
    if parts == [] then []
    else if |parts| == 1 then parts[0]
    else parts[0] + sep + JoinWith(sep, parts[1..])
  }

  /** Each part stripped. */
  function Stripped(parts: seq<String>): (r: seq<String>)
    ensures |r| == |parts|
    ensures forall i :: 0 <= i < |parts| ==> r[i] == Strip(parts[i])
  {
    seq(|parts|, i requires 0 <= i < |parts| => Strip(parts[i]))
  }

  /** The non-empty texts of `xs`, in order. */
  function NonEmpty(xs: seq<String>): (r: seq<String>)
    ensures forall p :: p in r ==> p != [] && p in xs
    ensures r == [] <==> forall i :: 0 <= i < |xs| ==> xs[i] == []
  {
    if xs == [] then []
    else
      var rest := NonEmpty(xs[1..]);
      assert forall i :: 1 <= i < |xs| ==> xs[1..][i - 1] == xs[i];
      if xs[0] == [] then rest else [xs[0]] + rest
  }

  lemma {:induction false} NonEmptyHas(xs: seq<String>, i: nat)
    requires i < |xs| && xs[i] != []
    ensures xs[i] in NonEmpty(xs)
  {
    if i > 0 {
      assert xs[i] == xs[1..][i - 1];
      NonEmptyHas(xs[1..], i - 1);
    }
  }

  /** The parts whose stripped form is non-empty, stripped, in order. */
  function StrippedNonBlank(parts: seq<String>): (r: seq<String>)
    ensures forall p :: p in r ==> p != [] && !IsSpace(p[0])
    ensures r == [] <==> forall i :: 0 <= i < |parts| ==> AllSpace(parts[i])
  {
    var xs := Stripped(parts);
    forall i | 0 <= i < |parts|
      ensures xs[i] == [] <==> AllSpace(parts[i])
    {
      StripBlank(parts[i]);
    }
    NonEmpty(xs)
  }

  /**
   * The parts kept are exactly the stripped forms that are not empty, each
   * taken from a part of `parts`, in the order of the parts.
   */
  lemma StrippedNonBlankKeeps(parts: seq<String>)
    ensures forall i :: 0 <= i < |parts| && Strip(parts[i]) != [] ==> Strip(parts[i]) in StrippedNonBlank(parts)
    ensures forall p :: p in StrippedNonBlank(parts) ==> exists i :: 0 <= i < |parts| && p == Strip(parts[i]) != []
  {
    var xs := Stripped(parts);
    forall i | 0 <= i < |parts| && Strip(parts[i]) != []
      ensures Strip(parts[i]) in StrippedNonBlank(parts)
    {
      NonEmptyHas(xs, i);
    }
    forall p | p in StrippedNonBlank(parts)
      ensures exists i :: 0 <= i < |parts| && p == Strip(parts[i]) != []
    {
      var i :| 0 <= i < |xs| && xs[i] == p;
    }
  }

  /** The words of every part, in order. */
  function AllWords(parts: seq<String>): seq<String> {
    if parts == [] then [] else Words(parts[0]) + AllWords(parts[1..])
  }

  lemma {:induction false} WordsOfJoinedParts(parts: seq<String>)
    ensures Words(JoinWith(" ", parts)) == AllWords(parts)
  {
    if parts == [] {
      assert AllSpace([]);
    } else if |parts| == 1 {
    } else {
      WordsOfJoinedParts(parts[1..]);
      assert parts[0] + " " + JoinWith(" ", parts[1..]) == parts[0] + [' '] + JoinWith(" ", parts[1..]);
      WordsSplitAtSpace(parts[0], ' ', JoinWith(" ", parts[1..]));
    }
  }

  /** Stripping a text does not change its words. */
  lemma WordsOfStrip(s: String)
    ensures Words(Strip(s)) == Words(s)
  {
    LStripWords(s);
    RStripWords(LStrip(s));
  }

  lemma {:induction false} LStripWords(s: String)
    ensures Words(LStrip(s)) == Words(s)
  {
    if s != [] && IsSpace(s[0]) {
      LStripWords(s[1..]);
    }
  }

  lemma {:induction false} RStripWords(s: String)
    ensures Words(RStrip(s)) == Words(s)
  {
    if s != [] && IsSpace(s[|s| - 1]) {
      var init := s[..|s| - 1];
      assert RStrip(s) == RStrip(init);
      RStripWords(init);
      assert s == init + [s[|s| - 1]] + [];
      WordsSplitAtSpace(init, s[|s| - 1], []);
      assert AllSpace([]);
    }
  }

  lemma AllWordsStripped(parts: seq<String>)
    ensures AllWords(StrippedNonBlank(parts)) == AllWords(parts)
  {
    AllWordsNonEmpty(Stripped(parts));
    AllWordsOfStripped(parts);
  }

  lemma {:induction false} AllWordsNonEmpty(xs: seq<String>)
    ensures AllWords(NonEmpty(xs)) == AllWords(xs)
  {
    if xs != [] {
      AllWordsNonEmpty(xs[1..]);
      if xs[0] == [] {
        assert AllSpace(xs[0]);
      } else {
        assert ([xs[0]] + NonEmpty(xs[1..]))[1..] == NonEmpty(xs[1..]);
      }
    }
  }

  lemma {:induction false} AllWordsOfStripped(parts: seq<String>)
    ensures AllWords(Stripped(parts)) == AllWords(parts)
  {
    if parts != [] {
      var xs := Stripped(parts);
      assert xs[1..] == Stripped(parts[1..]);
      AllWordsOfStripped(parts[1..]);
      WordsOfStrip(parts[0]);
    }
  }

  lemma {:induction false} AllWordsConcat(a: seq<String>, b: seq<String>)
    ensures AllWords(a + b) == AllWords(a) + AllWords(b)
  {
    if a == [] {
      assert a + b == b;
    } else {
      assert (a + b)[0] == a[0];
      assert (a + b)[1..] == a[1..] + b;
      AllWordsConcat(a[1..], b);
    }
  }

  /** The stripped non-blank parts joined with single spaces. */
  function JoinStripped(parts: seq<String>): String
  {
    JoinWith(" ", StrippedNonBlank(parts))
  }

  /** `_normalize_text`: the words of the stripped, non-blank chunks joined by single spaces. */
  function NormalizeText(chunks: seq<String>): String
  {
    JoinWith(" ", Words(JoinStripped(chunks)))
  }

  /** A text with single spaces between words and no other whitespace. */
  predicate Normalized(s: String) {
    && (s != [] ==> s[0] != ' ' && s[|s| - 1] != ' ')
    && (forall i :: 0 <= i < |s| && IsSpace(s[i]) ==> s[i] == ' ')
    && (forall i, j :: 0 <= i < |s| && j == i + 1 && j < |s| && s[i] == ' ' ==> s[j] != ' ')
  }

  lemma {:induction false} JoinWordsNormalized(ws: seq<String>)
    requires forall w :: w in ws ==> w != [] && NoSpace(w)
    ensures Normalized(JoinWith(" ", ws))
    ensures JoinWith(" ", ws) == [] <==> ws == []
  {
    if |ws| > 1 {
      assert forall w :: w in ws[1..] ==> w in ws;
      JoinWordsNormalized(ws[1..]);
      var tail := JoinWith(" ", ws[1..]);
      var r := ws[0] + " " + tail;
      assert ws[0] in ws;
      forall i | 0 <= i < |r| && IsSpace(r[i])
        ensures r[i] == ' '
      {
        if i > |ws[0]| {
          assert r[i] == tail[i - |ws[0]| - 1];
        }
      }
      forall i, j | 0 <= i < |r| && j == i + 1 && j < |r| && r[i] == ' '
        ensures r[j] != ' '
      {
        if i == |ws[0]| {
          assert r[j] == tail[0];
        } else {
          assert r[i] == tail[i - |ws[0]| - 1];
          assert r[j] == tail[j - |ws[0]| - 1];
        }
      }
    } else if |ws| == 1 {
      assert ws[0] in ws;
    }
  }

  lemma {:induction false} JoinHasNonSpace(parts: seq<String>)
    requires parts != []
    requires forall p :: p in parts ==> p != [] && !IsSpace(p[0])
    ensures !AllSpace(JoinWith(" ", parts))
  {
    assert parts[0] in parts;
    if |parts| > 1 {
      assert JoinWith(" ", parts)[0] == parts[0][0];
    }
  }

  /**
   * `_normalize_text` yields the empty text exactly when every chunk is
   * blank, and otherwise single-space separated words with no surrounding
   * whitespace.
   */
  lemma NormalizeTextShape(chunks: seq<String>)
    ensures NormalizeText(chunks) == [] <==> forall i :: 0 <= i < |chunks| ==> AllSpace(chunks[i])
    ensures Normalized(NormalizeText(chunks))
  {
    var parts := StrippedNonBlank(chunks);
    JoinWordsNormalized(Words(JoinStripped(chunks)));
    if parts != [] {
      JoinHasNonSpace(parts);
    }
  }

  /**
   * `_normalize_text` is the words of all chunks, in order, joined by single
   * spaces: the same as `" ".join(" ".join(chunks).split())`, and splitting
   * it again gives back exactly those words.
   */
  lemma NormalizeTextWords(chunks: seq<String>)
    ensures NormalizeText(chunks) == JoinWith(" ", AllWords(chunks))
    ensures AllWords(chunks) == Words(JoinWith(" ", chunks))
    ensures Words(NormalizeText(chunks)) == AllWords(chunks)
  {
    WordsOfJoinedParts(StrippedNonBlank(chunks));
    AllWordsStripped(chunks);
    WordsOfJoinedParts(chunks);
    WordsOfJoin(AllWords(chunks));
  }

  function DigitChar(d: nat): char
    requires d < 10
  {
    "0123456789"[d]
  }

  /** The number a text of decimal digits denotes. */
  predicate AllDigits(s: String) {
    forall i :: 0 <= i < |s| ==> '0' <= s[i] <= '9'
  }

  function DecimalValue(s: String): nat
    requires AllDigits(s)
  {
    if s == [] then 0
    else 10 * DecimalValue(s[..|s| - 1]) + (s[|s| - 1] as int - '0' as int)
  }

  /** `str(n)` for a natural number: its decimal digits, with no leading zero. */
  function NatToString(n: nat): (r: String)
    ensures r != []
    ensures AllDigits(r) && DecimalValue(r) == n
    ensures r[0] == '0' ==> n == 0
  {
    if n < 10 then [DigitChar(n)]
    else
      var r := NatToString(n / 10) + [DigitChar(n % 10)];
      assert r[..|r| - 1] == NatToString(n / 10);
      r
  }
}
