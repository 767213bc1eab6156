/**
 * The two walks discovery performs, stated over abstract successor and
 * listing functions so that their laws do not depend on how pages are
 * fetched: a breadth-first walk with a `seen` set, and a paged walk over
 * index buckets that stops a bucket at its first page with nothing new.
 * The first walks a finite link graph; the second terminates because the
 * links the pages can list form a finite `bound`.
 */
module Traversal {
  import opened Options
  import opened Text
  import opened Ordering

  /** `[x for x in xs if x not in seen]` */
  function Unseen(xs: seq<String>, seen: set<String>): (r: seq<String>)
    ensures |r| <= |xs|
    ensures forall x :: x in r <==> x in xs && x !in seen
  {
    if xs == [] then []
    else Unseen(xs[..|xs| - 1], seen) + (if xs[|xs| - 1] in seen then [] else [xs[|xs| - 1]])
  }

  function ToSet(xs: seq<String>): set<String> {
    set x | x in xs
  }

  lemma {:induction false} SubsetCardinality(a: set<String>, b: set<String>)
    requires a <= b
    ensures |a| <= |b|
    decreases |b|
  {
    if a != {} {
      var x :| x in a;
      SubsetCardinality(a - {x}, b - {x});
    }
  }

  /** Walking a non-empty batch with a new element shrinks what is left to walk. */
  lemma GrowthShrinks(bound: set<String>, visited: set<String>, batch: seq<String>)
    requires batch != [] && batch[0] in bound && batch[0] !in visited
    ensures |bound - (visited + ToSet(batch))| < |bound - visited|
  {
    var smaller := bound - (visited + ToSet(batch));
    var larger := bound - visited;
    SubsetCardinality(smaller, larger - {batch[0]});
  }

  lemma Regroup(a: seq<String>, b: seq<String>, c: seq<String>)
    ensures a + (b + c) == (a + b) + c
  {
    assert a + (b + c) == (a + b) + c;
  }

  /** Walking one more element of `xs` after `done`: the last step of the longer prefix. */
  lemma PrefixStep(done: seq<String>, xs: seq<String>, k: nat)
    requires k < |xs|
    ensures var longer := done + xs[..k + 1];
      && longer[..|longer| - 1] == done + xs[..k]
      && longer[|longer| - 1] == xs[k]
      && ToSet(xs[..k + 1]) == ToSet(xs[..k]) + {xs[k]}
  {
    assert xs[..k + 1] == xs[..k] + [xs[k]];
    assert (done + xs[..k + 1])[..|done| + k] == done + xs[..k];
  }

  /** Queueing one more element of `xs` behind `queue`: it is appended exactly when unseen. */
  lemma UnseenStep(queue: seq<String>, xs: seq<String>, k: nat, seen: set<String>)
    requires k < |xs|
    ensures queue + Unseen(xs[..k + 1], seen)
      == (queue + Unseen(xs[..k], seen)) + (if xs[k] in seen then [] else [xs[k]])
  {
    assert xs[..k + 1][..k] == xs[..k];
    var tail := if xs[k] in seen then [] else [xs[k]];
    Regroup(queue, Unseen(xs[..k], seen), tail);
  }

  // ---------------------------------------------------------------------
  // Breadth-first walk

  /** The successors of `u` in `graph`; none for a page outside it. */
  function Next(graph: map<String, seq<String>>, u: String): seq<String> {
    if u in graph then graph[u] else []
  }

  /**
   * The pages the walk visits, in order, from `queue` with `seen` visited
   * already: a seen head is dropped; otherwise it is visited and its unseen
   * successors join the back of the queue.
   */
  function Crawl(graph: map<String, seq<String>>, queue: seq<String>, seen: set<String>): seq<String>
    decreases |graph.Keys - seen|, |queue|
  {
    if queue == [] then []
    else
      var u := queue[0];
      if u in seen then Crawl(graph, queue[1..], seen)
      else
        if u in graph then
          assert graph.Keys - seen == (graph.Keys - (seen + {u})) + {u};
          [u] + Crawl(graph, queue[1..] + Unseen(Next(graph, u), seen + {u}), seen + {u})
        else
          assert graph.Keys - (seen + {u}) == graph.Keys - seen;
          assert Unseen(Next(graph, u), seen + {u}) == [];
          [u] + Crawl(graph, queue[1..] + Unseen(Next(graph, u), seen + {u}), seen + {u})
  }

  /** The queue the walk continues with after visiting the head. */
  function Advance(graph: map<String, seq<String>>, queue: seq<String>, seen: set<String>): seq<String>
    requires queue != []
  {
    queue[1..] + Unseen(Next(graph, queue[0]), seen + {queue[0]})
  }

  /** Visiting an unseen head: one step of the walk, and the measure it lowers. */
  lemma CrawlStep(graph: map<String, seq<String>>, queue: seq<String>, seen: set<String>)
    requires queue != [] && queue[0] !in seen
    ensures Crawl(graph, queue, seen) ==
      [queue[0]] + Crawl(graph, Advance(graph, queue, seen), seen + {queue[0]})
    ensures var s' := seen + {queue[0]};
      |graph.Keys - s'| < |graph.Keys - seen| || (|graph.Keys - s'| == |graph.Keys - seen| && |Advance(graph, queue, seen)| < |queue|)
  {
    CrawlUnfold(graph, queue, seen);
    CrawlMeasure(graph, queue, seen);
  }

  lemma CrawlUnfold(graph: map<String, seq<String>>, queue: seq<String>, seen: set<String>)
    requires queue != [] && queue[0] !in seen
    ensures Crawl(graph, queue, seen) ==
      [queue[0]] + Crawl(graph, Advance(graph, queue, seen), seen + {queue[0]})
  {
  }

  lemma CrawlMeasure(graph: map<String, seq<String>>, queue: seq<String>, seen: set<String>)
    requires queue != [] && queue[0] !in seen
    ensures var s' := seen + {queue[0]};
      |graph.Keys - s'| < |graph.Keys - seen| || (|graph.Keys - s'| == |graph.Keys - seen| && |Advance(graph, queue, seen)| < |queue|)
  {
    var u := queue[0];
    if u in graph {
      assert graph.Keys - seen == (graph.Keys - (seen + {u})) + {u};
    } else {
      assert Unseen(Next(graph, u), seen + {u}) == [];
      assert graph.Keys - (seen + {u}) == graph.Keys - seen;
    }
  }

  /** A seen head is dropped. */
  lemma CrawlSkip(graph: map<String, seq<String>>, queue: seq<String>, seen: set<String>)
    requires queue != [] && queue[0] in seen
    ensures Crawl(graph, queue, seen) == Crawl(graph, queue[1..], seen)
  {
  }

  /** The walk's bookkeeping across one visit: what was visited so far plus what is left is unchanged. */
  lemma CrawlVisit(graph: map<String, seq<String>>, visited: seq<String>, queue: seq<String>, seen: set<String>)
    requires queue != [] && queue[0] !in seen
    ensures visited + Crawl(graph, queue, seen) ==
      (visited + [queue[0]]) + Crawl(graph, Advance(graph, queue, seen), seen + {queue[0]})
    ensures var s' := seen + {queue[0]};
      |graph.Keys - s'| < |graph.Keys - seen| || (|graph.Keys - s'| == |graph.Keys - seen| && |Advance(graph, queue, seen)| < |queue|)
  {
    CrawlStep(graph, queue, seen);
    var rest := Crawl(graph, Advance(graph, queue, seen), seen + {queue[0]});
    Regroup(visited, [queue[0]], rest);
  }

  /** An empty queue ends the walk. */
  lemma CrawlDone(graph: map<String, seq<String>>, visited: seq<String>, seen: set<String>)
    ensures visited + Crawl(graph, [], seen) == visited
  {
    assert visited + [] == visited;
  }

  /** The walk visits no page twice and none it had seen before. */
  lemma {:induction false} CrawlFresh(graph: map<String, seq<String>>, queue: seq<String>, seen: set<String>)
    ensures NoDup(Crawl(graph, queue, seen))
    ensures forall x :: x in Crawl(graph, queue, seen) ==> x !in seen
    decreases |graph.Keys - seen|, |queue|
  {
    if queue != [] {
      if queue[0] in seen {
        CrawlFresh(graph, queue[1..], seen);
      } else {
        CrawlStep(graph, queue, seen);
        CrawlFresh(graph, Advance(graph, queue, seen), seen + {queue[0]});
      }
    }
  }

  /** Every queued page ends up visited unless it was seen before. */
  lemma {:induction false} CrawlCovers(graph: map<String, seq<String>>, queue: seq<String>, seen: set<String>)
    ensures forall x :: x in queue ==> x in seen || x in Crawl(graph, queue, seen)
    decreases |graph.Keys - seen|, |queue|
  {
    if queue != [] {
      if queue[0] in seen {
        CrawlCovers(graph, queue[1..], seen);
      } else {
        CrawlStep(graph, queue, seen);
        CrawlCovers(graph, Advance(graph, queue, seen), seen + {queue[0]});
      }
      assert forall x :: x in queue ==> x == queue[0] || x in queue[1..];
    }
  }

  /** Every successor of a visited page is visited too, unless it was seen before. */
  lemma {:induction false} CrawlClosed(graph: map<String, seq<String>>, queue: seq<String>, seen: set<String>)
    ensures forall v, x :: v in Crawl(graph, queue, seen) && x in Next(graph, v) ==>
      x in seen || x in Crawl(graph, queue, seen)
    decreases |graph.Keys - seen|, |queue|
  {
    if queue != [] {
      if queue[0] in seen {
        CrawlClosed(graph, queue[1..], seen);
      } else {
        CrawlStep(graph, queue, seen);
        var q' := Advance(graph, queue, seen);
        CrawlClosed(graph, q', seen + {queue[0]});
        CrawlCovers(graph, q', seen + {queue[0]});
      }
    }
  }

  /** Every page of `c` is in `queue` or a successor of a page before it in `c`. */
  ghost predicate ReachedFrom(graph: map<String, seq<String>>, c: seq<String>, queue: seq<String>) {
    forall i :: 0 <= i < |c| ==> c[i] in queue || exists j :: 0 <= j < i && c[i] in Next(graph, c[j])
  }

  lemma ReachedWiden(graph: map<String, seq<String>>, c: seq<String>, q: seq<String>, q': seq<String>)
    requires ReachedFrom(graph, c, q)
    requires forall x :: x in q ==> x in q'
    ensures ReachedFrom(graph, c, q')
  {
  }

  /** Every visited page was queued at the start or is a successor of a page visited before it. */
  lemma {:induction false} CrawlReached(graph: map<String, seq<String>>, queue: seq<String>, seen: set<String>)
    ensures ReachedFrom(graph, Crawl(graph, queue, seen), queue)
    decreases |graph.Keys - seen|, |queue|
  {
    if queue != [] {
      var u := queue[0];
      if u in seen {
        CrawlReached(graph, queue[1..], seen);
        CrawlSkip(graph, queue, seen);
        ReachedWiden(graph, Crawl(graph, queue[1..], seen), queue[1..], queue);
      } else {
        CrawlStep(graph, queue, seen);
        var q' := Advance(graph, queue, seen);
        CrawlReached(graph, q', seen + {u});
        AdvanceWithin(graph, queue, seen);
        ReachedAfterVisit(graph, queue, Crawl(graph, q', seen + {u}), q');
      }
    }
  }

  /** The queue after a visit holds only the rest of the old queue and the head's successors. */
  lemma AdvanceWithin(graph: map<String, seq<String>>, queue: seq<String>, seen: set<String>)
    requires queue != []
    ensures forall x :: x in Advance(graph, queue, seen) ==> x in queue[1..] || x in Next(graph, queue[0])
  {
  }

  /** Visiting the head of `queue` before a walk reached from `q'` keeps the whole walk reached from `queue`. */
  lemma ReachedAfterVisit(graph: map<String, seq<String>>, queue: seq<String>, c': seq<String>, q': seq<String>)
    requires queue != []
    requires ReachedFrom(graph, c', q')
    requires forall x :: x in q' ==> x in queue[1..] || x in Next(graph, queue[0])
    ensures ReachedFrom(graph, [queue[0]] + c', queue)
  {
    ReachedCons(graph, queue[0], queue[1..], c', q');
    assert queue == [queue[0]] + queue[1..];
  }

  /** Visiting `u` first keeps every later page reached from `u`'s queue. */
  lemma ReachedCons(graph: map<String, seq<String>>, u: String, rest: seq<String>, c': seq<String>, q': seq<String>)
    requires ReachedFrom(graph, c', q')
    requires forall x :: x in q' ==> x in rest || x in Next(graph, u)
    ensures ReachedFrom(graph, [u] + c', [u] + rest)
  {
    forall i | 0 < i < 1 + |c'|
      ensures ([u] + c')[i] in [u] + rest || exists j :: 0 <= j < i && ([u] + c')[i] in Next(graph, ([u] + c')[j])
    {
      ReachedConsAt(graph, u, rest, c', q', i);
    }
  }

  lemma ReachedConsAt(graph: map<String, seq<String>>, u: String, rest: seq<String>, c': seq<String>, q': seq<String>, i: nat)
    requires ReachedFrom(graph, c', q')
    requires forall x :: x in q' ==> x in rest || x in Next(graph, u)
    requires 0 < i <= |c'|
    ensures var c := [u] + c';
      c[i] in [u] + rest || exists j :: 0 <= j < i && c[i] in Next(graph, c[j])
  {
    var c := [u] + c';
    assert c[i] == c'[i - 1];
    if c'[i - 1] in q' {
      if c'[i - 1] !in rest {
        assert c[i] in Next(graph, c[0]);
      }
    } else {
      var j' :| 0 <= j' < i - 1 && c'[i - 1] in Next(graph, c'[j']);
      assert c[j' + 1] == c'[j'];
    }
  }

  /**
   * The walk from one start page: it begins there, visits each page once,
   * visits every successor of every page it visits, and visits nothing that
   * is not reachable that way.
   */
  lemma CrawlLaw(graph: map<String, seq<String>>, start: String)
    ensures var c := Crawl(graph, [start], {});
      && |c| >= 1 && c[0] == start
      && NoDup(c)
      && (forall v, x :: v in c && x in Next(graph, v) ==> x in c)
      && (forall i :: 0 < i < |c| ==> exists j :: 0 <= j < i && c[i] in Next(graph, c[j]))
  {
    var c := Crawl(graph, [start], {});
    CrawlStep(graph, [start], {});
    assert c[0] == start;
    CrawlFresh(graph, [start], {});
    CrawlClosed(graph, [start], {});
    CrawlReached(graph, [start], {});
    forall i | 0 < i < |c|
      ensures exists j :: 0 <= j < i && c[i] in Next(graph, c[j])
    {
      assert c[i] != c[0];
      assert c[i] !in [start];
    }
  }

  // ---------------------------------------------------------------------
  // Paged walk over index buckets

  /** Every link any index page lists lies in `bound`. */
  ghost predicate ListsWithin(listing: (String, nat) -> Option<seq<String>>, bound: set<String>) {
    forall t, p :: listing(t, p).Some? ==> forall x :: x in listing(t, p).value ==> x in bound
  }

  /**
   * The links walked, in order, from page `page` of bucket `tokens[0]` on,
   * with `visited` walked already. `listing(t, p)` is page `p` of bucket `t`
   * (`None` when it cannot be fetched). A bucket ends at its first page that
   * cannot be fetched or lists nothing unwalked; the next starts at page 1.
   */
  function IndexWalk(listing: (String, nat) -> Option<seq<String>>, bound: set<String>,
                     tokens: seq<String>, page: nat, visited: set<String>): (r: seq<String>)
    requires ListsWithin(listing, bound)
    ensures forall x :: x in r ==> x in bound && x !in visited
    decreases |tokens|, |bound - visited|
  {
    if tokens == [] then []
    else
      match listing(tokens[0], page)
      case None => IndexWalk(listing, bound, tokens[1..], 1, visited)
      case Some(links) =>
        var batch := Unseen(links, visited);
        if batch == [] then IndexWalk(listing, bound, tokens[1..], 1, visited)
        else
          GrowthShrinks(bound, visited, batch);
          batch + IndexWalk(listing, bound, tokens, page + 1, visited + ToSet(batch))
  }

  /**
   * Once a page of a bucket fails or lists nothing unwalked, the walk moves
   * to page 1 of the next bucket: no later page of that bucket is read.
   */
  lemma BucketStops(listing: (String, nat) -> Option<seq<String>>, bound: set<String>,
                    tokens: seq<String>, page: nat, visited: set<String>)
    requires ListsWithin(listing, bound) && tokens != []
    requires listing(tokens[0], page).None? || Unseen(listing(tokens[0], page).value, visited) == []
    ensures IndexWalk(listing, bound, tokens, page, visited) == IndexWalk(listing, bound, tokens[1..], 1, visited)
  {
  }

  /**
   * A page with something unwalked is walked in full before the next page of
   * the same bucket, and what is left to walk shrinks.
   */
  lemma BucketContinues(listing: (String, nat) -> Option<seq<String>>, bound: set<String>,
                        tokens: seq<String>, page: nat, visited: set<String>, walked: seq<String>)
    requires ListsWithin(listing, bound) && tokens != []
    requires listing(tokens[0], page).Some?
    requires Unseen(listing(tokens[0], page).value, visited) != []
    ensures var batch := Unseen(listing(tokens[0], page).value, visited);
      && walked + IndexWalk(listing, bound, tokens, page, visited)
        == (walked + batch) + IndexWalk(listing, bound, tokens, page + 1, visited + ToSet(batch))
      && |bound - (visited + ToSet(batch))| < |bound - visited|
  {
    var batch := Unseen(listing(tokens[0], page).value, visited);
    GrowthShrinks(bound, visited, batch);
    var rest := IndexWalk(listing, bound, tokens, page + 1, visited + ToSet(batch));
    Regroup(walked, batch, rest);
  }

  // ---------------------------------------------------------------------
  // Merging streams

  /** The parts joined end to end. */
  function Concat(parts: seq<seq<String>>): seq<String> {
    if parts == [] then [] else Concat(parts[..|parts| - 1]) + parts[|parts| - 1]
  }

  /** The `emitted` loop: each stream in turn, every element not emitted before. */
  method Emit(streams: seq<seq<String>>) returns (out: seq<String>)
    ensures out == Dedup(Concat(streams))
  {
    var emitted: set<String> := {};
    out := [];
    for i := 0 to |streams|
      invariant out == Dedup(Concat(streams[..i]))
      invariant forall x :: x in emitted <==> x in out
    {
      assert streams[..i + 1][..i] == streams[..i];
      out, emitted := EmitStream(Concat(streams[..i]), streams[i], out, emitted);
    }
    assert streams[..|streams|] == streams;
  }

  /** One stream of the `emitted` loop, after `done` has been emitted. */
  method EmitStream(ghost done: seq<String>, stream: seq<String>, out0: seq<String>, emitted0: set<String>)
    returns (out: seq<String>, emitted: set<String>)
    requires out0 == Dedup(done)
    requires forall x :: x in emitted0 <==> x in out0
    ensures out == Dedup(done + stream)
    ensures forall x :: x in emitted <==> x in out
  {
    out, emitted := out0, emitted0;
    assert done + stream[..0] == done;
    for k := 0 to |stream|
      invariant out == Dedup(done + stream[..k])
      invariant forall x :: x in emitted <==> x in out
    {
      assert done + stream[..k + 1] == (done + stream[..k]) + [stream[k]];
      DedupSnoc(done + stream[..k], stream[k]);
      var url := stream[k];
      if url !in emitted {
        emitted := emitted + {url};
        out := out + [url];
      }
    }
    assert stream[..|stream|] == stream;
  }

  /**
   * Merging two streams: the first one's distinct elements come first, and
   * every element only the second one has comes after all of them.
   */
  lemma MergeOrder(s: seq<String>, b: seq<String>)
    ensures var r := Dedup(Concat([s, b]));
      && r == Dedup(s) + NewOf(s, b)
      && NoDup(r)
      && (forall i, j :: 0 <= i < |r| && 0 <= j < |r| && r[i] in s && r[j] !in s ==> i < j)
      && (forall x :: x in r <==> x in s || x in b)
  {
    assert Concat([s, b]) == s + b by {
      assert [s][..0] == [];
      assert Concat([s]) == Concat([]) + s;
      assert [s, b][..1] == [s];
      assert Concat([s, b]) == Concat([s]) + b;
    }
    DedupConcat(s, b);
  }
}
