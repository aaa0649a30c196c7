/**
  The bounded list of best matches (control-plane/src/topicEmbeddings.ts, `relatedTopics`).

  Scanning the candidates in whatever order the database yields them, the list is kept sorted and at most forty
  long.  A candidate's `rank` is the place of its id in the locale's order.
*/
module RelatedTopics {
  import opened Sorting
  import opened Wrappers

  const BEST: nat := 40
  const THRESHOLD: real := 0.35

  datatype Match = Match(id: string, rank: int, score: real)

  /** By score, highest first, then by id. */
  predicate Before(a: Match, b: Match) { a.score > b.score || (a.score == b.score && a.rank < b.rank) }

  function Relevant(s: seq<Match>): seq<Match> {
    if |s| == 0 then []
    else
      var m := s[|s| - 1];
      if m.score < THRESHOLD then Relevant(s[..|s| - 1]) else Relevant(s[..|s| - 1]) + [m]
  }

  function Best(candidates: seq<Match>, n: nat): seq<Match> { Take(Sort(Before, Relevant(candidates)), n) }

  /** Ids are distinct, so no two candidates tie. */
  ghost predicate DistinctIds(s: seq<Match>) { forall i, k :: 0 <= i < k < |s| ==> s[i].rank != s[k].rank }

  /** The list is pushed to, sorted and popped; it never holds more than forty matches between turns. */
  method BestMatches(candidates: seq<Match>, limit: nat) returns (best: seq<Match>)
    requires limit <= BEST
    ensures best == Best(candidates, limit)
  {
    best := [];
    for i := 0 to |candidates|
      invariant best == Best(candidates[..i], BEST)
    {
      assert candidates[..i + 1][..i] == candidates[..i];
      if candidates[i].score < THRESHOLD { continue; }
      PushKeepsBest(Before, Relevant(candidates[..i]), candidates[i], BEST);
      best := best + [candidates[i]];
      best := Sort(Before, best);
      if |best| > BEST { best := best[..|best| - 1]; }
    }
    assert candidates[..|candidates|] == candidates;
    best := Take(best, limit);
  }

  // ---------------------------------------------------------------- what the list holds

  /** A higher score, or the same score and an id that does not come later. */
  predicate NotWorse(a: Match, b: Match) { a.score > b.score || (a.score == b.score && a.rank <= b.rank) }

  /** The results are the true best: in order, and nothing relevant that was left out beats anything in the list. */
  lemma NothingBetterLeftOut(candidates: seq<Match>, limit: nat, x: Match)
    requires x in candidates && x.score >= THRESHOLD && x !in Best(candidates, limit)
    ensures var best := Best(candidates, limit);
      && |best| == limit && (forall i, k :: 0 <= i < k < |best| ==> NotWorse(best[i], best[k]))
      && forall y :: y in best ==> NotWorse(y, x) && y in candidates && y.score >= THRESHOLD
  {
    var all := Relevant(candidates);
    var sorted := Sort(Before, all);
    RelevantCounts(candidates, x);
    SortSorts(Before, all);
    assert x in multiset(all) && x in multiset(sorted);
    var at: nat :| at < |sorted| && sorted[at] == x;
    var best := Best(candidates, limit);
    assert at < |best| ==> x in best;
    forall y | y in best ensures NotWorse(y, x) && y in candidates && y.score >= THRESHOLD {
      var i: nat :| i < |best| && best[i] == y;
      assert sorted[i] == y && y in multiset(sorted);
      RelevantCounts(candidates, y);
    }
  }

  lemma {:induction false} RelevantCounts(p: seq<Match>, m: Match)
    ensures m in Relevant(p) <==> m in p && m.score >= THRESHOLD
    ensures multiset(Relevant(p))[m] == if m.score < THRESHOLD then 0 else multiset(p)[m]
  {
    if |p| > 0 {
      assert p == p[..|p| - 1] + [p[|p| - 1]];
      RelevantCounts(p[..|p| - 1], m);
    }
  }

  lemma {:induction false} DistinctCounts(p: seq<Match>, m: Match)
    requires DistinctIds(p)
    ensures multiset(p)[m] <= 1
  {
    if |p| > 0 {
      DistinctCounts(p[..|p| - 1], m);
      assert p == p[..|p| - 1] + [p[|p| - 1]];
      if m in p[..|p| - 1] {
        var i: nat :| i < |p| - 1 && p[i] == m;
        assert p[i].rank != p[|p| - 1].rank;
      }
    }
  }

  lemma TwiceCounts(r: seq<Match>, i: nat, k: nat)
    requires i < k < |r| && r[i] == r[k]
    ensures multiset(r)[r[k]] >= 2
  {
    assert r == r[..k] + [r[k]] + r[k + 1..];
    assert r[..k][i] == r[k];
    assert r[k] in multiset(r[..k]);
  }

  /** Sorting the relevant ones of candidates with distinct ids leaves no ties. */
  lemma DistinctMeansNoTies(p: seq<Match>)
    requires DistinctIds(p)
    ensures NoTies(Before, Sort(Before, Relevant(p)))
  {
    var r := Sort(Before, Relevant(p));
    SortSorts(Before, Relevant(p));
    forall i, k | 0 <= i < k < |r| ensures r[i].rank != r[k].rank {
      assert r[i] in multiset(r) && r[k] in multiset(r);
      RelevantCounts(p, r[i]);
      RelevantCounts(p, r[k]);
      DistinctCounts(p, r[k]);
      if r[i] == r[k] { TwiceCounts(r, i, k); }
      SameRankSameMatch(p, r[i], r[k]);
    }
  }

  lemma SameRankSameMatch(p: seq<Match>, x: Match, y: Match)
    requires DistinctIds(p) && x in p && y in p
    ensures x.rank == y.rank ==> x == y
  {
    var i: nat :| i < |p| && p[i] == x;
    var k: nat :| k < |p| && p[k] == y;
    assert i < k ==> p[i].rank != p[k].rank;
  }

  /** The order in which the database yields the candidates does not matter. */
  lemma ScanOrderIrrelevant(p: seq<Match>, q: seq<Match>, n: nat)
    requires multiset(p) == multiset(q) && DistinctIds(p)
    ensures Best(p, n) == Best(q, n)
  {
    forall m ensures multiset(Relevant(p))[m] == multiset(Relevant(q))[m] {
      RelevantCounts(p, m);
      RelevantCounts(q, m);
    }
    assert multiset(Relevant(p)) == multiset(Relevant(q));
    DistinctMeansNoTies(p);
    SortIgnoresOrder(Before, Relevant(p), Relevant(q));
  }
}
