/** Stable insertion sort by a strict weak order, and what is unique about its result. */
module Sorting {
  import opened Wrappers

  /** A strict weak order: asymmetric, and nothing lies strictly between two ties. */
  ghost predicate Order<T(!new)>(before: (T, T) -> bool) {
    && (forall x, y :: before(x, y) ==> !before(y, x))
    && (forall x, y, z :: before(x, z) ==> before(x, y) || before(y, z))
  }

  /** After everything `m` is not strictly before. */
  function Insert<T>(before: (T, T) -> bool, s: seq<T>, m: T): seq<T> {
    if |s| == 0 then [m]
    else if before(m, s[|s| - 1]) then Insert(before, s[..|s| - 1], m) + [s[|s| - 1]]
    else s + [m]
  }

  function Sort<T>(before: (T, T) -> bool, s: seq<T>): seq<T> {
    if |s| == 0 then [] else Insert(before, Sort(before, s[..|s| - 1]), s[|s| - 1])
  }

  function Take<T>(s: seq<T>, n: nat): seq<T> { s[..Min(n, |s|)] }

  ghost predicate Sorted<T>(before: (T, T) -> bool, s: seq<T>) {
    forall i, k :: 0 <= i < k < |s| ==> !before(s[k], s[i])
  }

  ghost predicate NoTies<T>(before: (T, T) -> bool, s: seq<T>) {
    forall i, k :: 0 <= i < k < |s| ==> before(s[i], s[k]) || before(s[k], s[i])
  }

  // ---------------------------------------------------------------- sorting sorts

  lemma {:induction false} InsertAdds<T>(before: (T, T) -> bool, s: seq<T>, m: T)
    ensures var r := Insert(before, s, m);
      |r| == |s| + 1 && multiset(r) == multiset(s) + multiset{m} && forall x :: x in r ==> x == m || x in s
  {
    if |s| > 0 && before(m, s[|s| - 1]) {
      InsertAdds(before, s[..|s| - 1], m);
      assert s == s[..|s| - 1] + [s[|s| - 1]];
    }
  }

  lemma SortedAppend<T>(before: (T, T) -> bool, s: seq<T>, last: T)
    requires Sorted(before, s) && forall x :: x in s ==> !before(last, x)
    ensures Sorted(before, s + [last])
  {
    forall i, k | 0 <= i < k < |s| + 1 ensures !before((s + [last])[k], (s + [last])[i]) {
      if k == |s| { assert s[i] in s; }
    }
  }

  lemma SortedFront<T>(before: (T, T) -> bool, s: seq<T>)
    requires |s| > 0 && Sorted(before, s)
    ensures Sorted(before, s[..|s| - 1])
    ensures var last := s[|s| - 1]; forall x :: x in s[..|s| - 1] ==> !before(last, x)
  {
  }

  lemma {:induction false} InsertSorts<T(!new)>(before: (T, T) -> bool, s: seq<T>, m: T)
    requires Order(before) && Sorted(before, s)
    ensures Sorted(before, Insert(before, s, m))
  {
    if |s| > 0 {
      var front, last := s[..|s| - 1], s[|s| - 1];
      SortedFront(before, s);
      if before(m, last) {
        InsertSorts(before, front, m);
        InsertAdds(before, front, m);
        SortedAppend(before, Insert(before, front, m), last);
      } else {
        forall x | x in s ensures !before(m, x) { assert x == last || x in front; }
        SortedAppend(before, s, m);
      }
    }
  }

  lemma {:induction false} SortSorts<T(!new)>(before: (T, T) -> bool, s: seq<T>)
    requires Order(before)
    ensures var r := Sort(before, s); Sorted(before, r) && |r| == |s| && multiset(r) == multiset(s)
  {
    if |s| > 0 {
      assert s == s[..|s| - 1] + [s[|s| - 1]];
      SortSorts(before, s[..|s| - 1]);
      InsertSorts(before, Sort(before, s[..|s| - 1]), s[|s| - 1]);
      InsertAdds(before, Sort(before, s[..|s| - 1]), s[|s| - 1]);
    }
  }

  lemma {:induction false} SortedIsFixed<T>(before: (T, T) -> bool, s: seq<T>)
    requires Sorted(before, s)
    ensures Sort(before, s) == s
  {
    if |s| > 0 {
      var front := s[..|s| - 1];
      SortedIsFixed(before, front);
      assert s == front + [s[|s| - 1]];
      if |front| > 0 { assert !before(s[|s| - 1], s[|s| - 2]); }
    }
  }

  lemma SortAppend<T>(before: (T, T) -> bool, s: seq<T>, m: T)
    ensures Sort(before, s + [m]) == Insert(before, Sort(before, s), m)
  {
    assert (s + [m])[..|s|] == s;
  }

  // ---------------------------------------------------------------- the best few

  /** Inserting into the best of a sorted list and cutting gives the best of the list with the newcomer. */
  lemma {:induction false} InsertIntoTake<T(!new)>(before: (T, T) -> bool, s: seq<T>, m: T, n: nat)
    requires Order(before) && Sorted(before, s)
    ensures Take(Insert(before, Take(s, n), m), n) == Take(Insert(before, s, m), n)
  {
    if |s| > n {
      var front, last := s[..|s| - 1], s[|s| - 1];
      SortedFront(before, s);
      InsertIntoTake(before, front, m, n);
      assert front[..n] == s[..n];
      InsertAdds(before, front, m);
      if before(m, last) {
        assert Take(Insert(before, front, m) + [last], n) == Take(Insert(before, front, m), n);
      } else {
        InsertAtEnd(before, front, m, last);
      }
    } else {
      assert Take(s, n) == s;
    }
  }

  /** What goes after the last member goes after all. */
  lemma InsertAtEnd<T(!new)>(before: (T, T) -> bool, front: seq<T>, m: T, last: T)
    requires Order(before) && !before(m, last) && forall x :: x in front ==> !before(last, x)
    ensures Insert(before, front, m) == front + [m]
  {
    if |front| > 0 { assert front[|front| - 1] in front; }
  }

  /** Push, sort and pop take the best of what was seen to the best of what is seen now. */
  lemma PushKeepsBest<T(!new)>(before: (T, T) -> bool, seen: seq<T>, m: T, n: nat)
    requires Order(before)
    ensures var best := Sort(before, Take(Sort(before, seen), n) + [m]);
      Take(Sort(before, seen + [m]), n) == Take(best, n) && |best| <= n + 1
  {
    var s, best := Sort(before, seen), Take(Sort(before, seen), n);
    SortSorts(before, seen);
    InsertIntoTake(before, s, m, n);
    SortedIsFixed(before, best);
    SortAppend(before, best, m);
    SortAppend(before, seen, m);
    InsertAdds(before, best, m);
  }

  // ---------------------------------------------------------------- uniqueness

  /** Two sorted lists of the same things without ties are the same list. */
  lemma {:induction false} SortedUnique<T>(before: (T, T) -> bool, a: seq<T>, b: seq<T>)
    requires Sorted(before, a) && Sorted(before, b) && NoTies(before, a) && multiset(a) == multiset(b)
    ensures a == b
  {
    assert |multiset(a)| == |a| && |multiset(b)| == |b|;
    if |a| > 0 {
      LastIsLast(before, a, b);
      DropLast(a);
      DropLast(b);
      SortedFront(before, a);
      SortedFront(before, b);
      NoTiesFront(before, a);
      SortedUnique(before, a[..|a| - 1], b[..|b| - 1]);
    }
  }

  lemma DropLast<T>(a: seq<T>)
    requires |a| > 0
    ensures a == a[..|a| - 1] + [a[|a| - 1]]
    ensures multiset(a[..|a| - 1]) == multiset(a) - multiset{a[|a| - 1]}
  {
    assert a == a[..|a| - 1] + [a[|a| - 1]];
  }

  lemma NoTiesFront<T>(before: (T, T) -> bool, s: seq<T>)
    requires |s| > 0 && NoTies(before, s)
    ensures NoTies(before, s[..|s| - 1])
  {
  }

  lemma LastIsLast<T>(before: (T, T) -> bool, a: seq<T>, b: seq<T>)
    requires Sorted(before, a) && Sorted(before, b) && NoTies(before, a) && multiset(a) == multiset(b) && |a| > 0
    requires |b| > 0
    ensures a[|a| - 1] == b[|b| - 1]
  {
    var x, y := a[|a| - 1], b[|b| - 1];
    assert x in multiset(b) && y in multiset(a);
    var i: nat :| i < |b| && b[i] == x;
    var k: nat :| k < |a| && a[k] == y;
    assert i < |b| - 1 ==> !before(y, x);
    assert k < |a| - 1 ==> !before(x, y) && (before(y, x) || before(x, y));
  }

  /** The order in which things arrive does not matter to the sorted list. */
  lemma SortIgnoresOrder<T(!new)>(before: (T, T) -> bool, p: seq<T>, q: seq<T>)
    requires Order(before) && multiset(p) == multiset(q) && NoTies(before, Sort(before, p))
    ensures Sort(before, p) == Sort(before, q)
  {
    SortSorts(before, p);
    SortSorts(before, q);
    SortedUnique(before, Sort(before, p), Sort(before, q));
  }
}
