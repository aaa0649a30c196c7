/** Items that differ by a key still do so in any other order. */
module Permutations {
  ghost predicate DistinctBy<T, K>(key: T -> K, s: seq<T>) {
    forall i, k :: 0 <= i < k < |s| ==> key(s[i]) != key(s[k])
  }

  lemma SplitAt<T>(s: seq<T>, i: nat)
    requires i < |s|
    ensures multiset(s) == multiset(s[..i] + s[i + 1..]) + multiset{s[i]}
  {
    assert s == s[..i] + [s[i]] + s[i + 1..];
  }

  lemma CountedOnce<T, K>(key: T -> K, s: seq<T>, i: nat)
    requires DistinctBy(key, s) && i < |s|
    ensures multiset(s)[s[i]] == 1
  {
    SplitAt(s, i);
    assert s[i] !in s[..i] + s[i + 1..];
  }

  lemma PermutedDistinct<T, K>(key: T -> K, a: seq<T>, b: seq<T>)
    requires multiset(a) == multiset(b) && DistinctBy(key, b)
    ensures DistinctBy(key, a)
  {
    forall i, k | 0 <= i < k < |a| ensures key(a[i]) != key(a[k]) {
      assert a[i] in multiset(b) && a[k] in multiset(b);
      var p :| 0 <= p < |b| && b[p] == a[i];
      CountedOnce(key, b, p);
      SplitAt(a, i);
      assert a[..i] + a[i + 1..] == a[..i] + a[i + 1..k] + [a[k]] + a[k + 1..];
    }
  }
}
