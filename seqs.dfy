/** Order-preserving selection from lists: the `filter` of JavaScript arrays
    and of Django querysets, and counting by a key (kanban columns, category
    rows). */
module Seqs {

  /** The elements of `s` that satisfy `p`, in their original order. */
  function Filter<T>(s: seq<T>, p: T -> bool): (r: seq<T>)
    ensures |r| <= |s|
    ensures forall i :: 0 <= i < |r| ==> r[i] in s && p(r[i])
    ensures forall i :: 0 <= i < |s| && p(s[i]) ==> s[i] in r
  {
    if s == [] then []
    else (if p(s[0]) then [s[0]] else []) + Filter(s[1..], p)
  }

  /** `a` is obtained from `b` by deleting elements, keeping the order of the rest. */
  ghost predicate IsSubsequence<T>(a: seq<T>, b: seq<T>)
    decreases |b|
  {
    if a == [] then true
    else if b == [] then false
    else (a[0] == b[0] && IsSubsequence(a[1..], b[1..])) || IsSubsequence(a, b[1..])
  }

  lemma {:induction false} FilterIsSubsequence<T>(s: seq<T>, p: T -> bool)
    ensures IsSubsequence(Filter(s, p), s)
  {
    if s != [] {
      FilterIsSubsequence(s[1..], p);
      var rest := Filter(s[1..], p);
      if p(s[0]) {
        assert Filter(s, p) == [s[0]] + rest;
        assert ([s[0]] + rest)[1..] == rest;
      } else {
        assert Filter(s, p) == rest;
      }
    }
  }

  /** A list is a subsequence of itself. */
  lemma {:induction false} SubsequenceOfItself<T>(s: seq<T>)
    ensures IsSubsequence(s, s)
  {
    if s != [] {
      SubsequenceOfItself(s[1..]);
    }
  }

  /** Filtering a filtered list again with the same predicate changes nothing. */
  lemma {:induction false} FilterIdempotent<T>(s: seq<T>, p: T -> bool)
    ensures Filter(Filter(s, p), p) == Filter(s, p)
  {
    if s != [] {
      FilterIdempotent(s[1..], p);
      var r := Filter(s, p);
      if p(s[0]) {
        assert r == [s[0]] + Filter(s[1..], p);
        assert r[0] == s[0] && r[1..] == Filter(s[1..], p);
        assert Filter(r, p) == [r[0]] + Filter(r[1..], p);
      } else {
        assert r == Filter(s[1..], p);
      }
    }
  }

  /** A predicate that every element satisfies keeps the whole list. */
  lemma {:induction false} FilterKeepsAll<T>(s: seq<T>, p: T -> bool)
    requires forall i :: 0 <= i < |s| ==> p(s[i])
    ensures Filter(s, p) == s
  {
    if s != [] {
      FilterKeepsAll(s[1..], p);
      assert [s[0]] + s[1..] == s;
    }
  }

  /** Filtering by `p` and then by `q` is filtering once by their conjunction `pq`. */
  lemma {:induction false} FilterTwice<T>(s: seq<T>, p: T -> bool, q: T -> bool, pq: T -> bool)
    requires forall x :: pq(x) == (p(x) && q(x))
    ensures Filter(Filter(s, p), q) == Filter(s, pq)
  {
    if s != [] {
      FilterTwice(s[1..], p, q, pq);
      var r := Filter(s, p);
      if p(s[0]) {
        assert r == [s[0]] + Filter(s[1..], p);
        assert r[0] == s[0] && r[1..] == Filter(s[1..], p);
        assert Filter(r, q) == (if q(s[0]) then [s[0]] else []) + Filter(r[1..], q);
      } else {
        assert r == Filter(s[1..], p);
      }
      assert Filter(s, pq) == (if pq(s[0]) then [s[0]] else []) + Filter(s[1..], pq);
    }
  }

  /** Nothing is kept when no element satisfies the predicate. */
  lemma FilterOfNone<T>(s: seq<T>, p: T -> bool)
    requires forall i :: 0 <= i < |s| ==> !p(s[i])
    ensures Filter(s, p) == []
  {
  }

  /** The test "the key of `x` is `k`". */
  function KeyIs<T, K(==)>(key: T -> K, k: K): T -> bool
  {
    x => key(x) == k
  }

  /** The elements of `s` whose key is `k`, in order. */
  function WithKey<T, K(==)>(s: seq<T>, key: T -> K, k: K): (r: seq<T>)
  {
    Filter(s, KeyIs(key, k))
  }

  /** No key occurs twice in `ks`. */
  predicate Distinct<K(==)>(ks: seq<K>)
  {
    forall i, j :: 0 <= i < j < |ks| ==> ks[i] != ks[j]
  }

  /** The sizes of the groups of `s` for the keys `ks`, added up. */
  function SumOfCounts<T, K(==)>(s: seq<T>, key: T -> K, ks: seq<K>): nat
  {
    if ks == [] then 0 else |WithKey(s, key, ks[0])| + SumOfCounts(s, key, ks[1..])
  }

  lemma {:induction false} SumOfCountsOfEmpty<T, K>(key: T -> K, ks: seq<K>)
    ensures SumOfCounts([], key, ks) == 0
  {
    if ks != [] {
      SumOfCountsOfEmpty(key, ks[1..]);
    }
  }

  /** Adding one element to the list adds one to the sum exactly when its key is listed. */
  lemma {:induction false} SumOfCountsCons<T, K>(x: T, s: seq<T>, key: T -> K, ks: seq<K>)
    requires Distinct(ks)
    ensures SumOfCounts([x] + s, key, ks) == (if key(x) in ks then 1 else 0) + SumOfCounts(s, key, ks)
  {
    if ks != [] {
      assert Distinct(ks[1..]);
      SumOfCountsCons(x, s, key, ks[1..]);
      assert ([x] + s)[1..] == s;
      assert key(x) in ks <==> key(x) == ks[0] || key(x) in ks[1..];
      assert key(x) == ks[0] ==> key(x) !in ks[1..];
    }
  }

  /** Groups for distinct keys never hold more than the whole list, and hold
      all of it exactly when every element's key is one of the keys. */
  lemma {:induction false} SumOfCountsBound<T, K>(s: seq<T>, key: T -> K, ks: seq<K>)
    requires Distinct(ks)
    ensures SumOfCounts(s, key, ks) <= |s|
    ensures SumOfCounts(s, key, ks) == |s| <==> forall i :: 0 <= i < |s| ==> key(s[i]) in ks
  {
    if s == [] {
      SumOfCountsOfEmpty(key, ks);
    } else {
      SumOfCountsBound(s[1..], key, ks);
      assert [s[0]] + s[1..] == s;
      SumOfCountsCons(s[0], s[1..], key, ks);
      assert (forall i :: 0 <= i < |s| ==> key(s[i]) in ks) <==>
             key(s[0]) in ks && forall i :: 0 <= i < |s[1..]| ==> key(s[1..][i]) in ks;
    }
  }

  /** Groups for different keys share no element, and an element of the list
      lies in the group of key `k` exactly when its key is `k`. */
  lemma GroupsAreDisjoint<T, K>(s: seq<T>, key: T -> K, k1: K, k2: K)
    ensures forall i :: 0 <= i < |s| ==> (s[i] in WithKey(s, key, k1) <==> key(s[i]) == k1)
    ensures k1 != k2 ==> forall i :: 0 <= i < |s| ==> !(s[i] in WithKey(s, key, k1) && s[i] in WithKey(s, key, k2))
  {
    var g := WithKey(s, key, k1);
    forall i | 0 <= i < |s| && s[i] in g
      ensures key(s[i]) == k1
    {
      var j :| 0 <= j < |g| && g[j] == s[i];
    }
  }
}
