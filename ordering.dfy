/**
 * `ORDER BY <key> DESC` over an abstract table. SQL leaves the order of ties open; the model
 * fixes one (a stable insertion sort), and every property stated about it holds for that order.
 */
module Ordering {

  predicate SortedDesc<T>(s: seq<T>, key: T -> int) {
    forall i, j :: 0 <= i < j < |s| ==> key(s[i]) >= key(s[j])
  }

  /** Insert `x` into a descending sequence, ahead of the first element with a smaller or equal key. */
  function Insert<T>(x: T, s: seq<T>, key: T -> int): (r: seq<T>)
    requires SortedDesc(s, key)
    ensures |r| == |s| + 1
    ensures multiset(r) == multiset(s) + multiset{x}
    ensures r[0] == x || (s != [] && r[0] == s[0])
    ensures SortedDesc(r, key)
    decreases |s|
  {
    if s == [] || key(x) >= key(s[0]) then
      ConsSorted(x, s, key);
      [x] + s
    else
      var rest := Insert(x, s[1..], key);
      assert s == [s[0]] + s[1..];
      ConsSorted(s[0], rest, key);
      [s[0]] + rest
  }

  /** An element no smaller than the head of a descending sequence can go in front of it. */
  lemma ConsSorted<T>(h: T, s: seq<T>, key: T -> int)
    requires SortedDesc(s, key) && (s == [] || key(h) >= key(s[0]))
    ensures SortedDesc([h] + s, key)
  {
    var r := [h] + s;
    forall i, j | 0 <= i < j < |r|
      ensures key(r[i]) >= key(r[j])
    {
      if i > 0 {
        assert r[i] == s[i - 1] && r[j] == s[j - 1];
      } else if j > 1 {
        assert r[j] == s[j - 1] && key(s[0]) >= key(s[j - 1]);
      }
    }
  }

  /** The rows ordered by `key`, largest first. */
  function SortDesc<T>(s: seq<T>, key: T -> int): (r: seq<T>)
    ensures |r| == |s|
    ensures multiset(r) == multiset(s)
    ensures SortedDesc(r, key)
    decreases |s|
  {
    if s == [] then []
    else
      assert s == [s[0]] + s[1..];
      Insert(s[0], SortDesc(s[1..], key), key)
  }

  /** A prefix of a sorted sequence is sorted. */
  lemma PrefixSorted<T>(s: seq<T>, key: T -> int, n: nat)
    requires SortedDesc(s, key) && n <= |s|
    ensures SortedDesc(s[..n], key)
  {
  }

  /** In a descending sequence, an element outside the first `n` has no larger key than any of them. */
  lemma OutsidePrefixIsSmaller<T>(r: seq<T>, key: T -> int, n: nat, x: T, k: nat)
    requires SortedDesc(r, key) && n <= |r| && k < n
    requires multiset(r)[x] > multiset(r[..n])[x]
    ensures key(x) <= key(r[k])
  {
    var kept, rest := r[..n], r[n..];
    assert r == kept + rest;
    assert multiset(r)[x] == multiset(kept)[x] + multiset(rest)[x];
    assert x in rest;
    var j :| 0 <= j < |rest| && rest[j] == x;
    assert r[n + j] == x;
  }

  /**
   * Top-k: after sorting, nothing left out of the first `n` has a larger key than anything
   * kept, so `LIMIT n` returns the `n` largest keys.
   */
  lemma TopK<T>(s: seq<T>, key: T -> int, n: nat, x: T, k: nat)
    requires n <= |s| && k < n
    requires x in multiset(s) - multiset(SortDesc(s, key)[..n])
    ensures key(x) <= key(SortDesc(s, key)[k])
  {
    var r := SortDesc(s, key);
    assert multiset(r)[x] > multiset(r[..n])[x];
    OutsidePrefixIsSmaller(r, key, n, x, k);
  }
}
