/** Order-preserving selection over sequences: the shape of every "loop, skip some, append the rest" in the source. */
module Seqs {
  import opened Wrappers

  /** Keep the elements `f` maps to Some, in order, replaced by what `f` gives. */
  function FilterMap<T, U>(s: seq<T>, f: T -> Option<U>): (r: seq<U>)
    ensures |r| <= |s|
    decreases |s|
  {
    if s == [] then []
    else
      FilterMap(s[..|s| - 1], f) + (match f(s[|s| - 1]) case Some(u) => [u] case None => [])
  }

  /** FilterMap works element by element: the output of a concatenation is the concatenation of the outputs. */
  lemma {:induction false} FilterMapAppend<T, U>(a: seq<T>, b: seq<T>, f: T -> Option<U>)
    ensures FilterMap(a + b, f) == FilterMap(a, f) + FilterMap(b, f)
    decreases |b|
  {
    if b != [] {
      var b' := b[..|b| - 1];
      assert (a + b)[..|a + b| - 1] == a + b';
      FilterMapAppend(a, b', f);
    } else {
      assert a + b == a;
    }
  }

  /** Something is in the output exactly when some input element is mapped to it. */
  lemma {:induction false} FilterMapMember<T, U>(s: seq<T>, f: T -> Option<U>, u: U)
    ensures u in FilterMap(s, f) <==> exists i :: 0 <= i < |s| && f(s[i]) == Some(u)
    decreases |s|
  {
    if s != [] {
      var s', last := s[..|s| - 1], s[|s| - 1];
      FilterMapMember(s', f, u);
      assert forall i :: 0 <= i < |s'| ==> s'[i] == s[i];
      if u in FilterMap(s', f) {
        var i :| 0 <= i < |s'| && f(s'[i]) == Some(u);
        assert f(s[i]) == Some(u);
      } else if f(last) == Some(u) {
        assert f(s[|s| - 1]) == Some(u);
      } else {
        forall i | 0 <= i < |s| ensures f(s[i]) != Some(u) {
          if i < |s'| {
            assert f(s'[i]) != Some(u);
          }
        }
      }
    }
  }

  /** When `f` keeps every element, nothing is dropped. */
  lemma {:induction false} FilterMapKeepsAll<T, U>(s: seq<T>, f: T -> Option<U>)
    requires forall i :: 0 <= i < |s| ==> f(s[i]).Some?
    ensures |FilterMap(s, f)| == |s|
    decreases |s|
  {
    if s != [] {
      FilterMapKeepsAll(s[..|s| - 1], f);
    }
  }

  /** The elements satisfying `p`, in their original order. */
  function Filter<T>(s: seq<T>, p: T -> bool): (r: seq<T>)
    ensures |r| <= |s|
    ensures forall i :: 0 <= i < |r| ==> p(r[i])
    ensures multiset(r) <= multiset(s)
    decreases |s|
  {
    if s == [] then []
    else
      var s' := s[..|s| - 1];
      assert s == s' + [s[|s| - 1]];
      Filter(s', p) + (if p(s[|s| - 1]) then [s[|s| - 1]] else [])
  }

  /** An element survives the filter exactly when it was there and satisfies `p`. */
  lemma {:induction false} FilterMember<T>(s: seq<T>, p: T -> bool, x: T)
    ensures x in Filter(s, p) <==> x in s && p(x)
    decreases |s|
  {
    if s != [] {
      var s' := s[..|s| - 1];
      FilterMember(s', p, x);
      assert s == s' + [s[|s| - 1]];
    }
  }

  /** Filtering never changes how often a kept element occurs. */
  lemma {:induction false} FilterCount<T>(s: seq<T>, p: T -> bool, x: T)
    requires p(x)
    ensures multiset(Filter(s, p))[x] == multiset(s)[x]
    decreases |s|
  {
    if s != [] {
      var s' := s[..|s| - 1];
      FilterCount(s', p, x);
      assert s == s' + [s[|s| - 1]];
    }
  }
}
