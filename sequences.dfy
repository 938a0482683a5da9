/** Sequence operations that the script borrows from Python and pandas:
    slicing a prefix (`xs[:n]`, `DataFrame.head(n)`) and keeping the rows
    that satisfy a condition (`continue` in a loop, `df[mask]`). */
module Sequences {

  function Min(a: int, b: int): (m: int)
    ensures m <= a && m <= b
    ensures m == a || m == b
  {
    if a <= b then a else b
  }

  /** The first `n` elements of `s`, or all of `s` when it is shorter:
      Python's `s[:n]` for `n >= 0` and pandas' `head(n)`. */
  function Take<T>(s: seq<T>, n: nat): (r: seq<T>)
    ensures |r| == Min(n, |s|)
    ensures forall i :: 0 <= i < |r| ==> r[i] == s[i]
  {
    if |s| <= n then s else s[..n]
  }

  /** The elements of `s` that satisfy `p`, in their original order. */
  function Filter<T>(p: T -> bool, s: seq<T>): (r: seq<T>)
    ensures |r| <= |s|
    ensures forall x :: x in r ==> x in s && p(x)
    decreases |s|
  {
    if s == [] then []
    else
      var init := Filter(p, s[..|s| - 1]);
      if p(s[|s| - 1]) then init + [s[|s| - 1]] else init
  }

  /** The positions in `s` whose elements satisfy `p`, in increasing order. */
  function FilterIndices<T>(p: T -> bool, s: seq<T>): (r: seq<nat>)
    decreases |s|
  {
    if s == [] then []
    else
      var init := FilterIndices(p, s[..|s| - 1]);
      if p(s[|s| - 1]) then init + [|s| - 1] else init
  }

  /** The positions `j < n` of `s` whose elements satisfy `p`. */
  ghost function Matching<T>(p: T -> bool, s: seq<T>, n: nat): set<nat>
    requires n <= |s|
  {
    set j: nat | j < n && p(s[j])
  }

  /** Matching positions below `n` depend only on the first `n` elements. */
  lemma MatchingPrefix<T>(p: T -> bool, s: seq<T>, t: seq<T>, n: nat)
    requires n <= |s| && n <= |t|
    requires forall j :: 0 <= j < n ==> s[j] == t[j]
    ensures Matching(p, s, n) == Matching(p, t, n)
  {
  }

  /** Filtering keeps exactly the elements that satisfy `p`, each once, in
      order: the k-th kept element is the element at the k-th position
      listed by FilterIndices, those positions increase strictly, and a
      position is listed exactly when its element satisfies `p`. */
  lemma FilterAt<T>(p: T -> bool, s: seq<T>)
    ensures |Filter(p, s)| == |FilterIndices(p, s)|
    ensures forall k :: 0 <= k < |FilterIndices(p, s)| ==>
      FilterIndices(p, s)[k] < |s| && Filter(p, s)[k] == s[FilterIndices(p, s)[k]]
    ensures forall k, l :: 0 <= k < l < |FilterIndices(p, s)| ==>
      FilterIndices(p, s)[k] < FilterIndices(p, s)[l]
    ensures forall j :: 0 <= j < |s| ==> (p(s[j]) <==> j in FilterIndices(p, s))
  {
    FilterIndicesSelect(p, s);
    FilterIndicesIncrease(p, s);
    FilterIndicesComplete(p, s);
  }

  /** The k-th kept element is the element at the k-th listed position. */
  lemma {:induction false} FilterIndicesSelect<T>(p: T -> bool, s: seq<T>)
    ensures |Filter(p, s)| == |FilterIndices(p, s)|
    ensures forall k :: 0 <= k < |FilterIndices(p, s)| ==>
      FilterIndices(p, s)[k] < |s| && Filter(p, s)[k] == s[FilterIndices(p, s)[k]]
    decreases |s|
  {
    if s != [] {
      var init := s[..|s| - 1];
      FilterIndicesSelect(p, init);
      forall j | 0 <= j < |init| ensures s[j] == init[j] { }
    }
  }

  /** The listed positions increase strictly and lie below |s|. */
  lemma {:induction false} FilterIndicesIncrease<T>(p: T -> bool, s: seq<T>)
    ensures forall k :: 0 <= k < |FilterIndices(p, s)| ==> FilterIndices(p, s)[k] < |s|
    ensures forall k, l :: 0 <= k < l < |FilterIndices(p, s)| ==>
      FilterIndices(p, s)[k] < FilterIndices(p, s)[l]
    decreases |s|
  {
    if s != [] {
      FilterIndicesIncrease(p, s[..|s| - 1]);
    }
  }

  /** A position is listed exactly when its element satisfies `p`. */
  lemma {:induction false} FilterIndicesComplete<T>(p: T -> bool, s: seq<T>)
    ensures forall j :: 0 <= j < |s| ==> (p(s[j]) <==> j in FilterIndices(p, s))
    decreases |s|
  {
    if s != [] {
      var init := s[..|s| - 1];
      FilterIndicesComplete(p, init);
      FilterIndicesIncrease(p, init);
      forall j | 0 <= j < |init| ensures s[j] == init[j] { }
    }
  }

  /** Filtering a concatenation filters each part. */
  lemma {:induction false} FilterAppend<T>(p: T -> bool, a: seq<T>, b: seq<T>)
    ensures Filter(p, a + b) == Filter(p, a) + Filter(p, b)
    decreases |b|
  {
    if b != [] {
      var b' := b[..|b| - 1];
      assert (a + b)[..|a + b| - 1] == a + b';
      FilterAppend(p, a, b');
    } else {
      assert a + b == a;
    }
  }

  /** The number of kept elements is the number of positions whose element
      satisfies `p`. */
  lemma {:induction false} FilterCount<T>(p: T -> bool, s: seq<T>)
    ensures |Filter(p, s)| == |Matching(p, s, |s|)|
    decreases |s|
  {
    if s != [] {
      var n := |s| - 1;
      var init := s[..n];
      FilterCount(p, init);
      assert Matching(p, init, n) == Matching(p, s, n);
      if p(s[n]) {
        assert Matching(p, s, n + 1) == Matching(p, s, n) + {n};
      } else {
        assert Matching(p, s, n + 1) == Matching(p, s, n);
      }
    } else {
      assert Matching(p, s, 0) == {};
    }
  }

  /** The k-th kept position is preceded by exactly k positions whose
      elements satisfy `p`: no satisfying element is skipped. */
  lemma {:induction false} FilterIndexRank<T>(p: T -> bool, s: seq<T>)
    ensures forall k :: 0 <= k < |FilterIndices(p, s)| ==>
      FilterIndices(p, s)[k] <= |s| && |Matching(p, s, FilterIndices(p, s)[k])| == k
    decreases |s|
  {
    if s != [] {
      var n := |s| - 1;
      var init := s[..n];
      FilterIndexRank(p, init);
      FilterAt(p, init);
      forall m | 0 <= m <= n ensures Matching(p, s, m) == Matching(p, init, m) {
        assert forall j :: 0 <= j < m ==> s[j] == init[j];
      }
      if p(s[n]) {
        FilterCount(p, init);
      }
    }
  }
}
