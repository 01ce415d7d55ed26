/**
 * The array operations the site relies on, `filter` and `find`, over
 * sequences. The test each one applies is a named predicate `keep(x, k)`
 * together with its key `k`, standing for the arrow `x => keep(x, k)`.
 */
module Seqs {
  import opened Wrappers

  /**
   * `a` occurs in `b` in order, possibly with gaps: matching greedily from
   * the left, every element of `a` is found at or after the previous one.
   */
  predicate IsSubsequence<T(==)>(a: seq<T>, b: seq<T>)
    decreases |b|
  {
    if a == [] then true
    else if b == [] then false
    else if a[0] == b[0] then IsSubsequence(a[1..], b[1..])
    else IsSubsequence(a, b[1..])
  }

  /** `s.filter(x => keep(x, k))` */
  function Filter<T(==), K>(s: seq<T>, keep: (T, K) -> bool, k: K): (r: seq<T>)
    ensures |r| <= |s|
    ensures forall i :: 0 <= i < |r| ==> r[i] in s && keep(r[i], k)
    ensures forall i :: 0 <= i < |s| && keep(s[i], k) ==> s[i] in r
    decreases |s|
  {
    if s == [] then []
    else if keep(s[0], k) then [s[0]] + Filter(s[1..], keep, k)
    else Filter(s[1..], keep, k)
  }

  /** The filtered sequence keeps the original order. */
  lemma {:induction false} FilterIsSubsequence<T, K>(s: seq<T>, keep: (T, K) -> bool, k: K)
    ensures IsSubsequence(Filter(s, keep, k), s)
    decreases |s|
  {
    if s != [] {
      FilterIsSubsequence(s[1..], keep, k);
    }
  }

  /** Every kept value occurs as often as in the input; every other value not at all. */
  lemma {:induction false} FilterMultiplicity<T, K>(s: seq<T>, keep: (T, K) -> bool, k: K, x: T)
    ensures multiset(Filter(s, keep, k))[x] == if keep(x, k) then multiset(s)[x] else 0
    decreases |s|
  {
    if s != [] {
      FilterMultiplicity(s[1..], keep, k, x);
      assert s == [s[0]] + s[1..];
    }
  }

  /** Filtering distributes over concatenation. */
  lemma {:induction false} FilterConcat<T, K>(a: seq<T>, b: seq<T>, keep: (T, K) -> bool, k: K)
    ensures Filter(a + b, keep, k) == Filter(a, keep, k) + Filter(b, keep, k)
    decreases |a|
  {
    if a != [] {
      assert (a + b)[1..] == a[1..] + b;
      FilterConcat(a[1..], b, keep, k);
    } else {
      assert a + b == b;
    }
  }

  /** When every element passes, filtering returns the input unchanged. */
  lemma {:induction false} FilterAllKept<T, K>(s: seq<T>, keep: (T, K) -> bool, k: K)
    requires forall i :: 0 <= i < |s| ==> keep(s[i], k)
    ensures Filter(s, keep, k) == s
    decreases |s|
  {
    if s != [] {
      FilterAllKept(s[1..], keep, k);
    }
  }

  /** Filtering twice with the same test is filtering once. */
  lemma FilterIdempotent<T, K>(s: seq<T>, keep: (T, K) -> bool, k: K)
    ensures Filter(Filter(s, keep, k), keep, k) == Filter(s, keep, k)
  {
    FilterAllKept(Filter(s, keep, k), keep, k);
  }

  /** Two keys that decide every element alike give the same result. */
  lemma {:induction false} FilterCongruent<T, K>(s: seq<T>, keep: (T, K) -> bool, k1: K, k2: K)
    requires forall i :: 0 <= i < |s| ==> keep(s[i], k1) == keep(s[i], k2)
    ensures Filter(s, keep, k1) == Filter(s, keep, k2)
    decreases |s|
  {
    if s != [] {
      FilterCongruent(s[1..], keep, k1, k2);
    }
  }

  /** The index `s.findIndex(x => hit(x, k))`, or `None` for -1. */
  function FirstIndex<T, K>(s: seq<T>, hit: (T, K) -> bool, k: K): (r: Option<nat>)
    ensures r.Some? ==> r.value < |s| && hit(s[r.value], k)
    ensures r.Some? ==> forall j :: 0 <= j < r.value ==> !hit(s[j], k)
    ensures r.None? <==> forall j :: 0 <= j < |s| ==> !hit(s[j], k)
    decreases |s|
  {
    if s == [] then None
    else if hit(s[0], k) then Some(0)
    else
      match FirstIndex(s[1..], hit, k)
      case None => None
      case Some(i) => Some(i + 1)
  }

  /** `s.find(x => hit(x, k))`: the first element that passes, if any. */
  function Find<T, K>(s: seq<T>, hit: (T, K) -> bool, k: K): (r: Option<T>)
    ensures r.None? <==> forall j :: 0 <= j < |s| ==> !hit(s[j], k)
    ensures r.Some? ==> exists i :: 0 <= i < |s| && r.value == s[i] && hit(s[i], k) &&
                                     forall j :: 0 <= j < i ==> !hit(s[j], k)
  {
    match FirstIndex(s, hit, k)
    case None => None
    case Some(i) => Some(s[i])
  }
}
