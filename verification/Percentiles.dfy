/** Latency percentiles: a copy of the list is sorted in place and indexed. */
module Percentiles {
  import opened Sequences

  ghost predicate Ascending(s: seq<real>) {
    forall i, j :: 0 <= i < j < |s| ==> s[i] <= s[j]
  }

  function AtMost(v: real): real -> bool { (x: real) => x <= v }
  function AtLeast(v: real): real -> bool { (x: real) => x >= v }

  /** v has rank i: it occurs, at least i + 1 elements are no larger, and at least
      n - i are no smaller. */
  ghost predicate HasRank(s: seq<real>, v: real, i: nat) {
    v in s && Count(s, AtMost(v)) >= i + 1 && Count(s, AtLeast(v)) >= |s| - i
  }

  lemma {:induction false} CountAll<T>(s: seq<T>, p: T -> bool)
    requires forall k :: 0 <= k < |s| ==> p(s[k])
    ensures Count(s, p) == |s|
  {
    if s == [] {
    } else {
      CountAll(s[..|s| - 1], p);
    }
  }

  /** In an ascending list the element at index i has rank i. */
  lemma AscendingRank(s: seq<real>, i: nat)
    requires Ascending(s) && i < |s|
    ensures HasRank(s, s[i], i)
  {
    var v := s[i];
    CountAll(s[..i + 1], AtMost(v));
    CountAll(s[i..], AtLeast(v));
    CountConcat(s[..i + 1], s[i + 1..], AtMost(v));
    CountConcat(s[..i], s[i..], AtLeast(v));
    assert s == s[..i + 1] + s[i + 1..] && s == s[..i] + s[i..];
  }

  /** A rank depends only on which elements occur, and how often. */
  lemma RankOfPermutation(a: seq<real>, b: seq<real>, v: real, i: nat)
    requires multiset(a) == multiset(b) && HasRank(a, v, i)
    ensures HasRank(b, v, i)
  {
    CountPermutation(a, b, AtMost(v));
    CountPermutation(a, b, AtLeast(v));
    assert |multiset(a)| == |a| && |multiset(b)| == |b|;
    assert v in multiset(a);
  }

  /** Insertion sort, in place. */
  method SortInPlace(a: array<real>)
    modifies a
    ensures Ascending(a[..]) && multiset(a[..]) == multiset(old(a[..]))
  {
    for k := 0 to a.Length
      invariant Ascending(a[..k])
      invariant multiset(a[..]) == multiset(old(a[..]))
    {
      SinkInto(a, k);
    }
    assert a[..a.Length] == a[..];
  }

  method Swap(a: array<real>, i: nat, j: nat)
    requires i < a.Length && j < a.Length
    modifies a
    ensures a[..] == old(a[..])[i := old(a[j])][j := old(a[i])]
    ensures multiset(a[..]) == multiset(old(a[..]))
  {
    a[i], a[j] := a[j], a[i];
  }

  /** Moves a[k] down into the ascending prefix before it. */
  method SinkInto(a: array<real>, k: nat)
    requires k < a.Length && Ascending(a[..k])
    modifies a
    ensures Ascending(a[..k + 1]) && multiset(a[..]) == multiset(old(a[..]))
  {
    var j := k;
    while j > 0 && a[j - 1] > a[j]
      invariant 0 <= j <= k
      invariant forall p, q :: 0 <= p < q <= k && q != j ==> a[p] <= a[q]
      invariant multiset(a[..]) == multiset(old(a[..]))
    {
      Swap(a, j - 1, j);
      j := j - 1;
    }
  }

  lemma SortedRank(sorted: seq<real>, s: seq<real>, i: nat)
    requires Ascending(sorted) && multiset(sorted) == multiset(s) && i < |sorted|
    ensures HasRank(s, sorted[i], i)
  {
    AscendingRank(sorted, i);
    RankOfPermutation(sorted, s, sorted[i], i);
  }

  /** A rank names one value only. */
  lemma RankUnique(s: seq<real>, v: real, w: real, i: nat)
    requires HasRank(s, v, i) && HasRank(s, w, i)
    ensures v == w
  {
    if v < w {
      NoOverlap(s, v, w);
    } else if w < v {
      NoOverlap(s, w, v);
    }
  }

  lemma {:induction false} NoOverlap(s: seq<real>, v: real, w: real)
    requires v < w
    ensures Count(s, AtMost(v)) + Count(s, AtLeast(w)) <= |s|
  {
    if s == [] {
    } else {
      NoOverlap(s[..|s| - 1], v, w);
    }
  }

  method Copied(a: array<real>) returns (b: array<real>)
    ensures fresh(b) && b[..] == a[..]
  {
    b := new real[a.Length];
    for i := 0 to a.Length
      invariant b[..i] == a[..i]
    {
      b[i] := a[i];
    }
    assert b[..a.Length] == b[..] && a[..a.Length] == a[..];
  }

  /** The median and the 99th percentile by rank; zeros for an empty list. The
      list itself is not modified. */
  method LatencyPercentiles(latencies: array<real>) returns (p50: real, p99: real)
    ensures latencies.Length == 0 ==> p50 == 0.0 && p99 == 0.0
    ensures var n := latencies.Length;
      n > 0 ==> HasRank(latencies[..], p50, n / 2) && HasRank(latencies[..], p99, 99 * n / 100) && p50 <= p99
  {
    var n := latencies.Length;
    if n == 0 {
      return 0.0, 0.0;
    }
    var sorted := Copied(latencies);
    SortInPlace(sorted);
    p50, p99 := sorted[n / 2], sorted[99 * n / 100];
    SortedRank(sorted[..], latencies[..], n / 2);
    SortedRank(sorted[..], latencies[..], 99 * n / 100);
    hide HasRank;
  }
}
