/** Sequence functions shared by the monitor and the simulator models. Every
    fold takes its last element first, so that a forward loop extends it. */
module Sequences {

  datatype Option<+T> = None | Some(value: T)

  function Filter<T>(s: seq<T>, keep: T -> bool): (r: seq<T>)
    ensures |r| <= |s|
    ensures forall x :: x in r ==> x in s && keep(x)
    ensures forall x :: x in s && keep(x) ==> x in r
  {
    if s == [] then []
    else
      var r := Filter(s[..|s| - 1], keep);
      var x := s[|s| - 1];
      assert s == s[..|s| - 1] + [x];
      if keep(x) then r + [x] else r
  }

  function Count<T>(s: seq<T>, p: T -> bool): (n: nat)
    ensures n <= |s|
  {
    if s == [] then 0 else Count(s[..|s| - 1], p) + if p(s[|s| - 1]) then 1 else 0
  }

  function Sum<T>(s: seq<T>, f: T -> int): int {
    if s == [] then 0 else Sum(s[..|s| - 1], f) + f(s[|s| - 1])
  }

  function Flatten<T>(ss: seq<seq<T>>): seq<T> {
    if ss == [] then [] else Flatten(ss[..|ss| - 1]) + ss[|ss| - 1]
  }

  lemma {:induction false} CountConcat<T>(a: seq<T>, b: seq<T>, p: T -> bool)
    ensures Count(a + b, p) == Count(a, p) + Count(b, p)
  {
    if b == [] {
      assert a + b == a;
    } else {
      var b0 := b[..|b| - 1];
      assert (a + b)[..|a + b| - 1] == a + b0;
      CountConcat(a, b0, p);
    }
  }

  lemma {:induction false} SumConcat<T>(a: seq<T>, b: seq<T>, f: T -> int)
    ensures Sum(a + b, f) == Sum(a, f) + Sum(b, f)
  {
    if b == [] {
      assert a + b == a;
    } else {
      var b0 := b[..|b| - 1];
      assert (a + b)[..|a + b| - 1] == a + b0;
      SumConcat(a, b0, f);
    }
  }

  /** Replacing one element moves a sum by the difference of the two terms. */
  lemma {:induction false} SumUpdate<T>(s: seq<T>, i: nat, x: T, f: T -> int)
    requires i < |s|
    ensures Sum(s[i := x], f) == Sum(s, f) - f(s[i]) + f(x)
  {
    var a, b := s[..i], s[i + 1..];
    assert s == (a + [s[i]]) + b && s[i := x] == (a + [x]) + b;
    SumConcat(a + [s[i]], b, f);
    SumConcat(a + [x], b, f);
    SumConcat(a, [s[i]], f);
    SumConcat(a, [x], f);
    SumOne(s[i], f);
    SumOne(x, f);
    hide Sum;
  }

  lemma SumOne<T>(x: T, f: T -> int)
    ensures Sum([x], f) == f(x)
  {
    assert [x][..0] == [];
  }

  lemma {:induction false} SumBounded<T>(s: seq<T>, f: T -> int, i: nat)
    requires forall x :: x in s ==> f(x) >= 0
    requires i < |s|
    ensures Sum(s, f) >= f(s[i])
    ensures Sum(s, f) >= 0
    decreases |s|
  {
    var s0 := s[..|s| - 1];
    assert forall x :: x in s0 ==> x in s;
    if i < |s0| {
      SumBounded(s0, f, i);
    } else {
      SumNonNegative(s0, f);
    }
  }

  lemma {:induction false} SumNonNegative<T>(s: seq<T>, f: T -> int)
    requires forall x :: x in s ==> f(x) >= 0
    ensures Sum(s, f) >= 0
  {
    if s == [] {
    } else {
      var s0 := s[..|s| - 1];
      assert forall x :: x in s0 ==> x in s;
      SumNonNegative(s0, f);
    }
  }

  /** Two sums agree when their terms agree on every element. */
  lemma {:induction false} SumCongruent<T>(s: seq<T>, f: T -> int, g: T -> int)
    requires forall x :: x in s ==> f(x) == g(x)
    ensures Sum(s, f) == Sum(s, g)
  {
    if s == [] {
    } else {
      var s0 := s[..|s| - 1];
      assert forall x :: x in s0 ==> x in s;
      SumCongruent(s0, f, g);
    }
  }

  lemma {:induction false} CountOne<T>(x: T, p: T -> bool)
    ensures Count([x], p) == if p(x) then 1 else 0
  {
    assert [x][..0] == [];
  }

  lemma {:induction false} CountRemove<T>(s: seq<T>, j: nat, p: T -> bool)
    requires j < |s|
    ensures Count(s, p) == Count(s[..j] + s[j + 1..], p) + if p(s[j]) then 1 else 0
  {
    var l, r := s[..j], s[j + 1..];
    assert s == (l + [s[j]]) + r;
    CountConcat(l + [s[j]], r, p);
    CountConcat(l, [s[j]], p);
    CountConcat(l, r, p);
    CountOne(s[j], p);
    hide Count;
  }

  /** Replacing one element changes a count by at most one. */
  lemma {:induction false} CountUpdate<T>(s: seq<T>, i: nat, x: T, p: T -> bool)
    requires i < |s|
    ensures Count(s[i := x], p) + (if p(s[i]) then 1 else 0) == Count(s, p) + if p(x) then 1 else 0
  {
    CountRemove(s, i, p);
    CountRemove(s[i := x], i, p);
    assert s[i := x][..i] + s[i := x][i + 1..] == s[..i] + s[i + 1..];
  }

  lemma {:induction false} CountSnoc<T>(s: seq<T>, x: T, p: T -> bool)
    ensures Count(s + [x], p) == Count(s, p) + if p(x) then 1 else 0
  {
    assert (s + [x])[..|s|] == s;
  }

  lemma {:induction false} SumSnoc<T>(s: seq<T>, x: T, f: T -> int)
    ensures Sum(s + [x], f) == Sum(s, f) + f(x)
  {
    assert (s + [x])[..|s|] == s;
  }

  lemma {:induction false} CountPositive<T>(s: seq<T>, p: T -> bool)
    ensures Count(s, p) > 0 <==> exists i :: 0 <= i < |s| && p(s[i])
  {
    if s == [] {
    } else {
      CountPositive(s[..|s| - 1], p);
      if Count(s, p) > 0 && !p(s[|s| - 1]) {
        var i :| 0 <= i < |s| - 1 && p(s[..|s| - 1][i]);
        assert p(s[i]);
      }
      if i :| 0 <= i < |s| && p(s[i]) {
        if i < |s| - 1 { assert p(s[..|s| - 1][i]); }
      }
    }
  }

  lemma MultisetRemove<T>(s: seq<T>, j: nat)
    requires j < |s|
    ensures multiset(s[..j] + s[j + 1..]) == multiset(s) - multiset{s[j]}
  {
    assert s == s[..j] + [s[j]] + s[j + 1..];
  }

  /** A count depends only on which elements occur, and how often. */
  lemma {:induction false} CountPermutation<T>(a: seq<T>, b: seq<T>, p: T -> bool)
    requires multiset(a) == multiset(b)
    ensures Count(a, p) == Count(b, p)
    decreases |a|
  {
    if a == [] {
      assert b == [] by { assert |multiset(b)| == |b|; }
    } else {
      var i := |a| - 1;
      assert a[i] in multiset(b);
      var j :| 0 <= j < |b| && b[j] == a[i];
      MultisetRemove(a, i);
      MultisetRemove(b, j);
      CountPermutation(a[..i] + a[i + 1..], b[..j] + b[j + 1..], p);
      CountRemove(a, i, p);
      CountRemove(b, j, p);
    }
  }

  lemma {:induction false} FlattenConcat<T>(a: seq<seq<T>>, b: seq<seq<T>>)
    ensures Flatten(a + b) == Flatten(a) + Flatten(b)
  {
    if b == [] {
      assert a + b == a;
    } else {
      var b0 := b[..|b| - 1];
      assert (a + b)[..|a + b| - 1] == a + b0;
      FlattenConcat(a, b0);
    }
  }

  lemma {:induction false} FlattenMember<T>(ss: seq<seq<T>>, x: T) returns (i: nat)
    requires x in Flatten(ss)
    ensures i < |ss| && x in ss[i]
  {
    if x in ss[|ss| - 1] {
      i := |ss| - 1;
    } else {
      i := FlattenMember(ss[..|ss| - 1], x);
    }
  }

  lemma {:induction false} FlattenHas<T>(ss: seq<seq<T>>, i: nat, x: T)
    requires i < |ss| && x in ss[i]
    ensures x in Flatten(ss)
  {
    if i < |ss| - 1 {
      FlattenHas(ss[..|ss| - 1], i, x);
    }
  }

  /** Pigeonhole: an injective assignment needs at least as many holes. */
  lemma {:induction false} Pigeonhole(hole: seq<nat>, holes: nat)
    requires forall i :: 0 <= i < |hole| ==> hole[i] < holes
    requires forall i, j :: 0 <= i < j < |hole| ==> hole[i] != hole[j]
    ensures |hole| <= holes
  {
    var used := set h | h in hole;
    DistinctCardinality(hole);
    var all := Below(holes);
    BelowHas(holes);
    assert used <= all;
    SubsetCardinality(used, all);
  }

  lemma {:induction false} DistinctCardinality<T>(s: seq<T>)
    requires forall i, j :: 0 <= i < j < |s| ==> s[i] != s[j]
    ensures |set x | x in s| == |s|
  {
    if s == [] {
    } else {
      var s0 := s[..|s| - 1];
      DistinctCardinality(s0);
      assert (set x | x in s) == (set x | x in s0) + {s[|s| - 1]};
    }
  }

  function Below(n: nat): (r: set<nat>)
    ensures |r| == n && forall h :: h in r ==> h < n
  {
    if n == 0 then {} else Below(n - 1) + {n - 1}
  }

  lemma {:induction false} BelowHas(n: nat)
    ensures forall h: nat :: h < n ==> h in Below(n)
  {
    if n > 0 {
      BelowHas(n - 1);
    }
  }

  lemma {:induction false} SubsetCardinality<T>(a: set<T>, b: set<T>)
    requires a <= b
    ensures |a| <= |b|
  {
    if a == {} {
    } else {
      var x :| x in a;
      SubsetCardinality(a - {x}, b - {x});
    }
  }
}
