/** One sliding window of samples, pruned from the front on every add. */
module Baseline {
  import opened Sequences
  import opened Statistics

  /** Drops the stale prefix, and only the prefix. */
  function DropStale(w: seq<Sample>, cutoff: int): seq<Sample> {
    if w != [] && w[0].ts < cutoff then DropStale(w[1..], cutoff) else w
  }

  /** The window after one more sample. */
  function Push(w: seq<Sample>, x: Sample, window: nat): seq<Sample> {
    DropStale(w + [x], x.ts - window)
  }

  /** The window after adding `xs` in order to an empty one. */
  function PushAll(xs: seq<Sample>, window: nat): seq<Sample> {
    if xs == [] then [] else Push(PushAll(xs[..|xs| - 1], window), xs[|xs| - 1], window)
  }

  ghost predicate IsSuffix<T>(s: seq<T>, of: seq<T>) {
    |s| <= |of| && s == of[|of| - |s|..]
  }

  lemma {:induction false} DropStaleShape(w: seq<Sample>, cutoff: int)
    ensures IsSuffix(DropStale(w, cutoff), w)
    ensures DropStale(w, cutoff) != [] ==> DropStale(w, cutoff)[0].ts >= cutoff
    ensures w != [] && w[|w| - 1].ts >= cutoff ==> DropStale(w, cutoff) != []
  {
    if w != [] && w[0].ts < cutoff {
      DropStaleShape(w[1..], cutoff);
      var r := DropStale(w[1..], cutoff);
      assert DropStale(w, cutoff) == r;
      hide DropStale;
      assert r == w[1..][|w| - 1 - |r|..] == w[|w| - |r|..];
    }
  }

  /** Pruning a prefix never loses a sample that is not stale itself. */
  lemma {:induction false} DropStaleKeeps(w: seq<Sample>, cutoff: int, i: nat)
    requires i < |w| && w[i].ts >= cutoff
    ensures w[i] in DropStale(w, cutoff)
  {
    if w[0].ts < cutoff {
      DropStaleKeeps(w[1..], cutoff, i - 1);
    }
  }

  lemma {:induction false} PushIsSuffix(w: seq<Sample>, ys: seq<Sample>, x: Sample, window: nat)
    requires IsSuffix(w, ys)
    ensures var r := Push(w, x, window);
      r != [] && IsSuffix(r, ys + [x]) && r[|r| - 1] == x && r[0].ts >= x.ts - window
  {
    DropStaleShape(w + [x], x.ts - window);
    var r := Push(w, x, window);
    hide DropStale;
    assert r == (w + [x])[|w| + 1 - |r|..];
    assert r == (ys + [x])[|ys| + 1 - |r|..];
  }

  /** After any adds the window is a non-empty suffix of everything added; it
      ends with the last sample and starts within `window` of it. */
  lemma {:induction false} PushAllIsSuffix(xs: seq<Sample>, window: nat)
    requires xs != []
    ensures var w := PushAll(xs, window);
      w != [] && IsSuffix(w, xs) && w[|w| - 1] == xs[|xs| - 1] && w[0].ts >= xs[|xs| - 1].ts - window
  {
    var ys, x := xs[..|xs| - 1], xs[|xs| - 1];
    if ys == [] {
      assert PushAll(ys, window) == [];
    } else {
      PushAllIsSuffix(ys, window);
    }
    assert xs == ys + [x];
    PushIsSuffix(PushAll(ys, window), ys, x, window);
  }

  /** No sample that is stale at the cutoff stands behind one that is not. */
  ghost predicate StaleFirst(w: seq<Sample>, cutoff: int) {
    forall i, j :: 0 <= i < j < |w| && w[j].ts < cutoff ==> w[i].ts < cutoff
  }

  /** An add leaves only samples within the window exactly when the stale ones all
      stood in front. */
  lemma {:induction false} PushIsFreshIff(w: seq<Sample>, x: Sample, window: nat)
    ensures (forall y :: y in Push(w, x, window) ==> y.ts >= x.ts - window) <==> StaleFirst(w, x.ts - window)
  {
    var cutoff := x.ts - window;
    assert StaleFirst(w + [x], cutoff) <==> StaleFirst(w, cutoff) by {
      assert forall i :: 0 <= i < |w| ==> (w + [x])[i] == w[i];
    }
    DropStaleIsFreshIff(w + [x], cutoff);
  }

  lemma {:induction false} DropStaleIsFreshIff(w: seq<Sample>, cutoff: int)
    ensures (forall y :: y in DropStale(w, cutoff) ==> y.ts >= cutoff) <==> StaleFirst(w, cutoff)
  {
    if w == [] {
    } else if w[0].ts < cutoff {
      DropStaleIsFreshIff(w[1..], cutoff);
      assert StaleFirst(w[1..], cutoff) <==> StaleFirst(w, cutoff) by {
        assert forall i :: 1 <= i < |w| ==> w[i] == w[1..][i - 1];
      }
    } else {
      assert forall j :: 0 <= j < |w| ==> w[j] in w;
    }
  }

  /** Samples re-read by later ticks: each is at most `slack` older than any
      sample added before it. */
  ghost predicate NearlyOrdered(xs: seq<Sample>, slack: nat) {
    forall i, j :: 0 <= i < j < |xs| ==> xs[j].ts >= xs[i].ts - slack
  }

  /** Bounded staleness: although the list is not sorted by time, no retained
      sample is more than window + slack older than the last one added. */
  lemma {:induction false} BoundedStaleness(xs: seq<Sample>, window: nat, slack: nat)
    requires xs != [] && NearlyOrdered(xs, slack)
    ensures forall x :: x in PushAll(xs, window) ==> x.ts >= xs[|xs| - 1].ts - window - slack
  {
    PushAllIsSuffix(xs, window);
    var w := PushAll(xs, window);
    var o := |xs| - |w|;
    forall k | 0 <= k < |w|
      ensures w[k].ts >= xs[|xs| - 1].ts - window - slack
    {
      assert w[k] == xs[o + k] && w[0] == xs[o];
    }
  }

  /** The samples a time filter keeps. */
  function Within(xs: seq<Sample>, cutoff: int): seq<Sample> {
    if xs == [] then []
    else Within(xs[..|xs| - 1], cutoff) + if xs[|xs| - 1].ts >= cutoff then [xs[|xs| - 1]] else []
  }

  ghost predicate TimeOrdered(xs: seq<Sample>) {
    forall i, j :: 0 <= i < j < |xs| ==> xs[i].ts <= xs[j].ts
  }

  lemma {:induction false} WithinConcat(a: seq<Sample>, b: seq<Sample>, cutoff: int)
    ensures Within(a + b, cutoff) == Within(a, cutoff) + Within(b, cutoff)
  {
    if b == [] {
      assert a + b == a;
    } else {
      assert (a + b)[..|a + b| - 1] == a + b[..|b| - 1];
      WithinConcat(a, b[..|b| - 1], cutoff);
    }
  }

  lemma {:induction false} WithinAll(xs: seq<Sample>, cutoff: int)
    ensures (forall x :: x in xs ==> x.ts >= cutoff) ==> Within(xs, cutoff) == xs
    ensures (forall x :: x in xs ==> x.ts < cutoff) ==> Within(xs, cutoff) == []
  {
    if xs == [] {
    } else {
      var ys := xs[..|xs| - 1];
      assert xs == ys + [xs[|xs| - 1]];
      WithinAll(ys, cutoff);
    }
  }

  lemma {:induction false} DropStaleIsWithin(w: seq<Sample>, cutoff: int)
    requires TimeOrdered(w)
    ensures DropStale(w, cutoff) == Within(w, cutoff)
  {
    if w == [] {
    } else {
      assert w == [w[0]] + w[1..];
      if w[0].ts < cutoff {
        DropStaleIsWithin(w[1..], cutoff);
        WithinConcat([w[0]], w[1..], cutoff);
        WithinAll([w[0]], cutoff);
      } else {
        WithinAll(w, cutoff);
      }
    }
  }

  lemma {:induction false} WithinTwice(xs: seq<Sample>, c: int, d: int)
    requires c <= d
    ensures Within(Within(xs, c), d) == Within(xs, d)
  {
    if xs == [] {
    } else {
      var ys, x := xs[..|xs| - 1], [xs[|xs| - 1]];
      WithinTwice(ys, c, d);
      WithinConcat(Within(ys, c), if x[0].ts >= c then x else [], d);
      WithinAll(x, d);
    }
  }

  lemma SuffixOrdered(w: seq<Sample>, ys: seq<Sample>, x: Sample)
    requires IsSuffix(w, ys) && TimeOrdered(ys + [x])
    ensures TimeOrdered(w + [x])
  {
    var xs, o := ys + [x], |ys| - |w|;
    forall i, j | 0 <= i < j < |w + [x]|
      ensures (w + [x])[i].ts <= (w + [x])[j].ts
    {
      assert (w + [x])[i] == xs[o + i] && (w + [x])[j] == xs[o + j];
    }
  }

  lemma {:induction false} OrderedPush(w: seq<Sample>, ys: seq<Sample>, x: Sample, window: nat)
    requires ys != [] && TimeOrdered(ys + [x]) && IsSuffix(w, ys) && w == Within(ys, ys[|ys| - 1].ts - window)
    ensures Push(w, x, window) == Within(ys + [x], x.ts - window)
  {
    var before, cutoff := ys[|ys| - 1].ts - window, x.ts - window;
    SuffixOrdered(w, ys, x);
    assert before <= cutoff by { assert (ys + [x])[|ys| - 1].ts <= (ys + [x])[|ys|].ts; }
    calc {
      Push(w, x, window);
      { DropStaleIsWithin(w + [x], cutoff); }
      Within(w + [x], cutoff);
      { WithinConcat(w, [x], cutoff); }
      Within(w, cutoff) + Within([x], cutoff);
      { WithinTwice(ys, before, cutoff); }
      Within(ys, cutoff) + Within([x], cutoff);
      { WithinConcat(ys, [x], cutoff); }
      Within(ys + [x], cutoff);
    }
  }

  /** When samples do arrive in time order, the window is exactly the filter
      "not older than `window` before the last sample". */
  lemma {:induction false} OrderedWindowIsFilter(xs: seq<Sample>, window: nat)
    requires xs != [] && TimeOrdered(xs)
    ensures PushAll(xs, window) == Within(xs, xs[|xs| - 1].ts - window)
  {
    var ys, x := xs[..|xs| - 1], xs[|xs| - 1];
    assert xs == ys + [x];
    if ys == [] {
      WithinAll([x], x.ts - window);
      assert PushAll(ys, window) + [x] == [x];
    } else {
      OrderedWindowIsFilter(ys, window);
      PushAllIsSuffix(ys, window);
      OrderedPush(PushAll(ys, window), ys, x, window);
    }
  }

  class Window {
    const window: nat
    var values: seq<Sample>

    constructor (window: nat)
      ensures this.window == window && values == []
    {
      this.window := window;
      values := [];
    }

    /** Appends a sample, then re-slices past the stale prefix. */
    method Add(ts: int, value: real)
      modifies this
      ensures values == Push(old(values), Sample(ts, value), window)
    {
      values := values + [Sample(ts, value)];
      var cutoff := ts - window;
      var i := 0;
      while i < |values| && values[i].ts < cutoff
        invariant 0 <= i <= |values|
        invariant DropStale(values[i..], cutoff) == DropStale(values, cutoff)
      {
        assert values[i..][1..] == values[i + 1..];
        i := i + 1;
      }
      values := values[i..];
    }

    /** Population mean and variance; none below MIN_SAMPLES samples. */
    method Stats() returns (st: Option<Stats>)
      ensures st == StatsOf(values)
    {
      if |values| < MIN_SAMPLES {
        return None;
      }
      var n := |values| as real;
      var sum := 0.0;
      for i := 0 to |values|
        invariant sum == SumOver(values[..i], Value())
      {
        assert values[..i + 1][..i] == values[..i];
        sum := sum + values[i].value;
      }
      assert values[..|values|] == values;
      var mean := sum / n;
      var variance := 0.0;
      for i := 0 to |values|
        invariant variance == SumOver(values[..i], SquaredDistance(mean))
      {
        assert values[..i + 1][..i] == values[..i];
        var d := values[i].value - mean;
        variance := variance + d * d;
      }
      st := Some(Moments(mean, variance / n));
    }
  }
}
