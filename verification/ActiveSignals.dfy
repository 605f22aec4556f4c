/** The active-signal set: pruning, merging, and grouping in time. */
module ActiveSignals {
  import opened Sequences
  import opened Signals
  import Sorting

  const SIGNAL_WINDOW: nat := 30000
  const GROUP_WINDOW: nat := 10000

  // ---------------------------------------------------------------- merge

  function Fresh(cutoff: int): Signal -> bool { (s: Signal) => s.ts >= cutoff }

  /** The signals younger than the cutoff, in their old order. */
  function Prune(active: seq<Signal>, cutoff: int): seq<Signal> { Filter(active, Fresh(cutoff)) }

  lemma {:induction false} PruneSnoc(active: seq<Signal>, i: nat, cutoff: int)
    requires i < |active|
    ensures Prune(active[..i + 1], cutoff)
            == if active[i].ts >= cutoff then Prune(active[..i], cutoff) + [active[i]] else Prune(active[..i], cutoff)
  {
    assert active[..i + 1][..i] == active[..i];
  }

  lemma PruneNone(active: seq<Signal>, cutoff: int)
    ensures Prune(active[..0], cutoff) == []
  {
  }

  /** Index of the first signal with this key, or |active|. */
  function FindKey(active: seq<Signal>, key: string): (i: nat)
    ensures i <= |active|
    ensures i < |active| ==> SignalKey(active[i]) == key
    ensures forall j :: 0 <= j < i ==> SignalKey(active[j]) != key
  {
    hide SignalKey;
    if active == [] then 0
    else
      var init := active[..|active| - 1];
      var i := FindKey(init, key);
      assert forall j :: 0 <= j < i ==> SignalKey(active[j]) != key by {
        assert forall j :: 0 <= j < i ==> init[j] == active[j];
      }
      if i < |active| - 1 then i
      else if SignalKey(active[|active| - 1]) == key then |active| - 1 else |active|
  }

  function MergeOne(active: seq<Signal>, s: Signal): seq<Signal> {
    var i := FindKey(active, SignalKey(s));
    if i == |active| then active + [s]
    else if Abs(s.score) >= Abs(active[i].score) then active[i := s]
    else active
  }

  function MergeAll(active: seq<Signal>, signals: seq<Signal>): seq<Signal> {
    if signals == [] then active
    else MergeOne(MergeAll(active, signals[..|signals| - 1]), signals[|signals| - 1])
  }

  function Updated(active: seq<Signal>, now: int, signals: seq<Signal>): seq<Signal> {
    MergeAll(Prune(active, now - SIGNAL_WINDOW), signals)
  }

  ghost predicate DistinctKeys(active: seq<Signal>) {
    forall i, j :: 0 <= i < j < |active| ==> SignalKey(active[i]) != SignalKey(active[j])
  }

  /** The candidates for one key, in order. */
  function WithKey(xs: seq<Signal>, key: string): seq<Signal> {
    if xs == [] then []
    else
      var ys := WithKey(xs[..|xs| - 1], key);
      if SignalKey(xs[|xs| - 1]) == key then ys + [xs[|xs| - 1]] else ys
  }

  /** xs[i] is the last of the entries with the largest |deviation|. */
  ghost predicate LastStrongest(xs: seq<Signal>, i: int) {
    && 0 <= i < |xs|
    && (forall j :: 0 <= j < |xs| ==> Abs(xs[j].score) <= Abs(xs[i].score))
    && (forall j :: i < j < |xs| ==> Abs(xs[j].score) < Abs(xs[i].score))
  }

  /** `active` keeps, for `key`, exactly the last strongest candidate. */
  ghost predicate Keeps(active: seq<Signal>, key: string, candidates: seq<Signal>) {
    var k := FindKey(active, key);
    && (k < |active| <==> candidates != [])
    && (k < |active| ==> exists i :: LastStrongest(candidates, i) && candidates[i] == active[k])
  }

  /** FindKey is the only index with its defining property. */
  lemma {:induction false} FindKeyIs(active: seq<Signal>, key: string, i: nat)
    requires i <= |active|
    requires i < |active| ==> SignalKey(active[i]) == key
    requires forall j :: 0 <= j < i ==> SignalKey(active[j]) != key
    ensures FindKey(active, key) == i
  {
  }

  lemma {:induction false} MergeOneDistinct(active: seq<Signal>, s: Signal)
    requires DistinctKeys(active)
    ensures DistinctKeys(MergeOne(active, s))
    ensures forall k :: k != SignalKey(s) ==> SameAt(active, MergeOne(active, s), k)
  {
    var a := MergeOne(active, s);
    forall k | k != SignalKey(s)
      ensures SameAt(active, a, k)
    {
      var i := FindKey(active, k);
      if i < |active| {
        FindKeyIs(a, k, i);
      } else {
        FindKeyIs(a, k, |a|);
      }
    }
  }

  /** Two active sets hold the same for one key. */
  ghost predicate SameAt(a: seq<Signal>, b: seq<Signal>, key: string) {
    var i, j := FindKey(a, key), FindKey(b, key);
    if i < |a| then j < |b| && b[j] == a[i] else j == |b|
  }

  lemma AppendStrong(xs: seq<Signal>, i: int, s: Signal)
    requires LastStrongest(xs, i)
    ensures Abs(s.score) >= Abs(xs[i].score) ==> LastStrongest(xs + [s], |xs|)
    ensures Abs(s.score) < Abs(xs[i].score) ==> LastStrongest(xs + [s], i)
  {
  }

  lemma {:induction false} MergeOneKeeps(active: seq<Signal>, s: Signal, xs: seq<Signal>)
    requires DistinctKeys(active) && Keeps(active, SignalKey(s), xs)
    ensures Keeps(MergeOne(active, s), SignalKey(s), xs + [s])
  {
    var key := SignalKey(s);
    var k, a := FindKey(active, key), MergeOne(active, s);
    FindKeyIs(a, key, k);
    if k < |active| {
      var i :| LastStrongest(xs, i) && xs[i] == active[k];
      AppendStrong(xs, i, s);
      var n := if Abs(s.score) >= Abs(xs[i].score) then |xs| else i;
      assert LastStrongest(xs + [s], n) && (xs + [s])[n] == a[k];
    } else {
      assert xs == [];
      assert LastStrongest(xs + [s], 0) && (xs + [s])[0] == a[k];
    }
  }

  lemma {:induction false} MergeDistinct(active: seq<Signal>, signals: seq<Signal>)
    requires DistinctKeys(active)
    ensures DistinctKeys(MergeAll(active, signals))
  {
    if signals == [] {
    } else {
      MergeDistinct(active, signals[..|signals| - 1]);
      MergeOneDistinct(MergeAll(active, signals[..|signals| - 1]), signals[|signals| - 1]);
    }
  }

  lemma {:induction false} MergeOneStep(active: seq<Signal>, s: Signal, key: string, xs: seq<Signal>)
    requires DistinctKeys(active) && Keeps(active, key, xs)
    ensures Keeps(MergeOne(active, s), key, if SignalKey(s) == key then xs + [s] else xs)
  {
    if SignalKey(s) == key {
      MergeOneKeeps(active, s, xs);
    } else {
      MergeOneDistinct(active, s);
      assert SameAt(active, MergeOne(active, s), key);
    }
  }

  /** After a merge each key holds the last signal of largest |deviation| among
      its old entry and the new ones. */
  lemma {:induction false} MergeKeepsStrongest(active: seq<Signal>, signals: seq<Signal>, key: string)
    requires DistinctKeys(active)
    ensures Keeps(MergeAll(active, signals), key, WithKey(active + signals, key))
  {
    if signals == [] {
      assert active + signals == active;
      WithKeyOfDistinct(active, key);
    } else {
      var rest, s := signals[..|signals| - 1], signals[|signals| - 1];
      assert MergeAll(active, signals) == MergeOne(MergeAll(active, rest), s);
      hide MergeOne, Keeps, DistinctKeys;
      MergeKeepsStrongest(active, rest, key);
      MergeDistinct(active, rest);
      assert (active + signals)[..|active + signals| - 1] == active + rest;
      MergeOneStep(MergeAll(active, rest), s, key, WithKey(active + rest, key));
    }
  }

  lemma {:induction false} WithKeyOfDistinct(active: seq<Signal>, key: string)
    requires DistinctKeys(active)
    ensures var k := FindKey(active, key);
      WithKey(active, key) == if k < |active| then [active[k]] else []
    ensures Keeps(active, key, WithKey(active, key))
  {
    WithKeyShort(active, key);
    var k := FindKey(active, key);
    if k < |active| {
      assert LastStrongest([active[k]], 0);
    }
  }

  lemma {:induction false} WithKeyShort(active: seq<Signal>, key: string)
    requires DistinctKeys(active)
    ensures var k := FindKey(active, key);
      WithKey(active, key) == if k < |active| then [active[k]] else []
  {
    if active == [] {
    } else {
      var a0 := active[..|active| - 1];
      WithKeyShort(a0, key);
      var i := FindKey(a0, key);
      if i < |a0| {
        assert SignalKey(active[i]) != SignalKey(active[|a0|]);
      }
    }
  }

  lemma {:induction false} PruneDistinct(active: seq<Signal>, cutoff: int)
    requires DistinctKeys(active)
    ensures DistinctKeys(Prune(active, cutoff))
  {
    if active == [] {
    } else {
      var a0, x := active[..|active| - 1], active[|active| - 1];
      PruneDistinct(a0, cutoff);
      forall s | s in Prune(a0, cutoff)
        ensures SignalKey(s) != SignalKey(x)
      {
        var i :| 0 <= i < |a0| && a0[i] == s;
        assert active[i] == s;
      }
    }
  }

  /** Every signal after a merge is an old one or a new one. */
  lemma {:induction false} UpdatedMembers(active: seq<Signal>, signals: seq<Signal>)
    ensures forall s :: s in MergeAll(active, signals) ==> s in active || s in signals
    ensures |MergeAll(active, signals)| >= |active|
  {
    if signals == [] {
    } else {
      UpdatedMembers(active, signals[..|signals| - 1]);
    }
  }

  lemma {:induction false} UpdatedDistinct(active: seq<Signal>, now: int, signals: seq<Signal>)
    requires DistinctKeys(active)
    ensures DistinctKeys(Updated(active, now, signals))
  {
    PruneDistinct(active, now - SIGNAL_WINDOW);
    MergeDistinct(Prune(active, now - SIGNAL_WINDOW), signals);
  }

  /** Of every key the set keeps the last strongest candidate. */
  ghost predicate KeepsLast(updated: seq<Signal>, candidates: seq<Signal>) {
    forall key, xs :: xs == WithKey(candidates, key) ==> Keeps(updated, key, xs)
  }

  lemma MergeKeepsLast(active: seq<Signal>, signals: seq<Signal>)
    requires DistinctKeys(active)
    ensures KeepsLast(MergeAll(active, signals), active + signals)
  {
    forall key, xs | xs == WithKey(active + signals, key) ensures Keeps(MergeAll(active, signals), key, xs) {
      MergeKeepsStrongest(active, signals, key);
    }
  }

  /** Signals of the last 30 s stay unless a new one has their key; nothing else is
      there but new signals. */
  ghost predicate Recalls(updated: seq<Signal>, active: seq<Signal>, now: int, signals: seq<Signal>) {
    && (forall x :: x in active && x.ts >= now - 30000 ==>
          (forall z :: z in signals ==> SignalKey(z) != SignalKey(x)) ==> x in updated)
    && (forall y :: y in updated ==> (y in active && y.ts >= now - 30000) || y in signals)
  }

  /** Of those and the new signals nothing is stronger than what is there. */
  ghost predicate Outweighs(updated: seq<Signal>, active: seq<Signal>, now: int, signals: seq<Signal>) {
    forall x :: (x in active && x.ts >= now - 30000) || x in signals ==>
      exists y :: y in updated && SignalKey(y) == SignalKey(x) && Abs(y.score) >= Abs(x.score)
  }

  /** What an update is for: it remembers the last 30 s and the new signals, and of
      each key the last strongest. */
  ghost predicate Remembers(updated: seq<Signal>, active: seq<Signal>, now: int, signals: seq<Signal>) {
    && Recalls(updated, active, now, signals)
    && (DistinctKeys(active) ==>
          && DistinctKeys(updated) && Outweighs(updated, active, now, signals)
          && KeepsLast(updated, Filter(active, Fresh(now - 30000)) + signals))
  }

  lemma {:induction false} OthersStay(active: seq<Signal>, signals: seq<Signal>, x: Signal)
    requires x in active && forall z :: z in signals ==> SignalKey(z) != SignalKey(x)
    ensures x in MergeAll(active, signals)
  {
    if signals == [] {
    } else {
      var init, z := signals[..|signals| - 1], signals[|signals| - 1];
      OthersStay(active, init, x);
      var merged := MergeAll(active, init);
      var k :| 0 <= k < |merged| && merged[k] == x;
      assert z in signals;
      hide SignalKey, FindKey;
      assert MergeOne(merged, z)[k] == x;
    }
  }

  lemma {:induction false} WithKeyMembers(xs: seq<Signal>, key: string)
    ensures forall x :: x in WithKey(xs, key) <==> x in xs && SignalKey(x) == key
  {
    if xs == [] {
    } else {
      hide SignalKey;
      WithKeyMembers(xs[..|xs| - 1], key);
      assert xs == xs[..|xs| - 1] + [xs[|xs| - 1]];
    }
  }

  /** The strongest of a key are in the set. */
  lemma StrongestIn(active: seq<Signal>, signals: seq<Signal>, x: Signal) returns (y: Signal)
    requires DistinctKeys(active) && x in active + signals
    ensures y in MergeAll(active, signals) && SignalKey(y) == SignalKey(x) && Abs(y.score) >= Abs(x.score)
  {
    var updated, key, xs := MergeAll(active, signals), SignalKey(x), WithKey(active + signals, SignalKey(x));
    MergeKeepsStrongest(active, signals, key);
    WithKeyMembers(active + signals, key);
    hide SignalKey, MergeAll, WithKey;
    y := updated[FindKey(updated, key)];
    var i :| LastStrongest(xs, i) && xs[i] == y;
    var j :| 0 <= j < |xs| && xs[j] == x;
  }

  lemma RecentIs(active: seq<Signal>, now: int)
    ensures Prune(active, now - SIGNAL_WINDOW) == Filter(active, Fresh(now - 30000))
    ensures forall x :: x in Prune(active, now - SIGNAL_WINDOW) <==> x in active && x.ts >= now - 30000
  {
  }

  lemma UpdateStays(active: seq<Signal>, now: int, signals: seq<Signal>)
    ensures Recalls(Updated(active, now, signals), active, now, signals)
  {
    hide SignalKey, Prune, MergeAll, Filter;
    var recent, updated := Prune(active, now - SIGNAL_WINDOW), Updated(active, now, signals);
    RecentIs(active, now);
    UpdatedMembers(recent, signals);
    forall x | x in recent && forall z :: z in signals ==> SignalKey(z) != SignalKey(x)
      ensures x in updated
    {
      OthersStay(recent, signals, x);
    }
  }

  lemma UpdateOutweighs(active: seq<Signal>, now: int, signals: seq<Signal>)
    requires DistinctKeys(active)
    ensures Outweighs(Updated(active, now, signals), active, now, signals)
  {
    hide SignalKey, Prune, MergeAll, Filter, DistinctKeys;
    RecentIs(active, now);
    PruneDistinct(active, now - SIGNAL_WINDOW);
    forall x | (x in active && x.ts >= now - 30000) || x in signals
      ensures exists y ::
        y in Updated(active, now, signals) && SignalKey(y) == SignalKey(x) && Abs(y.score) >= Abs(x.score)
    {
      var y := StrongestIn(Prune(active, now - SIGNAL_WINDOW), signals, x);
    }
  }

  lemma UpdateRemembers(active: seq<Signal>, now: int, signals: seq<Signal>)
    ensures Remembers(Updated(active, now, signals), active, now, signals)
  {
    hide Prune, MergeAll, Recalls, Outweighs, KeepsLast, Filter, DistinctKeys;
    RecentIs(active, now);
    UpdateStays(active, now, signals);
    if DistinctKeys(active) {
      UpdatedDistinct(active, now, signals);
      UpdateOutweighs(active, now, signals);
      PruneDistinct(active, now - SIGNAL_WINDOW);
      MergeKeepsLast(Prune(active, now - SIGNAL_WINDOW), signals);
    }
  }

  // --------------------------------------------------------------- groups

  predicate ByTime(a: Signal, b: Signal) { a.ts <= b.ts }

  ghost predicate TimeSorted(s: seq<Signal>) { Sorting.SortedBy(s, ByTime) }

  ghost predicate NonEmptyGroups(gs: seq<seq<Signal>>) {
    forall i :: 0 <= i < |gs| ==> |gs[i]| > 0
  }

  /** One more signal: it joins the last group while it is within `window` of
      that group's first signal, and opens a new group otherwise. */
  function AddToGroups(gs: seq<seq<Signal>>, x: Signal, window: nat): (r: seq<seq<Signal>>)
    requires NonEmptyGroups(gs)
    ensures NonEmptyGroups(r) && r != []
  {
    if gs == [] then [[x]]
    else
      var g := gs[|gs| - 1];
      if x.ts - g[0].ts <= window then gs[..|gs| - 1] + [g + [x]] else gs + [[x]]
  }

  /** Greedy grouping of a sorted sequence. */
  function Groups(s: seq<Signal>, window: nat): (gs: seq<seq<Signal>>)
    ensures NonEmptyGroups(gs)
  {
    if s == [] then [] else AddToGroups(Groups(s[..|s| - 1], window), s[|s| - 1], window)
  }

  ghost predicate Span(g: seq<Signal>, window: nat) {
    forall a, b :: a in g && b in g ==> a.ts - b.ts <= window
  }

  /** A group short enough, led by its earliest signal. */
  ghost predicate Led(g: seq<Signal>, window: nat) {
    |g| > 0 && forall x :: x in g ==> 0 <= x.ts - g[0].ts <= window
  }

  ghost predicate AllLed(gs: seq<seq<Signal>>, window: nat) {
    forall i :: 0 <= i < |gs| ==> Led(gs[i], window)
  }

  /** Group starts are more than `window` apart. */
  ghost predicate Spread(gs: seq<seq<Signal>>, window: nat)
    requires NonEmptyGroups(gs)
  {
    forall i, j :: 0 <= i < j < |gs| ==> gs[j][0].ts - gs[i][0].ts > window
  }

  /** What grouping a sorted sequence gives: nothing lost or reordered, groups
      short, and starts more than `window` apart. */
  ghost predicate WellGrouped(gs: seq<seq<Signal>>, s: seq<Signal>, window: nat) {
    NonEmptyGroups(gs) && Flatten(gs) == s && AllLed(gs, window) && Spread(gs, window)
  }

  lemma FlattenLast(gs: seq<seq<Signal>>, g: seq<Signal>)
    ensures Flatten(gs + [g]) == Flatten(gs) + g
  {
    assert (gs + [g])[..|gs|] == gs;
  }

  lemma {:induction false} GroupsWellGrouped(s: seq<Signal>, window: nat)
    requires TimeSorted(s)
    ensures WellGrouped(Groups(s, window), s, window)
  {
    if s == [] {
    } else {
      var s0, x := s[..|s| - 1], s[|s| - 1];
      GroupsWellGrouped(s0, window);
      forall y | y in s0
        ensures y.ts <= x.ts
      {
        var i :| 0 <= i < |s0| && s0[i] == y;
        assert ByTime(s[i], s[|s| - 1]);
      }
      assert s == s0 + [x];
      AddToGroupsFlatten(Groups(s0, window), x, window);
      AddToGroupsLed(Groups(s0, window), s0, x, window);
    }
  }

  lemma AddToGroupsFlatten(gs: seq<seq<Signal>>, x: Signal, window: nat)
    requires NonEmptyGroups(gs)
    ensures Flatten(AddToGroups(gs, x, window)) == Flatten(gs) + [x]
  {
    if gs == [] {
      FlattenLast([], [x]);
      assert [] + [[x]] == [[x]];
    } else {
      var init, g := gs[..|gs| - 1], gs[|gs| - 1];
      FlattenLast(init, g + [x]);
      FlattenLast(gs, [x]);
      assert Flatten(init) + (g + [x]) == Flatten(gs) + [x];
    }
  }

  lemma {:induction false} AddToGroupsLed(gs: seq<seq<Signal>>, s0: seq<Signal>, x: Signal, window: nat)
    requires WellGrouped(gs, s0, window)
    requires forall y :: y in s0 ==> y.ts <= x.ts
    ensures var r := AddToGroups(gs, x, window); AllLed(r, window) && Spread(r, window)
  {
    if gs == [] {
    } else {
      var g := gs[|gs| - 1];
      FlattenHas(gs, |gs| - 1, g[0]);
      hide Flatten;
      if x.ts - g[0].ts <= window {
        assert Led(g + [x], window) by { assert Led(g, window); }
      } else {
        forall i | 0 <= i < |gs|
          ensures x.ts - gs[i][0].ts > window
        {
          if i < |gs| - 1 {
            assert g[0].ts - gs[i][0].ts > window;
          }
        }
      }
    }
  }

  /** Index of a part that holds x. */
  lemma PartOf(parts: seq<seq<Signal>>, s: seq<Signal>, x: Signal) returns (i: nat)
    requires multiset(Flatten(parts)) == multiset(s) && x in s
    ensures i < |parts| && x in parts[i]
  {
    Sorting.PermutationMembers(Flatten(parts), s);
    i := FlattenMember(parts, x);
  }

  /** Greedy grouping is optimal: no way of splitting the same signals into
      parts of span at most `window` has fewer parts. */
  lemma {:induction false} GreedyIsOptimal(s: seq<Signal>, parts: seq<seq<Signal>>, window: nat)
    requires TimeSorted(s)
    requires multiset(Flatten(parts)) == multiset(s)
    requires forall p :: p in parts ==> Span(p, window)
    ensures |Groups(s, window)| <= |parts|
  {
    var gs := Groups(s, window);
    GroupsWellGrouped(s, window);
    var hole := AssignParts(gs, s, parts, |gs|);
    forall i, j | 0 <= i < j < |hole|
      ensures hole[i] != hole[j]
    {
      assert parts[hole[i]] in parts;
      PartsDiffer(parts[hole[i]], parts[hole[j]], gs[i][0], gs[j][0], window);
    }
    Pigeonhole(hole, |parts|);
  }

  lemma PartsDiffer(p: seq<Signal>, q: seq<Signal>, a: Signal, b: Signal, window: nat)
    requires Span(p, window) && a in p && b in q && b.ts - a.ts > window
    ensures p != q
  {
  }

  /** The part that holds the first signal of each of the first n groups. */
  lemma {:induction false} AssignParts(gs: seq<seq<Signal>>, s: seq<Signal>, parts: seq<seq<Signal>>, n: nat)
    returns (hole: seq<nat>)
    requires NonEmptyGroups(gs) && Flatten(gs) == s && n <= |gs|
    requires multiset(Flatten(parts)) == multiset(s)
    ensures |hole| == n
    ensures forall i :: 0 <= i < n ==> hole[i] < |parts| && gs[i][0] in parts[hole[i]]
  {
    if n == 0 {
      hole := [];
    } else {
      hole := AssignParts(gs, s, parts, n - 1);
      FlattenHas(gs, n - 1, gs[n - 1][0]);
      var i := PartOf(parts, s, gs[n - 1][0]);
      hole := hole + [i];
    }
  }

  /** Signals inside three group widths make at most three groups. */
  lemma AtMostThreeGroups(s: seq<Signal>, low: int)
    requires TimeSorted(s)
    requires forall x :: x in s ==> low <= x.ts <= low + 3 * GROUP_WINDOW
    ensures |Groups(s, GROUP_WINDOW)| <= 3
  {
    var gs := Groups(s, GROUP_WINDOW);
    GroupsWellGrouped(s, GROUP_WINDOW);
    if gs != [] {
      var n := |gs| - 1;
      StartsSpread(gs, n);
      FlattenHas(gs, 0, gs[0][0]);
      FlattenHas(gs, n, gs[n][0]);
    }
  }

  lemma {:induction false} StartsSpread(gs: seq<seq<Signal>>, n: nat)
    requires n < |gs| && NonEmptyGroups(gs) && Spread(gs, GROUP_WINDOW)
    ensures gs[n][0].ts - gs[0][0].ts >= n * (GROUP_WINDOW + 1)
  {
    if n > 0 {
      StartsSpread(gs, n - 1);
      assert gs[n][0].ts - gs[n - 1][0].ts > GROUP_WINDOW;
    }
  }
}
