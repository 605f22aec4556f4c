/** The resolution tracker: streaks of clean checks per active incident. */
module Resolution {
  import opened Signals
  import opened Incidents

  const RESOLUTION_REQUIRED: nat := 2

  // ---------------------------------------------------------- attribution

  /** The services and queues one signal makes anomalous. */
  function Names(s: Signal): set<string> {
    (if s.service != "" then {s.service} else {})
    + (if s.queue != "" then {s.queue} + (if QueueOwner(s.queue).Some? then {QueueOwner(s.queue).value} else {})
        else {})
  }

  function Anomalous(signals: seq<Signal>): set<string> {
    if signals == [] then {} else Anomalous(signals[..|signals| - 1]) + Names(signals[|signals| - 1])
  }

  lemma {:induction false} AnomalousHas(signals: seq<Signal>, s: Signal)
    requires s in signals
    ensures Names(s) <= Anomalous(signals)
  {
    if s != signals[|signals| - 1] {
      AnomalousHas(signals[..|signals| - 1], s);
    }
  }

  /** The tracker's attribution covers the correlator's: the service a signal
      is correlated under is anomalous. */
  lemma AttributionAgrees(signals: seq<Signal>, s: Signal)
    requires s in signals && Named(s)
    ensures ServiceForSignal(s) in Anomalous(signals)
  {
    AnomalousHas(signals, s);
  }

  // --------------------------------------------------------------- counts

  predicate Clean(inc: Incident, anomalous: set<string>) {
    forall i :: 0 <= i < |inc.affected| ==> inc.affected[i] !in anomalous
  }

  function CountOf(counts: map<nat, nat>, id: nat): nat {
    if id in counts then counts[id] else 0
  }

  /** The counter updates of one check, before unlisted ids are removed. */
  function Tally(counts: map<nat, nat>, actives: seq<Incident>, anomalous: set<string>): map<nat, nat> {
    if actives == [] then counts
    else
      var c, inc := Tally(counts, actives[..|actives| - 1], anomalous), actives[|actives| - 1];
      c[inc.id := if Clean(inc, anomalous) then CountOf(c, inc.id) + 1 else 0]
  }

  /** The ids a check returns, in list order. */
  function ToResolve(counts: map<nat, nat>, actives: seq<Incident>, anomalous: set<string>): seq<nat> {
    if actives == [] then []
    else
      var init, inc := actives[..|actives| - 1], actives[|actives| - 1];
      var ids := ToResolve(counts, init, anomalous);
      if Clean(inc, anomalous) && CountOf(Tally(counts, init, anomalous), inc.id) + 1 >= RESOLUTION_REQUIRED
      then ids + [inc.id] else ids
  }

  predicate Listed(actives: seq<Incident>, id: nat) {
    exists i :: 0 <= i < |actives| && actives[i].id == id
  }

  function NextCounts(counts: map<nat, nat>, actives: seq<Incident>, anomalous: set<string>): map<nat, nat> {
    var t := Tally(counts, actives, anomalous);
    map id | id in t && Listed(actives, id) :: t[id]
  }

  ghost predicate DistinctIds(actives: seq<Incident>) {
    forall i, j :: 0 <= i < j < |actives| ==> actives[i].id != actives[j].id
  }

  /** With unique ids a check moves each listed counter on its own. */
  lemma {:induction false} TallyAt(counts: map<nat, nat>, actives: seq<Incident>, anomalous: set<string>, id: nat)
    requires DistinctIds(actives)
    ensures var t := Tally(counts, actives, anomalous);
      && (!Listed(actives, id) ==> CountOf(t, id) == CountOf(counts, id) && (id in t <==> id in counts))
      && (forall i :: 0 <= i < |actives| && actives[i].id == id ==>
            id in t && t[id] == if Clean(actives[i], anomalous) then CountOf(counts, id) + 1 else 0)
  {
    if actives == [] {
    } else {
      var init := actives[..|actives| - 1];
      TallyAt(counts, init, anomalous, id);
      if actives[|actives| - 1].id == id {
        assert !Listed(init, id);
      } else {
        assert Listed(actives, id) ==> Listed(init, id) by {
          if i :| 0 <= i < |actives| && actives[i].id == id { assert init[i].id == id; }
        }
      }
    }
  }

  /** Which ids a check returns: the listed incidents that are clean now and
      were counted at least once just before. */
  lemma {:induction false} ToResolveMembers(counts: map<nat, nat>, actives: seq<Incident>, anomalous: set<string>,
      id: nat)
    requires DistinctIds(actives)
    ensures id in ToResolve(counts, actives, anomalous) <==>
      exists i :: 0 <= i < |actives| && actives[i].id == id && Clean(actives[i], anomalous)
          && CountOf(counts, id) + 1 >= RESOLUTION_REQUIRED
  {
    if actives == [] {
    } else {
      var init, inc := actives[..|actives| - 1], actives[|actives| - 1];
      ToResolveMembers(counts, init, anomalous, id);
      TallyAt(counts, init, anomalous, inc.id);
      assert !Listed(init, inc.id);
      assert inc == actives[|actives| - 1];
      if i :| 0 <= i < |init| && init[i].id == id && Clean(init[i], anomalous) &&
              CountOf(counts, id) + 1 >= RESOLUTION_REQUIRED {
        assert actives[i] == init[i];
      }
    }
  }

  // -------------------------------------------------------------- history

  /** One call of Check: what was listed and what was anomalous. */
  datatype CheckCall = CheckCall(actives: seq<Incident>, anomalous: set<string>)

  ghost predicate CleanIn(call: CheckCall, id: nat) {
    exists i :: 0 <= i < |call.actives| && call.actives[i].id == id && Clean(call.actives[i], call.anomalous)
  }

  /** Length of the trailing run of calls that listed the incident and found it
      clean. */
  ghost function Streak(calls: seq<CheckCall>, id: nat): nat {
    if calls == [] then 0
    else if CleanIn(calls[|calls| - 1], id) then Streak(calls[..|calls| - 1], id) + 1
    else 0
  }

  function CountsAfter(calls: seq<CheckCall>): map<nat, nat> {
    if calls == [] then map[]
    else
      var call := calls[|calls| - 1];
      NextCounts(CountsAfter(calls[..|calls| - 1]), call.actives, call.anomalous)
  }

  ghost predicate UniqueIds(calls: seq<CheckCall>) {
    forall k :: 0 <= k < |calls| ==> DistinctIds(calls[k].actives)
  }

  /** Over any run of checks: a counter exists exactly for the ids listed by the
      last call, and holds the length of the trailing clean run. */
  lemma {:induction false} CountsAreStreaks(calls: seq<CheckCall>, id: nat)
    requires UniqueIds(calls)
    ensures id in CountsAfter(calls) <==> calls != [] && Listed(calls[|calls| - 1].actives, id)
    ensures CountOf(CountsAfter(calls), id) == Streak(calls, id)
  {
    if calls == [] {
    } else {
      var init, call := calls[..|calls| - 1], calls[|calls| - 1];
      CountsAreStreaks(init, id);
      TallyAt(CountsAfter(init), call.actives, call.anomalous, id);
      if i :| 0 <= i < |call.actives| && call.actives[i].id == id {
        if Clean(call.actives[i], call.anomalous) {
          assert CleanIn(call, id);
        } else {
          assert forall j :: 0 <= j < |call.actives| && call.actives[j].id == id ==> j == i;
        }
      }
    }
  }

  /** An id is returned by a call exactly when its clean run, this call
      included, has reached two. */
  lemma {:induction false} ReturnedIffStreak(calls: seq<CheckCall>, id: nat)
    requires calls != [] && UniqueIds(calls)
    ensures var call := calls[|calls| - 1];
      id in ToResolve(CountsAfter(calls[..|calls| - 1]), call.actives, call.anomalous)
      <==> Streak(calls, id) >= RESOLUTION_REQUIRED
  {
    var init, call := calls[..|calls| - 1], calls[|calls| - 1];
    CountsAreStreaks(init, id);
    ToResolveMembers(CountsAfter(init), call.actives, call.anomalous, id);
  }

  /** A check of an empty list, as after a failed reconcile, restarts every
      streak: it returns nothing, and neither does the check after it, however
      long an incident had been clean before. */
  lemma {:induction false} EmptyCheckRestarts(calls: seq<CheckCall>, anomalous: set<string>, next: CheckCall, id: nat)
    requires UniqueIds(calls) && DistinctIds(next.actives)
    ensures var after := CountsAfter(calls + [CheckCall([], anomalous)]);
      && ToResolve(CountsAfter(calls), [], anomalous) == []
      && after == map[] && Streak(calls + [CheckCall([], anomalous)], id) == 0
      && id !in ToResolve(after, next.actives, next.anomalous)
      && Streak(calls + [CheckCall([], anomalous), next], id) <= 1
  {
    var empty := CheckCall([], anomalous);
    var all := calls + [empty];
    assert all[..|all| - 1] == calls;
    assert forall k :: !Listed([], k);
    var more := calls + [empty, next];
    assert more[..|more| - 1] == all;
    ToResolveMembers(map[], next.actives, next.anomalous, id);
  }

  // ------------------------------------------------------- in terms of signals

  /** The signal is about that service or queue, or about a queue it owns. */
  predicate Touches(s: Signal, name: string) {
    || (s.service != "" && name == s.service)
    || (s.queue != "" && (name == s.queue || (QueueOwner(s.queue).Some? && name == QueueOwner(s.queue).value)))
  }

  /** No signal is about anything that the incident affects. */
  ghost predicate Quiet(inc: Incident, signals: seq<Signal>) {
    forall name, s :: name in inc.affected && s in signals ==> !Touches(s, name)
  }

  lemma {:induction false} AnomalousIs(signals: seq<Signal>, name: string)
    ensures name in Anomalous(signals) <==> exists s :: s in signals && Touches(s, name)
  {
    if signals == [] {
    } else {
      var init, last := signals[..|signals| - 1], signals[|signals| - 1];
      AnomalousIs(init, name);
      assert signals == init + [last];
      assert name in Names(last) <==> Touches(last, name);
      hide Touches, Names;
    }
  }

  lemma CleanIsQuiet(inc: Incident, signals: seq<Signal>)
    ensures Clean(inc, Anomalous(signals)) <==> Quiet(inc, signals)
  {
    forall i | 0 <= i < |inc.affected|
      ensures inc.affected[i] in Anomalous(signals) <==> exists s :: s in signals && Touches(s, inc.affected[i])
    {
      AnomalousIs(signals, inc.affected[i]);
    }
    hide Anomalous, Touches;
  }

  /** What one check does, given what is listed and which signals are active: it
      resolves the listed incidents that are quiet now and were counted before; it
      counts a quiet one up, sets any other to 0 and forgets the rest. */
  ghost predicate CheckRule(before: map<nat, nat>, after: map<nat, nat>, ids: seq<nat>, actives: seq<Incident>,
      signals: seq<Signal>) {
    && (forall id :: id in ids <==>
          exists inc :: inc in actives && inc.id == id && Quiet(inc, signals) && CountOf(before, id) >= 1)
    && (forall inc :: inc in actives ==>
          inc.id in after && after[inc.id] == if Quiet(inc, signals) then CountOf(before, inc.id) + 1 else 0)
    && (forall id :: id in after ==> exists inc :: inc in actives && inc.id == id)
  }

  lemma ReturnedIs(before: map<nat, nat>, actives: seq<Incident>, signals: seq<Signal>, id: nat)
    requires DistinctIds(actives)
    ensures id in ToResolve(before, actives, Anomalous(signals)) <==>
      exists inc :: inc in actives && inc.id == id && Quiet(inc, signals) && CountOf(before, id) >= 1
  {
    ToResolveMembers(before, actives, Anomalous(signals), id);
    forall i | 0 <= i < |actives| ensures Clean(actives[i], Anomalous(signals)) <==> Quiet(actives[i], signals) {
      CleanIsQuiet(actives[i], signals);
    }
    hide Quiet, Clean, Anomalous, DistinctIds, ToResolve;
    if inc :| inc in actives && inc.id == id && Quiet(inc, signals) && CountOf(before, id) >= 1 {
      var i :| 0 <= i < |actives| && actives[i] == inc;
      assert actives[i].id == id && Clean(actives[i], Anomalous(signals));
    }
  }

  lemma CountedIs(before: map<nat, nat>, actives: seq<Incident>, signals: seq<Signal>, inc: Incident)
    requires DistinctIds(actives) && inc in actives
    ensures var after := NextCounts(before, actives, Anomalous(signals));
      inc.id in after && after[inc.id] == if Quiet(inc, signals) then CountOf(before, inc.id) + 1 else 0
  {
    TallyAt(before, actives, Anomalous(signals), inc.id);
    CleanIsQuiet(inc, signals);
    hide Quiet, Clean, Anomalous, DistinctIds, Tally;
    var i :| 0 <= i < |actives| && actives[i] == inc;
  }

  lemma CheckFollowsRule(before: map<nat, nat>, actives: seq<Incident>, signals: seq<Signal>)
    requires DistinctIds(actives)
    ensures CheckRule(before, NextCounts(before, actives, Anomalous(signals)),
      ToResolve(before, actives, Anomalous(signals)), actives, signals)
  {
    hide Quiet, Anomalous, DistinctIds, ToResolve, Tally;
    var after := NextCounts(before, actives, Anomalous(signals));
    forall id
      ensures id in ToResolve(before, actives, Anomalous(signals)) <==>
        exists inc :: inc in actives && inc.id == id && Quiet(inc, signals) && CountOf(before, id) >= 1
    {
      ReturnedIs(before, actives, signals, id);
    }
    forall inc | inc in actives
      ensures inc.id in after && after[inc.id] == if Quiet(inc, signals) then CountOf(before, inc.id) + 1 else 0
    {
      CountedIs(before, actives, signals, inc);
    }
  }

  /** One call of Check, as its caller sees it. */
  datatype SignalCall = SignalCall(actives: seq<Incident>, signals: seq<Signal>)

  function AsSeen(calls: seq<SignalCall>): (r: seq<CheckCall>)
    ensures |r| == |calls|
    ensures forall k :: 0 <= k < |calls| ==> r[k] == CheckCall(calls[k].actives, Anomalous(calls[k].signals))
  {
    if calls == [] then []
    else
      var call := calls[|calls| - 1];
      AsSeen(calls[..|calls| - 1]) + [CheckCall(call.actives, Anomalous(call.signals))]
  }

  ghost predicate QuietIn(call: SignalCall, id: nat) {
    exists inc :: inc in call.actives && inc.id == id && Quiet(inc, call.signals)
  }

  lemma CleanInIsQuietIn(call: SignalCall, id: nat)
    ensures CleanIn(CheckCall(call.actives, Anomalous(call.signals)), id) <==> QuietIn(call, id)
  {
    forall inc ensures Clean(inc, Anomalous(call.signals)) <==> Quiet(inc, call.signals) {
      CleanIsQuiet(inc, call.signals);
    }
    hide Quiet, Clean, Anomalous;
  }

  /** The last two calls both listed the incident and had no signal about anything
      that it affects. */
  ghost predicate QuietTwice(calls: seq<SignalCall>, id: nat) {
    |calls| >= 2 && QuietIn(calls[|calls| - 1], id) && QuietIn(calls[|calls| - 2], id)
  }

  lemma StreakIsQuietTwice(calls: seq<SignalCall>, id: nat)
    ensures Streak(AsSeen(calls), id) >= RESOLUTION_REQUIRED <==> QuietTwice(calls, id)
  {
    var n, seen := |calls|, AsSeen(calls);
    if n >= 1 { CleanInIsQuietIn(calls[n - 1], id); }
    if n >= 2 { CleanInIsQuietIn(calls[n - 2], id); }
    hide CleanIn, QuietIn, Anomalous;
  }

  /** Over any calls: the last one returns an id exactly when it was quiet twice. */
  lemma ReturnedIffQuietTwice(calls: seq<SignalCall>, id: nat)
    requires calls != [] && forall k :: 0 <= k < |calls| ==> DistinctIds(calls[k].actives)
    ensures var n := |calls|;
      id in ToResolve(CountsAfter(AsSeen(calls[..n - 1])), calls[n - 1].actives, Anomalous(calls[n - 1].signals))
      <==> QuietTwice(calls, id)
  {
    ReturnedIffStreak(AsSeen(calls), id);
    StreakIsQuietTwice(calls, id);
  }

  // --------------------------------------------------------------- object

  class ResolutionTracker {
    var counts: map<nat, nat>

    constructor ()
      ensures counts == map[]
    {
      counts := map[];
    }

    method Check(actives: seq<Incident>, signals: seq<Signal>) returns (toResolve: seq<nat>)
      modifies this
      ensures counts == NextCounts(old(counts), actives, Anomalous(signals))
      ensures toResolve == ToResolve(old(counts), actives, Anomalous(signals))
      ensures DistinctIds(actives) ==> CheckRule(old(counts), counts, toResolve, actives, signals)
    {
      hide CheckRule, Tally, ToResolve, DistinctIds;
      if DistinctIds(actives) { CheckFollowsRule(counts, actives, signals); }
      var anomalous := AnomalousNames(signals);
      var activeIds;
      toResolve, activeIds := CountActives(actives, anomalous);
      RemoveUnlisted(activeIds);
    }

    /** Moves the counter of each listed incident. */
    method CountActives(actives: seq<Incident>, anomalous: set<string>)
      returns (toResolve: seq<nat>, activeIds: set<nat>)
      modifies this
      ensures counts == Tally(old(counts), actives, anomalous)
      ensures toResolve == ToResolve(old(counts), actives, anomalous)
      ensures forall id :: id in activeIds <==> Listed(actives, id)
    {
      toResolve, activeIds := [], {};
      for k := 0 to |actives|
        invariant counts == Tally(old(counts), actives[..k], anomalous)
        invariant toResolve == ToResolve(old(counts), actives[..k], anomalous)
        invariant forall id :: id in activeIds <==> Listed(actives[..k], id)
      {
        assert actives[..k + 1][..k] == actives[..k];
        var inc := actives[k];
        forall id ensures Listed(actives[..k + 1], id) <==> Listed(actives[..k], id) || id == inc.id {
          ListedSnoc(actives, k, id);
        }
        activeIds := activeIds + {inc.id};
        var stillAnomalous := exists i :: 0 <= i < |inc.affected| && inc.affected[i] in anomalous;
        if stillAnomalous {
          counts := counts[inc.id := 0];
        } else {
          counts := counts[inc.id := CountOf(counts, inc.id) + 1];
          if counts[inc.id] >= 2 {
            toResolve := toResolve + [inc.id];
          }
        }
      }
      assert actives[..|actives|] == actives;
    }

    /** Queue signals count for the queue and for the service that owns it. */
    method AnomalousNames(signals: seq<Signal>) returns (anomalous: set<string>)
      ensures anomalous == Anomalous(signals)
    {
      anomalous := {};
      for i := 0 to |signals|
        invariant anomalous == Anomalous(signals[..i])
      {
        assert signals[..i + 1][..i] == signals[..i];
        var s := signals[i];
        if s.service != "" {
          anomalous := anomalous + {s.service};
        }
        if s.queue != "" {
          anomalous := anomalous + {s.queue};
          if QueueOwner(s.queue).Some? {
            anomalous := anomalous + {QueueOwner(s.queue).value};
          }
        }
      }
      assert signals[..|signals|] == signals;
    }

    /** Deletes the counters of ids that were not listed. */
    method RemoveUnlisted(activeIds: set<nat>)
      modifies this
      ensures counts == map id | id in old(counts) && id in activeIds :: old(counts)[id]
    {
      var left := counts.Keys;
      while left != {}
        invariant left <= old(counts).Keys
        invariant counts == map id | id in old(counts) && (id in left || id in activeIds) :: old(counts)[id]
        decreases left
      {
        var id :| id in left;
        left := left - {id};
        if id !in activeIds {
          counts := counts - {id};
        }
      }
    }
  }

  lemma ListedSnoc(actives: seq<Incident>, k: nat, id: nat)
    requires k < |actives|
    ensures Listed(actives[..k + 1], id) <==> Listed(actives[..k], id) || id == actives[k].id
  {
    var a, b := actives[..k], actives[..k + 1];
    if i :| 0 <= i < |b| && b[i].id == id {
      if i < k { assert a[i].id == id; }
    }
    if i :| 0 <= i < |a| && a[i].id == id {
      assert b[i].id == id;
    }
    assert b[k] == actives[k];
  }
}
