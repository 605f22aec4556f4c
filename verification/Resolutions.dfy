/** When incidents are resolved, over every run, in terms of the signals that were
    active and the incidents that were listed. */
module Resolutions {
  import opened Sequences
  import opened Correlation
  import opened Incidents
  import opened Resolution
  import opened Monitor
  import opened MonitorRuns
  import opened IncidentHistory

  /** The checks of a run: one per completed cycle. */
  function Checks(run: seq<TickRecord>): seq<SignalCall> {
    if run == [] then []
    else
      var calls, r := Checks(run[..|run| - 1]), run[|run| - 1];
      if Completes(r.input)
      then calls + [SignalCall(Checked(r.input, r.choices.events, r.choices.relisted), r.post.active)]
      else calls
  }

  lemma {:induction false} ChecksAreCalls(run: seq<TickRecord>)
    ensures AsSeen(Checks(run)) == Calls(run)
  {
    if run == [] {
    } else {
      var init, r := run[..|run| - 1], run[|run| - 1];
      ChecksAreCalls(init);
      if Completes(r.input) {
        var calls := Checks(init);
        var call := SignalCall(Checked(r.input, r.choices.events, r.choices.relisted), r.post.active);
        assert (calls + [call])[..|calls|] == calls;
      }
    }
  }

  lemma RunReturns(run: seq<TickRecord>, id: nat)
    requires run != [] && ValidRun(run) && Clocked(run) && Completes(run[|run| - 1].input)
    ensures var s, r := FinalState(run[..|run| - 1]), run[|run| - 1];
      id in ToResolve(s.counts, Checked(r.input, r.choices.events, r.choices.relisted), Anomalous(r.post.active))
      <==> QuietTwice(Checks(run), id)
  {
    RunResolves(run, id);
    ChecksAreCalls(run);
    hide Calls, TickStep, Completes, Checks, ToResolve;
    StreakIsQuietTwice(Checks(run), id);
  }

  /** The cycle at k has the incident quiet for the second time, and its update of
      the row does not fail. */
  ghost predicate Resolves(run: seq<TickRecord>, k: int, id: nat) {
    && 0 <= k < |run| && Completes(run[k].input)
    && QuietTwice(Checks(run[..k + 1]), id) && id !in run[k].input.markFails
  }

  lemma StatusAfter(rows: seq<Incident>, listed: seq<Incident>, events: seq<CorrelatedEvent>, ids: seq<nat>,
                    at: int, failing: set<nat>, i: nat)
    requires Known(listed, |rows|)
    ensures var after := MarkAll(ReconcileAll(rows, listed, events), ids, at, failing);
      i < |after| ==>
        if i + 1 in ids && i + 1 !in failing then after[i].status.Resolved? && after[i].resolvedAt == Some(at)
        else after[i].status == if i < |rows| then rows[i].status else Active
  {
    ReconcileShape(rows, listed, events);
    var mid, us := ReconcileAll(rows, listed, events), Unmatched(listed, events);
    hide ReconcileAll, Unmatched, MatchedTimeline, NewIncident, MarkAll;
    if i < |mid| {
      MarkAllAt(mid, ids, at, failing, i);
      if i >= |rows| {
        assert MadeFrom(mid[|rows| + (i - |rows|)], i + 1, us[i - |rows|]);
      }
    }
  }

  lemma SettledRows(s: MonitorState, r: TickRecord, i: nat)
    requires TickStep(s, r.input, r.choices, r.post) && Completes(r.input) && i < |r.post.rows|
    ensures var ids := ToResolve(s.counts, Checked(r.input, r.choices.events, r.choices.relisted),
        Anomalous(r.post.active));
      if i + 1 in ids && i + 1 !in r.input.markFails
      then r.post.rows[i].status.Resolved? && r.post.rows[i].resolvedAt == Some(r.input.now)
      else r.post.rows[i].status == if i < |s.rows| then s.rows[i].status else Active
  {
    hide *;
    var ids := SettledTable(s, r);
    StatusAfter(s.rows, r.choices.listed, WrittenEvents(r.input, r.choices.events), ids, r.input.now,
        r.input.markFails, i);
  }

  lemma LastStep(run: seq<TickRecord>)
    requires run != [] && ValidRun(run)
    ensures var init, r := run[..|run| - 1], run[|run| - 1];
      TickStep(FinalState(init), r.input, r.choices, r.post) && FinalState(run) == r.post
  {
    hide TickStep;
  }

  lemma ResolvesLast(run: seq<TickRecord>, id: nat)
    requires run != [] && Completes(run[|run| - 1].input)
    ensures Resolves(run, |run| - 1, id) <==> QuietTwice(Checks(run), id) && id !in run[|run| - 1].input.markFails
  {
    hide QuietTwice, Checks;
    assert run[..|run| - 1 + 1] == run;
  }

  /** A completed cycle on one row. */
  lemma SettledStatus(run: seq<TickRecord>, i: nat)
    requires run != [] && ValidRun(run) && Clocked(run) && i < |FinalState(run).rows|
    requires Completes(run[|run| - 1].input)
    ensures var last := |run| - 1;
      var before, row := FinalState(run[..last]).rows, FinalState(run).rows[i];
      if Resolves(run, last, i + 1) then row.status.Resolved? && row.resolvedAt == Some(run[last].input.now)
      else row.status == if i < |before| then before[i].status else Active
  {
    hide *;
    LastStep(run);
    RunReturns(run, i + 1);
    ResolvesLast(run, i + 1);
    SettledRows(FinalState(run[..|run| - 1]), run[|run| - 1], i);
  }

  /** What the last cycle of a run checks is in its table. */
  lemma CheckedAreRows(run: seq<TickRecord>, id: nat)
    requires run != [] && ValidRun(run) && Clocked(run) && Completes(run[|run| - 1].input)
    requires QuietTwice(Checks(run), id)
    ensures 1 <= id <= |FinalState(run).rows|
  {
    var s, r := FinalState(run[..|run| - 1]), run[|run| - 1];
    BeforeLast(run);
    assert SoundInput(r.input);
    CycleFacts(s, r.input, r.choices, r.post);
    var checked := Checked(r.input, r.choices.events, r.choices.relisted);
    assert Checks(run)[|Checks(run)| - 1].actives == checked;
    hide Quiet, Checks, TickStep, SoundState, ValidRun, Clocked;
    assert QuietIn(SignalCall(checked, r.post.active), id);
    var inc :| inc in checked && inc.id == id;
  }

  lemma EvolvedIsLonger(a: seq<Incident>, b: seq<Incident>)
    requires RowsEvolve(a, b)
    ensures |a| <= |b|
  {
  }

  /** No cycle resolves a row that a later one creates. */
  lemma ResolvesExisting(run: seq<TickRecord>, k: nat, id: nat)
    requires ValidRun(run) && Clocked(run) && Resolves(run, k, id)
    ensures 1 <= id <= |FinalState(run).rows|
  {
    hide TickStep, RowsEvolve, QuietTwice, Checks, SoundInput;
    RowsEvolveOverRun(run, k + 1);
    EvolvedIsLonger(FinalState(run[..k + 1]).rows, FinalState(run).rows);
    var part := run[..k + 1];
    assert part[|part| - 1] == run[k];
    assert Clocked(part);
    CheckedAreRows(part, id);
  }

  lemma ResolvesInit(run: seq<TickRecord>, k: int, id: nat)
    requires 0 <= k < |run| - 1
    ensures Resolves(run, k, id) <==> Resolves(run[..|run| - 1], k, id)
  {
    assert run[..|run| - 1][..k + 1] == run[..k + 1];
  }

  /** The first cycle that resolves the incident. */
  ghost predicate FirstResolves(run: seq<TickRecord>, k: int, id: nat) {
    Resolves(run, k, id) && forall j :: 0 <= j < k ==> !Resolves(run, j, id)
  }

  /** Resolved, by the first cycle that resolves it and at its time; or active, and
      no cycle resolves it. */
  ghost predicate Explained(run: seq<TickRecord>, row: Incident, id: nat) {
    if row.status.Resolved? then exists k :: FirstResolves(run, k, id) && row.resolvedAt == Some(run[k].input.now)
    else forall k :: 0 <= k < |run| ==> !Resolves(run, k, id)
  }

  /** What a cycle at time `now` makes of a row: resolved rows stay as they were. */
  predicate Moved(before: Incident, row: Incident, resolves: bool, now: int) {
    if before.status.Resolved? then row.status.Resolved? && row.resolvedAt == before.resolvedAt
    else if resolves then row.status.Resolved? && row.resolvedAt == Some(now)
    else row.status.Active?
  }

  /** The row before the last cycle; a row that was not there yet counts as active. */
  function RowBefore(run: seq<TickRecord>, id: nat): Incident
    requires run != [] && 1 <= id <= |FinalState(run).rows|
  {
    var before := FinalState(run[..|run| - 1]).rows;
    if id <= |before| then before[id - 1] else FinalState(run).rows[id - 1].(status := Active)
  }

  lemma ResolvedStays(run: seq<TickRecord>, id: nat)
    requires run != [] && ValidRun(run) && Clocked(run)
    requires 1 <= id <= |FinalState(run[..|run| - 1]).rows|
    requires FinalState(run[..|run| - 1]).rows[id - 1].status.Resolved?
    ensures id <= |FinalState(run).rows|
    ensures FinalState(run).rows[id - 1] == FinalState(run[..|run| - 1]).rows[id - 1]
  {
    RowsEvolveOverRun(run, |run| - 1);
    hide TickStep, ValidRun, Clocked;
    var before, after := FinalState(run[..|run| - 1]).rows, FinalState(run).rows;
    assert RowsEvolve(before, after);
    assert Evolves(before[id - 1], after[id - 1]);
  }

  lemma ActiveBefore(run: seq<TickRecord>, id: nat)
    requires run != [] && 1 <= id <= |FinalState(run).rows| && RowBefore(run, id).status.Active?
    ensures var before := FinalState(run[..|run| - 1]).rows;
      id <= |before| ==> before[id - 1].status.Active?
  {
    hide FinalState;
  }

  lemma MovedActive(before: Incident, row: Incident, resolves: bool, now: int)
    requires before.status.Active?
    requires if resolves then row.status.Resolved? && row.resolvedAt == Some(now) else row.status.Active?
    ensures Moved(before, row, resolves, now)
  {
  }

  /** The last cycle on a row that is still active before it. */
  lemma ActiveMoved(run: seq<TickRecord>, id: nat)
    requires run != [] && ValidRun(run) && Clocked(run) && 1 <= id <= |FinalState(run).rows|
    requires RowBefore(run, id).status.Active?
    ensures var last := |run| - 1;
      Moved(RowBefore(run, id), FinalState(run).rows[id - 1], Resolves(run, last, id), run[last].input.now)
  {
    hide *;
    ActiveBefore(run, id);
    if Completes(run[|run| - 1].input) {
      SettledStatus(run, id - 1);
    } else {
      NoneResolved(run, id);
    }
    MovedActive(RowBefore(run, id), FinalState(run).rows[id - 1], Resolves(run, |run| - 1, id),
      run[|run| - 1].input.now);
  }

  lemma NoneResolved(run: seq<TickRecord>, id: nat)
    requires run != [] && ValidRun(run) && !Completes(run[|run| - 1].input)
    ensures !Resolves(run, |run| - 1, id) && FinalState(run).rows == FinalState(run[..|run| - 1]).rows
  {
    var last, r := |run| - 1, run[|run| - 1];
    hide TickStep, ValidRun;
    StepAt(run, last);
    assert run[..last + 1] == run;
    CutShort(FinalState(run[..last]), r);
  }

  /** The last cycle on a row, whether it completes or not. */
  lemma LastMoves(run: seq<TickRecord>, id: nat)
    requires run != [] && ValidRun(run) && Clocked(run) && 1 <= id <= |FinalState(run).rows|
    ensures var last := |run| - 1;
      Moved(RowBefore(run, id), FinalState(run).rows[id - 1], Resolves(run, last, id), run[last].input.now)
  {
    hide TickStep, Resolves, Clocked, ValidRun, FinalState;
    if RowBefore(run, id).status.Active? {
      ActiveMoved(run, id);
    } else {
      ResolvedStays(run, id);
    }
  }

  lemma {:induction false} StillExplained(run: seq<TickRecord>, before: Incident, row: Incident, id: nat)
    requires run != [] && Explained(run[..|run| - 1], before, id)
    requires Moved(before, row, Resolves(run, |run| - 1, id), run[|run| - 1].input.now)
    ensures Explained(run, row, id)
  {
    var init, last := run[..|run| - 1], |run| - 1;
    forall k | 0 <= k < last ensures Resolves(run, k, id) <==> Resolves(init, k, id) { ResolvesInit(run, k, id); }
    forall k | Resolves(init, k, id) ensures 0 <= k < last { InRange(init, k, id); }
    hide Resolves;
    if before.status.Resolved? {
      var k :| FirstResolves(init, k, id) && before.resolvedAt == Some(init[k].input.now);
      assert FirstResolves(run, k, id) && run[k] == init[k];
    } else if Resolves(run, last, id) {
      assert FirstResolves(run, last, id);
    }
  }

  /** A row that is not there yet counts as active. */
  lemma NotThereYet(run: seq<TickRecord>, id: nat, row: Incident)
    requires ValidRun(run) && Clocked(run) && id > |FinalState(run).rows| && row.status.Active?
    ensures Explained(run, row, id)
  {
    forall k | 0 <= k < |run| ensures !Resolves(run, k, id) {
      if Resolves(run, k, id) { ResolvesExisting(run, k, id); }
    }
  }

  /** Over every run: an incident is resolved exactly if some cycle had it quiet for
      the second time in a row and could write that; it was resolved by the first
      such cycle, at its time. */
  lemma {:induction false} ResolvedIff(run: seq<TickRecord>, id: nat)
    requires ValidRun(run) && Clocked(run) && 1 <= id <= |FinalState(run).rows|
    ensures Explained(run, FinalState(run).rows[id - 1], id)
  {
    hide TickStep, Explained, Resolves, Moved;
    var init, before := run[..|run| - 1], RowBefore(run, id);
    BeforeLast(run);
    LastMoves(run, id);
    if id <= |FinalState(init).rows| {
      ResolvedIff(init, id);
    } else {
      NotThereYet(init, id, before);
    }
    StillExplained(run, before, FinalState(run).rows[id - 1], id);
  }

  lemma InRange(run: seq<TickRecord>, k: int, id: nat)
    requires Resolves(run, k, id)
    ensures 0 <= k < |run| && Completes(run[k].input)
  {
  }
}
