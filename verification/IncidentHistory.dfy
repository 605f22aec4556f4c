/** The whole life of an incident's timeline, over every run of cycles. */
module IncidentHistory {
  import opened Correlation
  import opened Incidents
  import opened Resolution
  import opened Monitor
  import opened MonitorRuns

  /** What one cycle appends to the timeline of an incident. */
  function Appended(r: TickRecord, id: nat): seq<TimelineEvent> {
    if Completes(r.input)
    then MatchedTimeline(r.choices.listed, WrittenEvents(r.input, r.choices.events), id) else []
  }

  /** What the cycles from k on append, in order. */
  function Later(run: seq<TickRecord>, k: nat, id: nat): seq<TimelineEvent> {
    if |run| <= k then [] else Later(run[..|run| - 1], k, id) + Appended(run[|run| - 1], id)
  }

  /** The same incident, with more in its timeline or another status. */
  predicate SameOrigin(a: Incident, b: Incident) {
    b == a.(timeline := b.timeline, status := b.status, resolvedAt := b.resolvedAt)
  }

  /** A batch and the resolutions after it, row by row. */
  lemma SettledRow(rows: seq<Incident>, listed: seq<Incident>, events: seq<CorrelatedEvent>, ids: seq<nat>,
                   at: int, failing: set<nat>, i: nat)
    requires Known(listed, |rows|)
    ensures var after, us := MarkAll(ReconcileAll(rows, listed, events), ids, at, failing), Unmatched(listed, events);
      && |after| == |rows| + |us|
      && (i < |rows| ==>
            && after[i].timeline == rows[i].timeline + MatchedTimeline(listed, events, i + 1)
            && SameOrigin(rows[i], after[i]))
      && (|rows| <= i < |after| ==>
            after[i].timeline == us[i - |rows|].timeline && StemsFrom(after[i], us[i - |rows|]))
  {
    ReconcileShape(rows, listed, events);
    var mid, us := ReconcileAll(rows, listed, events), Unmatched(listed, events);
    if i < |mid| {
      MarkAllAt(mid, ids, at, failing, i);
      if i >= |rows| {
        assert MadeFrom(mid[|rows| + (i - |rows|)], i + 1, us[i - |rows|]);
      }
    }
  }

  /** The table after a completed cycle. */
  lemma SettledTable(s: MonitorState, r: TickRecord) returns (ids: seq<nat>)
    requires TickStep(s, r.input, r.choices, r.post) && Completes(r.input)
    ensures Known(r.choices.listed, |s.rows|)
    ensures r.post.rows == MarkAll(ReconcileAll(s.rows, r.choices.listed, WrittenEvents(r.input, r.choices.events)),
      ids, r.input.now, r.input.markFails)
    ensures ids == ToResolve(s.counts, Checked(r.input, r.choices.events, r.choices.relisted),
      Anomalous(r.post.active))
  {
    ids := ToResolve(s.counts, Checked(r.input, r.choices.events, r.choices.relisted), Anomalous(r.post.active));
  }

  lemma CutShort(s: MonitorState, r: TickRecord)
    requires TickStep(s, r.input, r.choices, r.post) && !Completes(r.input)
    ensures r.post.rows == s.rows
  {
  }

  /** One cycle on one row that was there before. */
  lemma StepAppends(s: MonitorState, r: TickRecord, i: nat)
    requires TickStep(s, r.input, r.choices, r.post) && i < |s.rows|
    ensures i < |r.post.rows| && r.post.rows[i].timeline == s.rows[i].timeline + Appended(r, i + 1)
    ensures SameOrigin(s.rows[i], r.post.rows[i])
  {
    hide TickStep;
    if Completes(r.input) {
      var ids := SettledTable(s, r);
      SettledRow(s.rows, r.choices.listed, WrittenEvents(r.input, r.choices.events), ids, r.input.now,
          r.input.markFails, i);
    } else {
      CutShort(s, r);
      assert s.rows[i].timeline + [] == s.rows[i].timeline;
    }
  }

  lemma {:induction false} PrefixValid(run: seq<TickRecord>, k: nat)
    requires ValidRun(run) && k <= |run|
    ensures ValidRun(run[..k])
  {
    hide TickStep;
    if k == |run| {
      assert run[..k] == run;
    } else {
      PrefixValid(run[..|run| - 1], k);
      assert run[..|run| - 1][..k] == run[..k];
    }
  }

  lemma {:induction false} StepAt(run: seq<TickRecord>, k: nat)
    requires ValidRun(run) && k < |run|
    ensures TickStep(FinalState(run[..k]), run[k].input, run[k].choices, run[k].post)
    ensures FinalState(run[..k + 1]) == run[k].post
  {
    hide TickStep;
    PrefixValid(run, k + 1);
    assert run[..k + 1][..k] == run[..k];
  }

  /** From any cycle on, a row's timeline grows by exactly the timelines of the
      events matched to it, in order; nothing else but its status ever changes. */
  lemma {:induction false} TimelineFrom(run: seq<TickRecord>, k: nat, i: nat)
    requires ValidRun(run) && k <= |run| && i < |FinalState(run[..k]).rows|
    ensures i < |FinalState(run).rows|
    ensures var before, after := FinalState(run[..k]).rows[i], FinalState(run).rows[i];
      after.timeline == before.timeline + Later(run, k, i + 1) && SameOrigin(before, after)
  {
    hide TickStep, Appended;
    if k == |run| {
      assert run[..k] == run;
      assert FinalState(run).rows[i].timeline + [] == FinalState(run).rows[i].timeline;
    } else {
      var init, r := run[..|run| - 1], run[|run| - 1];
      assert init[..k] == run[..k];
      TimelineFrom(init, k, i);
      StepAppends(FinalState(init), r, i);
    }
  }

  /** The event that a cycle turned into row i. */
  function Creator(r: TickRecord, before: nat, i: nat): CorrelatedEvent
    requires before <= i < before + |Unmatched(r.choices.listed, WrittenEvents(r.input, r.choices.events))|
  {
    Unmatched(r.choices.listed, WrittenEvents(r.input, r.choices.events))[i - before]
  }

  /** A row that a cycle added starts as its event. */
  lemma StepCreates(s: MonitorState, r: TickRecord, i: nat)
    requires TickStep(s, r.input, r.choices, r.post) && |s.rows| <= i < |r.post.rows|
    ensures Completes(r.input)
    ensures i < |s.rows| + |Unmatched(r.choices.listed, WrittenEvents(r.input, r.choices.events))|
    ensures var ev, row := Creator(r, |s.rows|, i), r.post.rows[i];
      row.timeline == ev.timeline && StemsFrom(row, ev)
  {
    hide TickStep, StemsFrom;
    if !Completes(r.input) {
      CutShort(s, r);
    }
    var ids := SettledTable(s, r);
    SettledRow(s.rows, r.choices.listed, WrittenEvents(r.input, r.choices.events), ids, r.input.now,
        r.input.markFails, i);
  }

  /** The cycle that created a row. */
  lemma {:induction false} CreatedIn(run: seq<TickRecord>, i: nat) returns (k: nat)
    requires ValidRun(run) && i < |FinalState(run).rows|
    ensures k < |run| && |FinalState(run[..k]).rows| <= i < |FinalState(run[..k + 1]).rows|
  {
    hide TickStep;
    var init := run[..|run| - 1];
    if i < |FinalState(init).rows| {
      k := CreatedIn(init, i);
      assert init[..k] == run[..k] && init[..k + 1] == run[..k + 1];
    } else {
      k := |run| - 1;
      assert run[..k + 1] == run;
    }
  }

  /** Incident history, over every run: each timeline is the timeline of the event
      that created the incident, followed by the timelines of the events matched
      to it in later cycles, in order. The incident keeps that event's root,
      cause, affected services, fault type and start for ever. */
  lemma TimelineHistory(run: seq<TickRecord>, i: nat) returns (k: nat)
    requires ValidRun(run) && i < |FinalState(run).rows|
    ensures k < |run| && Completes(run[k].input)
    ensures var before := |FinalState(run[..k]).rows|;
      before <= i < before + |Unmatched(run[k].choices.listed, WrittenEvents(run[k].input, run[k].choices.events))|
    ensures var row, ev := FinalState(run).rows[i], Creator(run[k], |FinalState(run[..k]).rows|, i);
      row.timeline == ev.timeline + Later(run, k + 1, i + 1) && StemsFrom(row, ev)
  {
    hide TickStep, FinalState;
    k := CreatedIn(run, i);
    StepAt(run, k);
    StepCreates(FinalState(run[..k]), run[k], i);
    TimelineFrom(run, k + 1, i);
  }
}
