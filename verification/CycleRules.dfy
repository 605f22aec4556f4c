/** One polling cycle, said by what it reads, detects, remembers and correlates. */
module CycleRules {
  import opened Answers
  import opened ActiveSignals
  import opened Correlation
  import opened Incidents
  import opened Resolution
  import opened Monitor

  /** A cycle reads the metric rows of the last 30 s and the faults of the last 10 s,
      and no others. */
  lemma RecentRowsRead(t: TickInput)
    requires Reads(t) && t.faults.Some?
    ensures forall r :: r in ServiceRows(t) <==> r in t.services.value && r.ts >= t.now - 30000
    ensures forall r :: r in QueueRows(t) <==> r in t.queues.value && r.ts >= t.now - 30000
    ensures forall f :: f in FaultRows(t) <==> f in t.faults.value && f.ts >= t.now - 10000
  {
  }

  /** What a cycle that reads its rows leaves behind: the detectors' answers against
      the updated windows, and the memory of the last 30 s; and, if it also reads the
      faults, events that follow from their signals and those faults. */
  ghost predicate CycleRule(s: MonitorState, t: TickInput, c: Choices, s': MonitorState)
    requires Reads(t)
  {
    && ServiceAnswer(c.serviceSignals, ServiceRows(t), s'.windows)
    && QueueAnswer(c.queueSignals, QueueRows(t), s'.windows)
    && Remembers(s'.active, s.active, t.now, c.serviceSignals + c.queueSignals)
    && (t.faults.Some? ==> forall k :: 0 <= k < |c.events| ==> EventRule(c.events[k], FaultRows(t)))
  }

  lemma CycleFollowsRule(s: MonitorState, t: TickInput, c: Choices, s': MonitorState)
    requires TickStep(s, t, c, s') && Reads(t)
    ensures CycleRule(s, t, c, s')
  {
    ServiceAnswers(c.serviceSignals, c.serviceKeys, ServiceRows(t), s'.windows);
    QueueAnswers(c.queueSignals, c.queueKeys, QueueRows(t), s'.windows);
    UpdateRemembers(s.active, t.now, c.serviceSignals + c.queueSignals);
    hide ServiceAnswer, QueueAnswer, Remembers, EventRule, Updated, ServiceRows, QueueRows, FaultRows, NextWindows,
      Settles, Correlates;
    if t.faults.Some? {
      EventsFollowRule(s'.active, c.sorted, FaultRows(t), c.events);
    }
  }

  /** After a failed reconcile nothing is resolved and no streak is left. */
  lemma FailedReconcile(s: MonitorState, t: TickInput, c: Choices, s': MonitorState, i: nat)
    requires TickStep(s, t, c, s') && Reads(t) && t.faults.Some?
    requires t.fault.ListFails? || t.fault.RelistFails? || (t.fault.WriteFails? && t.fault.at < |c.events|)
    ensures s'.counts == map[]
    ensures i < |s.rows| ==> i < |s'.rows| && s'.rows[i].status == s.rows[i].status
  {
    hide Anomalous, NextWindows, NextActive, Correlates, Detects;
    assert Checked(t, c.events, c.relisted) == [];
    assert s'.counts == map[];
    ReconcileShape(s.rows, c.listed, WrittenEvents(t, c.events));
  }
}
