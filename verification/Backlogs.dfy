/** What the monitor promises of dead-letter queues: while one is not empty, the
    incidents it stands behind stay open. */
module Backlogs {
  import opened Signals
  import opened Detection
  import opened ActiveSignals
  import opened Incidents
  import opened Resolution
  import opened Monitor
  import opened MonitorRuns
  import opened Series

  /** A recent row reports letters on the queue. */
  predicate Holding(r: QueueRow, queue: string) { r.queue == queue && r.dlq && r.depth > 0.0 }

  ghost predicate Backlogged(t: TickInput, queue: string) {
    Reads(t) && exists r :: r in QueueRows(t) && Holding(r, queue)
  }

  /** The incident affects the queue or the service that owns it. */
  predicate Behind(queue: string, inc: Incident) {
    queue in inc.affected || (QueueOwner(queue).Some? && QueueOwner(queue).value in inc.affected)
  }

  // ------------------------------------------------------------- signals

  lemma {:induction false} HoldingFires(c: Windows, rows: seq<QueueRow>, r: QueueRow)
    requires r in rows && Holding(r, r.queue)
    ensures QueueFired(c, rows, r.queue, DlqDepth) != []
  {
    var init, last := rows[..|rows| - 1], rows[|rows| - 1];
    if r != last {
      HoldingFires(c, init, r);
    }
  }

  lemma {:induction false} FiredOnQueue(c: Windows, rows: seq<QueueRow>, queue: string, m: Metric)
    ensures forall x :: x in QueueFired(c, rows, queue, m) ==> x.queue == queue && x.metric == m
  {
    if rows == [] {
    } else {
      FiredOnQueue(c, rows[..|rows| - 1], queue, m);
    }
  }

  /** A letter on a dead-letter queue is always detected. */
  lemma BacklogSignalled(w: Windows, t: TickInput, c: Choices, queue: string) returns (x: Signal)
    requires Backlogged(t, queue) && Detects(w, t, c)
    ensures x in c.queueSignals && x.queue == queue && x.metric.DlqDepth?
  {
    var rows, key := QueueRows(t), BestKey(queue, DlqDepth);
    var r :| r in rows && Holding(r, queue);
    HoldingFires(w, rows, r);
    FiredOnQueue(w, rows, queue, DlqDepth);
    BestQueueIsFirstStrongest(w, rows, queue, DlqDepth);
    hide QueueFired, BestQueue, BestKey, QueueRows;
    x := BestQueue(w, rows)[key];
    var i :| FirstStrongest(QueueFired(w, rows, queue, DlqDepth), i) && QueueFired(w, rows, queue, DlqDepth)[i] == x;
    var k :| 0 <= k < |c.queueKeys| && c.queueKeys[k] == key;
    assert c.queueSignals[k] == x;
  }

  /** What is detected leaves its series in the active set. */
  lemma DetectedIsActive(active: seq<Signal>, now: int, signals: seq<Signal>, x: Signal) returns (y: Signal)
    requires AllOneSided(active) && x in signals && forall z :: z in signals ==> OneSided(z)
    ensures y in Updated(active, now, signals) && SameSeries(x, y)
  {
    var pruned := Prune(active, now - SIGNAL_WINDOW);
    var updated, key := Updated(active, now, signals), SignalKey(x);
    UpdateKeepsOneSided(active, now, signals);
    PruneDistinct(active, now - SIGNAL_WINDOW);
    MergeKeepsStrongest(pruned, signals, key);
    WithKeyHas(pruned + signals, x);
    y := updated[FindKey(updated, key)];
    OneSidedKeys(x, y);
  }

  lemma {:induction false} WithKeyHas(xs: seq<Signal>, x: Signal)
    requires x in xs
    ensures WithKey(xs, SignalKey(x)) != []
  {
    if x != xs[|xs| - 1] {
      WithKeyHas(xs[..|xs| - 1], x);
    }
  }

  /** While a dead-letter queue holds letters it is anomalous, and so is its owner. */
  lemma BacklogIsAnomalous(s: MonitorState, t: TickInput, c: Choices, queue: string)
    requires AllOneSided(s.active) && Backlogged(t, queue) && Detects(NextWindows(s, t), t, c) && queue != ""
    ensures queue in Anomalous(NextActive(s, t, c))
    ensures QueueOwner(queue).Some? ==> QueueOwner(queue).value in Anomalous(NextActive(s, t, c))
  {
    var x := BacklogSignalled(NextWindows(s, t), t, c, queue);
    DetectedAreOneSided(NextWindows(s, t), t, c);
    var y := DetectedIsActive(s.active, t.now, c.serviceSignals + c.queueSignals, x);
    AnomalousHas(NextActive(s, t, c), y);
  }

  // ----------------------------------------------------------- incidents

  /** No incident that a backlogged queue stands behind is resolved, new or old,
      whatever the correlator makes of it; and its streak restarts. */
  lemma NotResolvedWhileBacklogged(s: MonitorState, t: TickInput, c: Choices, s': MonitorState, queue: string, i: nat)
    requires SoundInput(t) && SoundState(s, t.now) && AllOneSided(s.active) && Completes(t) && TickStep(s, t, c, s')
    requires Backlogged(t, queue)
    requires var mid := Reconciled(s.rows, t, c.events, c.listed);
      i < |mid| && mid[i].status.Active? && Behind(queue, mid[i])
    ensures i < |s'.rows| && s'.rows[i].status.Active?
    ensures CountOf(s'.counts, i + 1) == 0
  {
    CycleFacts(s, t, c, s');
    BacklogIsAnomalous(s, t, c, queue);
    var mid, checked, anomalous :=
      Reconciled(s.rows, t, c.events, c.listed), Checked(t, c.events, c.relisted), Anomalous(s'.active);
    NotClean(mid[i], if queue in mid[i].affected then queue else QueueOwner(queue).value, anomalous);
    DirtyRowSurvives(s.counts, |s.rows|, checked, mid, anomalous, t.now, t.markFails, i);
  }

  /** One cycle on an incident that was there before. */
  lemma StepStaysOpen(s: MonitorState, r: TickRecord, queue: string, i: nat)
    requires TickStep(s, r.input, r.choices, r.post) && SoundInput(r.input) && SoundState(s, r.input.now)
    requires AllOneSided(s.active) && (Completes(r.input) ==> Backlogged(r.input, queue))
    requires i < |s.rows| && s.rows[i].status.Active? && Behind(queue, s.rows[i])
    ensures i < |r.post.rows| && r.post.rows[i].status.Active? && r.post.rows[i].affected == s.rows[i].affected
  {
    if Completes(r.input) {
      ReconcileShape(s.rows, r.choices.listed, WrittenEvents(r.input, r.choices.events));
      NotResolvedWhileBacklogged(s, r.input, r.choices, r.post, queue, i);
      StepEvolves(s, r.input, r.choices, r.post);
      assert Evolves(s.rows[i], r.post.rows[i]);
    }
  }

  /** Over runs: as long as every completed cycle reads a row of a dead-letter queue
      that is not empty, an incident which it stands behind stays open, however many
      cycles pass and whatever else they read. */
  lemma {:induction false} OpenWhileBacklogged(run: seq<TickRecord>, k: nat, queue: string, i: nat)
    requires ValidRun(run) && Clocked(run) && k <= |run|
    requires i < |FinalState(run[..k]).rows| && FinalState(run[..k]).rows[i].status.Active?
    requires Behind(queue, FinalState(run[..k]).rows[i])
    requires forall j :: k <= j < |run| && Completes(run[j].input) ==> Backlogged(run[j].input, queue)
    ensures i < |FinalState(run).rows| && FinalState(run).rows[i].status.Active?
    ensures FinalState(run).rows[i].affected == FinalState(run[..k]).rows[i].affected
  {
    if k == |run| {
      assert run[..k] == run;
    } else {
      var init, r := run[..|run| - 1], run[|run| - 1];
      assert init[..k] == run[..k];
      BeforeLast(run);
      forall j | k <= j < |init| && Completes(init[j].input) ensures Backlogged(init[j].input, queue) {
        assert init[j] == run[j];
      }
      OpenWhileBacklogged(init, k, queue, i);
      RunOneSided(init);
      assert SoundInput(r.input) by { assert r == run[|run| - 1]; }
      hide SoundState, AllOneSided, Backlogged, TickStep, SoundInput;
      StepStaysOpen(FinalState(init), r, queue, i);
    }
  }
}
