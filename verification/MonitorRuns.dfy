/** Properties of single cycles and of every run of cycles. */
module MonitorRuns {
  import opened Sequences
  import opened Signals
  import opened Statistics
  import opened Baseline
  import opened Detection
  import opened ActiveSignals
  import opened Correlation
  import opened Incidents
  import opened Resolution
  import opened Sorting
  import opened Monitor

  // ---------------------------------------------------------- environment

  /** No row comes from the future, and every row names its service or queue. */
  ghost predicate SoundInput(t: TickInput) {
    && (t.services.Some? ==> forall r :: r in t.services.value ==> r.ts <= t.now && r.service != "")
    && (t.queues.Some? ==> forall r :: r in t.queues.value ==> r.ts <= t.now && r.queue != "")
  }

  /** The clock assumption: cycle times strictly increase. */
  ghost predicate Clocked(run: seq<TickRecord>) {
    && (forall i :: 0 <= i < |run| ==> SoundInput(run[i].input))
    && (forall i, j :: 0 <= i < j < |run| ==> run[i].input.now < run[j].input.now)
  }

  // ------------------------------------------------------- fresh signals

  /** A kept signal is one that some row fired. */
  lemma {:induction false} BestServiceFires(c: Windows, rows: seq<ServiceRow>, k: string)
      returns (r: ServiceRow, m: Metric)
    requires k in BestService(c, rows)
    ensures r in rows && (m.ErrorRate? || m.P99Latency? || m.Throughput?)
    ensures ServiceCheck(c, r, m) == Some(BestService(c, rows)[k])
  {
    var init, last := rows[..|rows| - 1], rows[|rows| - 1];
    var b := BestService(c, init);
    var b1 := Keep(b, BestKey(last.service, ErrorRate), ServiceCheck(c, last, ErrorRate));
    var b2 := Keep(b1, BestKey(last.service, P99Latency), ServiceCheck(c, last, P99Latency));
    var b3 := Keep(b2, BestKey(last.service, Throughput), ServiceCheck(c, last, Throughput));
    assert b3 == BestService(c, rows);
    hide BestKey, ServiceCheck;
    r, m := last, ErrorRate;
    if k in b2 && b3[k] == b2[k] {
      if k in b1 && b2[k] == b1[k] {
        if k in b && b1[k] == b[k] {
          r, m := BestServiceFires(c, init, k);
        }
      } else {
        m := P99Latency;
      }
    } else {
      m := Throughput;
    }
  }

  lemma {:induction false} BestQueueFires(c: Windows, rows: seq<QueueRow>, k: string) returns (r: QueueRow)
    requires k in BestQueue(c, rows)
    ensures r in rows && QueueCheck(c, r) == Some(BestQueue(c, rows)[k])
  {
    var init, last := rows[..|rows| - 1], rows[|rows| - 1];
    hide QueueCheck, QueueSlot;
    if k in BestQueue(c, init) && BestQueue(c, rows)[k] == BestQueue(c, init)[k] {
      r := BestQueueFires(c, init, k);
    } else {
      r := last;
    }
  }

  /** A signal dated inside the read window of a cycle and naming something. */
  ghost predicate Recent(s: Signal, now: int) {
    now - METRIC_READ_WINDOW <= s.ts <= now && Named(s)
  }

  /** A fired signal has the time and the name of its row. */
  lemma FiresAsRow(c: Windows)
    ensures forall r, m, x :: ServiceCheck(c, r, m) == Some(x) ==> x.ts == r.ts && x.service == r.service
    ensures forall r, x :: QueueCheck(c, r) == Some(x) ==> x.ts == r.ts && x.queue == r.queue
  {
    hide Above, Beneath, Score, StatsOf;
  }

  lemma DetectedAreRecent(w: Windows, t: TickInput, c: Choices)
    requires Reads(t) && SoundInput(t) && Detects(w, t, c)
    ensures forall s :: s in c.serviceSignals + c.queueSignals ==> Recent(s, t.now)
  {
    FiresAsRow(w);
    hide ServiceCheck, QueueCheck;
    forall s | s in c.serviceSignals
      ensures Recent(s, t.now)
    {
      var i :| 0 <= i < |c.serviceSignals| && c.serviceSignals[i] == s;
      var r, m := BestServiceFires(w, ServiceRows(t), c.serviceKeys[i]);
    }
    forall s | s in c.queueSignals
      ensures Recent(s, t.now)
    {
      var i :| 0 <= i < |c.queueSignals| && c.queueSignals[i] == s;
      var r := BestQueueFires(w, QueueRows(t), c.queueKeys[i]);
    }
  }

  /** After the update of a cycle every active signal lies in its last 30 s. */
  lemma ActiveAreRecent(active: seq<Signal>, signals: seq<Signal>, now: int)
    requires forall x :: x in active ==> x.ts <= now && Named(x)
    requires forall x :: x in signals ==> Recent(x, now)
    ensures forall x :: x in Updated(active, now, signals) ==> Recent(x, now)
  {
    UpdatedMembers(Prune(active, now - SIGNAL_WINDOW), signals);
  }

  lemma NextActiveIsRecent(s: MonitorState, t: TickInput, c: Choices)
    requires Reads(t) && SoundInput(t) && Detects(NextWindows(s, t), t, c)
    requires forall x :: x in s.active ==> x.ts <= t.now && Named(x)
    ensures forall x :: x in NextActive(s, t, c) ==> Recent(x, t.now)
  {
    DetectedAreRecent(NextWindows(s, t), t, c);
    ActiveAreRecent(s.active, c.serviceSignals + c.queueSignals, t.now);
  }

  // ------------------------------------------------------------ invariant

  /** A row of the incident table, as of time `now`. */
  ghost predicate SoundRow(inc: Incident, now: int) {
    && inc.rootService in inc.affected
    && inc.startedAt <= now
    && (inc.status.Active? ==> inc.resolvedAt.None?)
    && (inc.status.Resolved? ==> inc.resolvedAt.Some? && inc.startedAt < inc.resolvedAt.value <= now)
  }

  ghost predicate SoundRows(rows: seq<Incident>, now: int) {
    TableOk(rows) && forall i :: 0 <= i < |rows| ==> SoundRow(rows[i], now)
  }

  ghost predicate KnownCounts(counts: map<nat, nat>, n: nat) {
    forall id :: id in counts ==> 1 <= id <= n
  }

  ghost predicate SoundActive(active: seq<Signal>, now: int) {
    (forall x :: x in active ==> x.ts <= now && Named(x)) && DistinctKeys(active)
  }

  ghost predicate SoundState(s: MonitorState, now: int) {
    SoundActive(s.active, now) && SoundRows(s.rows, now) && KnownCounts(s.counts, |s.rows|)
  }

  // ------------------------------------------------------- events and rows

  ghost predicate SoundEvent(ev: CorrelatedEvent, active: seq<Signal>, now: int) {
    ev.rootService in ev.affected && ev.startTs <= now && NamesService(active, ev.rootService)
  }

  ghost predicate SoundEvents(events: seq<CorrelatedEvent>, active: seq<Signal>, now: int) {
    |events| <= 3 && forall k :: 0 <= k < |events| ==> SoundEvent(events[k], active, now)
  }

  lemma EventsAreSound(active: seq<Signal>, sorted: seq<Signal>, faults: seq<FaultEvent>,
      events: seq<CorrelatedEvent>, now: int)
    requires Correlates(active, sorted, faults, events)
    requires forall x :: x in active ==> Recent(x, now)
    ensures SoundEvents(events, active, now)
  {
    AtMostThreeEvents(active, sorted, faults, events, now);
    forall k | 0 <= k < |events|
      ensures SoundEvent(events[k], active, now)
    {
      EventRoots(active, sorted, faults, events, k);
    }
  }

  lemma {:induction false} UnmatchedAreEvents(actives: seq<Incident>, events: seq<CorrelatedEvent>)
    ensures forall ev :: ev in Unmatched(actives, events) ==> ev in events
    ensures |Unmatched(actives, events)| <= |events|
  {
    if events == [] {
    } else {
      UnmatchedAreEvents(actives, events[..|events| - 1]);
      assert events == events[..|events| - 1] + [events[|events| - 1]];
    }
  }

  lemma CreatedIsSound(events: seq<CorrelatedEvent>, ev: CorrelatedEvent, id: nat, active: seq<Signal>, now: int)
    requires SoundEvents(events, active, now) && ev in events
    ensures SoundRow(NewIncident(id, ev), now)
  {
    var j :| 0 <= j < |events| && events[j] == ev;
    assert SoundEvent(events[j], active, now);
  }

  /** A reconcile keeps the table sound and adds at most three rows, all active. */
  lemma ReconciledIsSound(rows: seq<Incident>, listed: seq<Incident>, events: seq<CorrelatedEvent>, n: nat,
      active: seq<Signal>, now: int)
    requires SoundRows(rows, now) && Known(listed, |rows|)
    requires SoundEvents(events, active, now) && n <= |events|
    ensures var mid := ReconcileAll(rows, listed, events[..n]);
      && SoundRows(mid, now) && |rows| <= |mid| <= |rows| + 3
      && (forall i :: |rows| <= i < |mid| ==> mid[i].status.Active?)
  {
    var written := events[..n];
    var us := Unmatched(listed, written);
    ReconcileShape(rows, listed, written);
    UnmatchedAreEvents(listed, written);
    var mid := ReconcileAll(rows, listed, written);
    forall i | 0 <= i < |mid|
      ensures mid[i].id == i + 1 && SoundRow(mid[i], now) && (i >= |rows| ==> mid[i].status.Active?)
    {
      if i < |rows| {
        assert SoundRow(rows[i], now);
      } else {
        assert mid[i] == NewIncident(i + 1, us[i - |rows|]);
        assert us[i - |rows|] in us;
        CreatedIsSound(events, us[i - |rows|], i + 1, active, now);
      }
    }
  }

  // ------------------------------------------------------------ resolution

  lemma {:induction false} FilterIncreasing(rows: seq<Incident>, i: nat, j: nat)
    requires TableOk(rows) && i < j < |Filter(rows, IsActive)|
    ensures Filter(rows, IsActive)[i].id < Filter(rows, IsActive)[j].id
  {
    var init, x := rows[..|rows| - 1], rows[|rows| - 1];
    var f := Filter(init, IsActive);
    if j < |f| {
      FilterIncreasing(init, i, j);
    } else {
      assert f[i] in init;
    }
  }

  lemma ListedDistinct(listed: seq<Incident>, rows: seq<Incident>)
    requires TableOk(rows) && ListsActive(listed, rows)
    ensures DistinctIds(listed)
  {
    var f := Filter(rows, IsActive);
    forall i, j | 0 <= i < j < |f| ensures f[i] != f[j] { FilterIncreasing(rows, i, j); }
    PermutationDistinct(listed, f);
    PermutationMembers(listed, f);
    forall i, j | 0 <= i < j < |listed|
      ensures listed[i].id != listed[j].id
    {
      assert listed[i] in f && listed[j] in f;
      assert listed[i] in rows && listed[j] in rows;
    }
  }

  /** What the tracker is asked about: distinct active rows of the table. */
  ghost predicate Tracked(checked: seq<Incident>, rows: seq<Incident>) {
    && DistinctIds(checked)
    && forall i :: 0 <= i < |checked| ==>
        1 <= checked[i].id <= |rows| && rows[checked[i].id - 1] == checked[i] && checked[i].status.Active?
  }

  lemma CheckedAreTracked(checked: seq<Incident>, rows: seq<Incident>)
    requires TableOk(rows) && (checked == [] || ListsActive(checked, rows))
    ensures Tracked(checked, rows)
  {
    if checked != [] {
      ListedDistinct(checked, rows);
      ListedMembers(checked, rows);
      forall i | 0 <= i < |checked|
        ensures 1 <= checked[i].id <= |rows| && rows[checked[i].id - 1] == checked[i] && checked[i].status.Active?
      {
        assert checked[i] in checked;
      }
    }
  }

  /** Only rows that are tracked, clean, and already counted by an earlier check
      can be resolved. */
  lemma ResolvingAreOld(counts: map<nat, nat>, n: nat, checked: seq<Incident>, rows: seq<Incident>,
      anomalous: set<string>, id: nat)
    requires KnownCounts(counts, n) && Tracked(checked, rows)
    requires id in ToResolve(counts, checked, anomalous)
    ensures 1 <= id <= n && id <= |rows|
    ensures rows[id - 1].status.Active? && Clean(rows[id - 1], anomalous)
  {
    ToResolveMembers(counts, checked, anomalous, id);
    assert CountOf(counts, id) > 0;
  }

  lemma NotClean(inc: Incident, name: string, anomalous: set<string>)
    requires name in inc.affected && name in anomalous
    ensures !Clean(inc, anomalous)
  {
    var m :| 0 <= m < |inc.affected| && inc.affected[m] == name;
  }

  /** A row with an affected name that is anomalous is not resolved, and its count
      comes out 0. */
  lemma DirtyRowSurvives(counts: map<nat, nat>, n: nat, checked: seq<Incident>, rows: seq<Incident>,
      anomalous: set<string>, at: int, failing: set<nat>, i: nat)
    requires KnownCounts(counts, n) && Tracked(checked, rows)
    requires i < |rows| && !Clean(rows[i], anomalous)
    ensures MarkAll(rows, ToResolve(counts, checked, anomalous), at, failing)[i] == rows[i]
    ensures CountOf(NextCounts(counts, checked, anomalous), i + 1) == 0
  {
    var ids := ToResolve(counts, checked, anomalous);
    assert i + 1 !in ids by {
      if i + 1 in ids { ResolvingAreOld(counts, n, checked, rows, anomalous, i + 1); }
    }
    MarkAllAt(rows, ids, at, failing, i);
    TallyAt(counts, checked, anomalous, i + 1);
  }

  /** Resolving keeps the table sound: what is resolved started before. */
  lemma MarkedIsSound(rows: seq<Incident>, before: int, now: int, counts: map<nat, nat>, n: nat, checked: seq<Incident>,
                      anomalous: set<string>, failing: set<nat>)
    requires SoundRows(rows, now) && before < now && n <= |rows|
    requires forall i :: 0 <= i < n ==> rows[i].startedAt <= before
    requires KnownCounts(counts, n) && Tracked(checked, rows)
    ensures SoundRows(MarkAll(rows, ToResolve(counts, checked, anomalous), now, failing), now)
    ensures KnownCounts(NextCounts(counts, checked, anomalous), |rows|)
  {
    var ids := ToResolve(counts, checked, anomalous);
    var r := MarkAll(rows, ids, now, failing);
    forall i | 0 <= i < |r|
      ensures r[i].id == i + 1 && SoundRow(r[i], now)
    {
      MarkAllAt(rows, ids, now, failing, i);
      assert SoundRow(rows[i], now);
      if i + 1 in ids {
        ResolvingAreOld(counts, n, checked, rows, anomalous, i + 1);
      }
    }
    forall id | id in NextCounts(counts, checked, anomalous)
      ensures 1 <= id <= |rows|
    {
      var i :| 0 <= i < |checked| && checked[i].id == id;
    }
  }

  // ----------------------------------------------------------- one cycle

  /** The cycle got as far as correlation. */
  predicate Completes(t: TickInput) { Reads(t) && t.faults.Some? }

  lemma CompletedEvents(s: MonitorState, t: TickInput, c: Choices, s': MonitorState)
    requires SoundInput(t) && SoundActive(s.active, t.now) && Completes(t) && TickStep(s, t, c, s')
    ensures forall x :: x in s'.active ==> Recent(x, t.now)
    ensures SoundEvents(c.events, s'.active, t.now)
  {
    NextActiveIsRecent(s, t, c);
    EventsAreSound(s'.active, c.sorted, FaultRows(t), c.events, t.now);
  }

  /** The facts about a completed cycle that the results below use. */
  lemma CycleFacts(s: MonitorState, t: TickInput, c: Choices, s': MonitorState)
    requires SoundInput(t) && SoundState(s, t.now) && Completes(t) && TickStep(s, t, c, s')
    ensures forall x :: x in s'.active ==> Recent(x, t.now)
    ensures SoundEvents(c.events, s'.active, t.now)
    ensures Known(c.listed, |s.rows|)
    ensures var mid, checked := Reconciled(s.rows, t, c.events, c.listed), Checked(t, c.events, c.relisted);
      && SoundRows(mid, t.now) && |s.rows| <= |mid| <= |s.rows| + 3
      && Tracked(checked, mid)
  {
    CompletedEvents(s, t, c, s');
    MidFacts(s.rows, t, c.events, c.listed, c.relisted, s'.active);
  }

  lemma MidFacts(rows: seq<Incident>, t: TickInput, events: seq<CorrelatedEvent>, listed: seq<Incident>,
      relisted: seq<Incident>, active: seq<Signal>)
    requires SoundRows(rows, t.now) && Queried(rows, t, events, listed, relisted) && SoundEvents(events, active, t.now)
    ensures var mid, checked := Reconciled(rows, t, events, listed), Checked(t, events, relisted);
      && SoundRows(mid, t.now) && |rows| <= |mid| <= |rows| + 3
      && Tracked(checked, mid)
  {
    ReconciledIsSound(rows, listed, events, Written(t.fault, |events|), active, t.now);
    CheckedAreTracked(Checked(t, events, relisted), Reconciled(rows, t, events, listed));
  }

  /** No incident is resolved in a cycle whose correlator still names its root
      service, whether or not the event matched it; and its streak restarts. */
  lemma NotResolvedWhileNamed(s: MonitorState, t: TickInput, c: Choices, s': MonitorState, k: nat, i: nat)
    requires SoundInput(t) && SoundState(s, t.now) && Completes(t) && TickStep(s, t, c, s')
    requires k < |c.events|
    requires var mid := Reconciled(s.rows, t, c.events, c.listed);
      i < |mid| && mid[i].status.Active? && mid[i].rootService == c.events[k].rootService
    ensures i < |s'.rows| && s'.rows[i].status.Active?
    ensures CountOf(s'.counts, i + 1) == 0
  {
    CycleFacts(s, t, c, s');
    NamedIsAnomalous(s'.active, c.events, k, t.now);
    var mid, checked := Reconciled(s.rows, t, c.events, c.listed), Checked(t, c.events, c.relisted);
    assert SoundRow(mid[i], t.now);
    NotClean(mid[i], mid[i].rootService, Anomalous(s'.active));
    DirtyRowSurvives(s.counts, |s.rows|, checked, mid, Anomalous(s'.active), t.now, t.markFails, i);
  }

  lemma NamedIsAnomalous(active: seq<Signal>, events: seq<CorrelatedEvent>, k: nat, now: int)
    requires SoundEvents(events, active, now) && k < |events|
    requires forall x :: x in active ==> Recent(x, now)
    ensures events[k].rootService in Anomalous(active)
  {
    assert SoundEvent(events[k], active, now);
    var j :| 0 <= j < |active| && ServiceForSignal(active[j]) == events[k].rootService;
    AttributionAgrees(active, active[j]);
  }

  lemma ActiveStaysSound(s: MonitorState, t: TickInput, c: Choices)
    requires SoundInput(t) && Reads(t) && SoundActive(s.active, t.now) && Detects(NextWindows(s, t), t, c)
    ensures SoundActive(NextActive(s, t, c), t.now)
  {
    NextActiveIsRecent(s, t, c);
    UpdatedDistinct(s.active, t.now, c.serviceSignals + c.queueSignals);
  }

  /** Reconciling, checking and resolving keep the table and the counts sound. */
  lemma SettlingStaysSound(rows: seq<Incident>, counts: map<nat, nat>, before: int, t: TickInput, c: Choices,
      active: seq<Signal>)
    requires before < t.now && SoundRows(rows, before) && SoundRows(rows, t.now) && KnownCounts(counts, |rows|)
    requires Queried(rows, t, c.events, c.listed, c.relisted) && SoundEvents(c.events, active, t.now)
    ensures var mid, checked := Reconciled(rows, t, c.events, c.listed), Checked(t, c.events, c.relisted);
      var done := MarkAll(mid, ToResolve(counts, checked, Anomalous(active)), t.now, t.markFails);
      SoundRows(done, t.now) && KnownCounts(NextCounts(counts, checked, Anomalous(active)), |done|)
  {
    var mid, checked := Reconciled(rows, t, c.events, c.listed), Checked(t, c.events, c.relisted);
    MidFacts(rows, t, c.events, c.listed, c.relisted, active);
    StartedBefore(rows, before, t, c);
    MarkedIsSound(mid, before, t.now, counts, |rows|, checked, Anomalous(active), t.markFails);
  }

  /** The invariant is kept by every cycle, completed or cut short. */
  lemma StepKeepsSound(s: MonitorState, before: int, t: TickInput, c: Choices, s': MonitorState)
    requires SoundInput(t) && before < t.now && SoundState(s, before) && TickStep(s, t, c, s')
    ensures SoundState(s', t.now)
  {
    SoundLater(s, before, t.now);
    if Reads(t) {
      ActiveStaysSound(s, t, c);
    }
    if Completes(t) {
      CompletedEvents(s, t, c, s');
      SettlingStaysSound(s.rows, s.counts, before, t, c, s'.active);
    }
  }

  lemma SoundLater(s: MonitorState, now: int, later: int)
    requires SoundState(s, now) && now <= later
    ensures SoundState(s, later)
  {
    forall i | 0 <= i < |s.rows| ensures SoundRow(s.rows[i], later) { assert SoundRow(s.rows[i], now); }
  }

  lemma StartedBefore(rows: seq<Incident>, before: int, t: TickInput, c: Choices)
    requires SoundRows(rows, before) && Known(c.listed, |rows|)
    ensures var mid := Reconciled(rows, t, c.events, c.listed);
      |rows| <= |mid| && forall i :: 0 <= i < |rows| ==> mid[i].startedAt <= before
  {
    ReconcileShape(rows, c.listed, WrittenEvents(t, c.events));
    forall i | 0 <= i < |rows|
      ensures Reconciled(rows, t, c.events, c.listed)[i].startedAt <= before
    {
      assert SoundRow(rows[i], before);
    }
  }

  // ------------------------------------------------------ evolution of rows

  /** How one row may change: resolved rows not at all, active rows by a longer
      timeline or by being resolved; the rest is fixed at creation. */
  ghost predicate Evolves(a: Incident, b: Incident) {
    && (a.status.Resolved? ==> b == a)
    && a.timeline <= b.timeline
    && b == a.(timeline := b.timeline, status := b.status, resolvedAt := b.resolvedAt)
  }

  ghost predicate RowsEvolve(a: seq<Incident>, b: seq<Incident>) {
    |a| <= |b| && forall i :: 0 <= i < |a| ==> Evolves(a[i], b[i])
  }

  lemma RowsEvolveReflexive(a: seq<Incident>)
    ensures RowsEvolve(a, a)
  {
  }

  lemma RowsEvolveTransitive(a: seq<Incident>, b: seq<Incident>, c: seq<Incident>)
    requires RowsEvolve(a, b) && RowsEvolve(b, c)
    ensures RowsEvolve(a, c)
  {
    forall i | 0 <= i < |a| ensures Evolves(a[i], c[i]) {
      assert Evolves(a[i], b[i]) && Evolves(b[i], c[i]);
    }
  }

  /** In one cycle rows only evolve, at most three are added, and the timeline
      entries grow by exactly those of the written events. */
  lemma StepEvolves(s: MonitorState, t: TickInput, c: Choices, s': MonitorState)
    requires SoundInput(t) && SoundState(s, t.now) && TickStep(s, t, c, s')
    ensures RowsEvolve(s.rows, s'.rows) && |s'.rows| <= |s.rows| + 3
    ensures Entries(s'.rows) == Entries(s.rows) + EventEntries(if Completes(t) then WrittenEvents(t, c.events) else [])
  {
    if Completes(t) {
      CycleFacts(s, t, c, s');
      var mid, checked := Reconciled(s.rows, t, c.events, c.listed), Checked(t, c.events, c.relisted);
      var ids := ToResolve(s.counts, checked, Anomalous(s'.active));
      EntriesConserved(s.rows, c.listed, WrittenEvents(t, c.events));
      MarkKeepsEntries(mid, ids, t.now, t.markFails);
      ReconcileEvolves(s.rows, c.listed, WrittenEvents(t, c.events));
      MarkEvolves(mid, s.counts, |s.rows|, checked, Anomalous(s'.active), t.now, t.markFails);
      RowsEvolveTransitive(s.rows, mid, s'.rows);
    }
  }

  lemma RowEvolves(rows: seq<Incident>, listed: seq<Incident>, events: seq<CorrelatedEvent>, i: nat)
    requires TableOk(rows) && ListsActive(listed, rows) && Known(listed, |rows|) && i < |rows|
    ensures Evolves(rows[i], ReconcileAll(rows, listed, events)[i])
  {
    ReconcileShape(rows, listed, events);
    ListedMembers(listed, rows);
    hide ListsActive, Unmatched, MatchedTimeline, ReconcileAll, NewIncident, Known;
    if rows[i].status.Resolved? {
      UnlistedUntouched(rows, listed, events, i);
    }
  }

  lemma ReconcileEvolves(rows: seq<Incident>, listed: seq<Incident>, events: seq<CorrelatedEvent>)
    requires TableOk(rows) && ListsActive(listed, rows) && Known(listed, |rows|)
    ensures RowsEvolve(rows, ReconcileAll(rows, listed, events))
  {
    hide TableOk, ListsActive, Known, ReconcileAll, Evolves;
    forall i | 0 <= i < |rows|
      ensures Evolves(rows[i], ReconcileAll(rows, listed, events)[i])
    {
      RowEvolves(rows, listed, events, i);
    }
  }

  lemma MarkEvolves(rows: seq<Incident>, counts: map<nat, nat>, n: nat, checked: seq<Incident>,
      anomalous: set<string>, at: int, failing: set<nat>)
    requires KnownCounts(counts, n) && Tracked(checked, rows)
    ensures RowsEvolve(rows, MarkAll(rows, ToResolve(counts, checked, anomalous), at, failing))
  {
    var ids := ToResolve(counts, checked, anomalous);
    forall i | 0 <= i < |rows|
      ensures Evolves(rows[i], MarkAll(rows, ids, at, failing)[i])
    {
      MarkAllAt(rows, ids, at, failing, i);
      if i + 1 in ids {
        ResolvingAreOld(counts, n, checked, rows, anomalous, i + 1);
      }
    }
  }

  lemma {:induction false} MarkKeepsEntries(rows: seq<Incident>, ids: seq<nat>, at: int, failing: set<nat>)
    ensures Entries(MarkAll(rows, ids, at, failing)) == Entries(rows)
  {
    if ids == [] {
    } else {
      var r, id := MarkAll(rows, ids[..|ids| - 1], at, failing), ids[|ids| - 1];
      MarkKeepsEntries(rows, ids[..|ids| - 1], at, failing);
      if id !in failing && 1 <= id <= |r| {
        EntriesUpdate(r, id - 1, r[id - 1].(status := Resolved, resolvedAt := Some(at)));
      }
    }
  }

  // ------------------------------------------------------- service signals

  /** Every sample of a cycle's rows is in its window when the row is tested. */
  lemma {:induction false} EntriesContain(rows: seq<ServiceRow>, r: ServiceRow, m: Metric) returns (i: nat)
    requires r in rows && (m.ErrorRate? || m.P99Latency? || m.Throughput?)
    ensures i < |AllServiceEntries(rows)|
    ensures AllServiceEntries(rows)[i] == Entry(ServiceKey(r.service, m.Name()), Sample(r.ts, Measured(r, m)))
  {
    var init, last := rows[..|rows| - 1], rows[|rows| - 1];
    if r == last {
      i := |AllServiceEntries(init)| + if m.ErrorRate? then 0 else if m.P99Latency? then 1 else 2;
    } else {
      i := EntriesContain(init, r, m);
    }
  }

  function Measured(r: ServiceRow, m: Metric): real {
    if m.ErrorRate? then r.errorRate else if m.P99Latency? then r.p99Latency else r.throughput
  }

  lemma {:induction false} ServiceEntryTimes(rows: seq<ServiceRow>, low: int, high: int)
    requires forall r :: r in rows ==> low <= r.ts <= high
    ensures forall e :: e in AllServiceEntries(rows) ==> low <= e.sample.ts <= high
  {
    if rows == [] {
    } else {
      ServiceEntryTimes(rows[..|rows| - 1], low, high);
      assert rows[|rows| - 1] in rows;
    }
  }

  lemma {:induction false} QueueEntryTimes(rows: seq<QueueRow>, low: int, high: int)
    requires forall r :: r in rows ==> low <= r.ts <= high
    ensures forall e :: e in AllQueueEntries(rows) ==> low <= e.sample.ts <= high
  {
    if rows == [] {
    } else {
      QueueEntryTimes(rows[..|rows| - 1], low, high);
      assert rows[|rows| - 1] in rows;
    }
  }

  /** All samples of one cycle are dated inside its read window. */
  lemma TickEntryTimes(t: TickInput)
    requires SoundInput(t)
    ensures forall e :: e in TickEntries(t) ==> t.now - METRIC_READ_WINDOW <= e.sample.ts <= t.now
  {
    if Reads(t) {
      ServiceEntryTimes(ServiceRows(t), t.now - METRIC_READ_WINDOW, t.now);
      QueueEntryTimes(QueueRows(t), t.now - METRIC_READ_WINDOW, t.now);
    }
  }

  lemma TestedRowInWindow(s: MonitorState, t: TickInput, r: ServiceRow, m: Metric)
    requires SoundInput(t) && Reads(t) && r in ServiceRows(t)
    requires m.ErrorRate? || m.P99Latency? || m.Throughput?
    ensures Sample(r.ts, Measured(r, m)) in WindowFor(NextWindows(s, t), ServiceKey(r.service, m.Name()))
  {
    var es := TickEntries(t);
    var i := EntriesContain(ServiceRows(t), r, m);
    TickEntryTimes(t);
    assert es[i] in es;
    forall j | i <= j < |es| && es[j].key == es[i].key
      ensures es[j].sample.ts <= es[i].sample.ts + BASELINE_WINDOW
    {
      assert es[j] in es;
    }
    RecordedStays(s.windows, es, i, BASELINE_WINDOW);
  }

  /** Since rows are added before they are tested, every detected service signal
      stands against a baseline with spread, and an error-rate or latency signal
      against at least 11 samples: a window of exactly MIN_SAMPLES never fires. */
  lemma DetectedAreUnmasked(s: MonitorState, t: TickInput, c: Choices, x: Signal)
    requires SoundInput(t) && Reads(t) && Detects(NextWindows(s, t), t, c)
    requires x in c.serviceSignals
    ensures var w := WindowFor(NextWindows(s, t), ServiceKey(x.service, x.metric.Name()));
      && w != [] && Variance(w) > 0.0
      && (x.metric.ErrorRate? || x.metric.P99Latency? ==> |w| > MIN_SAMPLES)
  {
    var i :| 0 <= i < |c.serviceSignals| && c.serviceSignals[i] == x;
    var r, m := BestServiceFires(NextWindows(s, t), ServiceRows(t), c.serviceKeys[i]);
    TestedRowInWindow(s, t, r, m);
    FiredInOwnWindow(WindowFor(NextWindows(s, t), ServiceKey(r.service, m.Name())), Sample(r.ts, Measured(r, m)), m);
  }

  lemma FiredInOwnWindow(w: seq<Sample>, x: Sample, m: Metric)
    requires x in w
    requires if m.Throughput? then Beneath(x.value, Moments(Mean(w), Variance(w)), 2.0)
             else Above(x.value, Moments(Mean(w), Variance(w)), 3.0)
    ensures Variance(w) > 0.0 && (m.Throughput? || |w| > MIN_SAMPLES)
  {
    if m.Throughput? {
      MemberCounts(w, x, BeneathTest(Moments(Mean(w), Variance(w)), 2.0));
      MaskingBeneath(w, 2.0);
    } else {
      OwnBaselineNeedsEleven(w, x);
    }
  }

  // ----------------------------------------------------------------- runs

  lemma {:induction false} ClockedInit(run: seq<TickRecord>)
    requires run != [] && Clocked(run)
    ensures Clocked(run[..|run| - 1])
  {
  }

  /** Time of the last cycle, one before the first cycle's for the empty run. */
  function Last(run: seq<TickRecord>, default: int): int {
    if run == [] then default else run[|run| - 1].input.now
  }

  /** The invariant holds after every run: distinct keys, a sound table, and
      resolved_at > started_at for every resolved incident. */
  lemma {:induction false} RunIsSound(run: seq<TickRecord>, start: int)
    requires ValidRun(run) && Clocked(run)
    requires run != [] ==> start < run[0].input.now
    ensures SoundState(FinalState(run), Last(run, start))
  {
    if run == [] {
    } else {
      var init, last := run[..|run| - 1], run[|run| - 1];
      ClockedInit(run);
      RunIsSound(init, start);
      if init != [] {
        assert run[|run| - 2].input.now < run[|run| - 1].input.now;
      }
      StepKeepsSound(FinalState(init), Last(init, start), last.input, last.choices, last.post);
    }
  }

  lemma {:induction false} BeforeLast(run: seq<TickRecord>)
    requires run != [] && ValidRun(run) && Clocked(run)
    ensures var init := run[..|run| - 1];
      ValidRun(init) && Clocked(init) && SoundState(FinalState(init), run[|run| - 1].input.now)
  {
    var init, now := run[..|run| - 1], run[|run| - 1].input.now;
    ClockedInit(run);
    var start := if init == [] then now - 1 else init[0].input.now - 1;
    RunIsSound(init, start);
    if init == [] {
    } else {
      assert run[|run| - 2].input.now < now;
    }
    SoundLater(FinalState(init), Last(init, start), now);
  }

  /** The rows after any k cycles only evolve in the rest of the run: resolved
      incidents never change or reopen, timelines only grow. */
  lemma {:induction false} RowsEvolveOverRun(run: seq<TickRecord>, k: nat)
    requires k <= |run| && ValidRun(run) && Clocked(run)
    ensures ValidRun(run[..k])
    ensures RowsEvolve(FinalState(run[..k]).rows, FinalState(run).rows)
    ensures |FinalState(run).rows| <= |FinalState(run[..k]).rows| + 3 * (|run| - k)
    decreases |run| - k
  {
    hide TickStep, RowsEvolve;
    if k == |run| {
      assert run[..k] == run;
      RowsEvolveReflexive(FinalState(run).rows);
    } else {
      RowsEvolveOverRun(run, k + 1);
      var mid := run[..k + 1];
      assert mid[..k] == run[..k];
      assert Clocked(mid);
      BeforeLast(mid);
      StepEvolves(FinalState(run[..k]), run[k].input, run[k].choices, run[k].post);
      RowsEvolveTransitive(FinalState(run[..k]).rows, FinalState(mid).rows, FinalState(run).rows);
    }
  }

  /** The events a run wrote to the incident table, in order. */
  function AllWritten(run: seq<TickRecord>): seq<CorrelatedEvent> {
    if run == [] then []
    else
      var r := run[|run| - 1];
      AllWritten(run[..|run| - 1]) + if Completes(r.input) then WrittenEvents(r.input, r.choices.events) else []
  }

  lemma {:induction false} EventEntriesConcat(a: seq<CorrelatedEvent>, b: seq<CorrelatedEvent>)
    ensures EventEntries(a + b) == EventEntries(a) + EventEntries(b)
  {
    if b == [] {
      assert a + b == a;
    } else {
      assert (a + b)[..|a + b| - 1] == a + b[..|b| - 1];
      EventEntriesConcat(a, b[..|b| - 1]);
    }
  }

  /** The timelines hold exactly as many entries as the written events had. */
  lemma {:induction false} EntriesOfRun(run: seq<TickRecord>)
    requires ValidRun(run) && Clocked(run)
    ensures Entries(FinalState(run).rows) == EventEntries(AllWritten(run))
  {
    hide TickStep;
    if run == [] {
    } else {
      var init, r := run[..|run| - 1], run[|run| - 1];
      BeforeLast(run);
      EntriesOfRun(init);
      StepEvolves(FinalState(init), r.input, r.choices, r.post);
      var written := if Completes(r.input) then WrittenEvents(r.input, r.choices.events) else [];
      EventEntriesConcat(AllWritten(init), written);
      assert AllWritten(run) == AllWritten(init) + written;
    }
  }

  // -------------------------------------------------------------- streaks

  /** The calls of Check over a run: one per completed cycle. */
  function Calls(run: seq<TickRecord>): seq<CheckCall> {
    if run == [] then []
    else
      var calls, r := Calls(run[..|run| - 1]), run[|run| - 1];
      if Completes(r.input)
      then calls + [CheckCall(Checked(r.input, r.choices.events, r.choices.relisted), Anomalous(r.post.active))]
      else calls
  }

  lemma {:induction false} CallsTrackCounts(run: seq<TickRecord>)
    requires ValidRun(run) && Clocked(run)
    ensures UniqueIds(Calls(run))
    ensures FinalState(run).counts == CountsAfter(Calls(run))
  {
    if run == [] {
    } else {
      var init, r := run[..|run| - 1], run[|run| - 1];
      BeforeLast(run);
      CallsTrackCounts(init);
      if Completes(r.input) {
        CycleFacts(FinalState(init), r.input, r.choices, r.post);
        AppendCall(Calls(init), CheckCall(Checked(r.input, r.choices.events, r.choices.relisted),
            Anomalous(r.post.active)));
      }
    }
  }

  lemma {:induction false} AppendCall(calls: seq<CheckCall>, call: CheckCall)
    requires UniqueIds(calls) && DistinctIds(call.actives)
    ensures UniqueIds(calls + [call])
    ensures CountsAfter(calls + [call]) == NextCounts(CountsAfter(calls), call.actives, call.anomalous)
  {
    assert (calls + [call])[..|calls|] == calls;
  }

  /** Over every run: the tracker counts exactly the incidents listed by its
      last check, and each count is the length of the trailing clean run. */
  lemma {:induction false} RunStreaks(run: seq<TickRecord>, id: nat)
    requires ValidRun(run) && Clocked(run)
    ensures var calls, counts := Calls(run), FinalState(run).counts;
      && (id in counts <==> calls != [] && Listed(calls[|calls| - 1].actives, id))
      && CountOf(counts, id) == Streak(calls, id)
  {
    CallsTrackCounts(run);
    CountsAreStreaks(Calls(run), id);
  }

  /** The last cycle of a run tries to resolve an id exactly when its clean run
      has reached two checks. */
  lemma {:induction false} RunResolves(run: seq<TickRecord>, id: nat)
    requires run != [] && ValidRun(run) && Clocked(run) && Completes(run[|run| - 1].input)
    ensures var s, r := FinalState(run[..|run| - 1]), run[|run| - 1];
      id in ToResolve(s.counts, Checked(r.input, r.choices.events, r.choices.relisted), Anomalous(r.post.active))
      <==> Streak(Calls(run), id) >= RESOLUTION_REQUIRED
  {
    BeforeLast(run);
    CallsTrackCounts(run);
    CallsTrackCounts(run[..|run| - 1]);
    var calls := Calls(run[..|run| - 1]);
    assert Calls(run)[..|calls|] == calls;
    ReturnedIffStreak(Calls(run), id);
  }

  // ------------------------------------------------------------- staleness

  /** Every sample a run added to the baselines, in order. */
  function AllEntries(run: seq<TickRecord>): seq<Entry> {
    if run == [] then [] else AllEntries(run[..|run| - 1]) + TickEntries(run[|run| - 1].input)
  }

  lemma {:induction false} WindowsOfRun(run: seq<TickRecord>)
    requires ValidRun(run)
    ensures FinalState(run).windows == RecordAll(map[], AllEntries(run), BASELINE_WINDOW)
  {
    if run == [] {
    } else {
      var init, r := run[..|run| - 1], run[|run| - 1];
      WindowsOfRun(init);
      RecordAllConcat(map[], AllEntries(init), TickEntries(r.input), BASELINE_WINDOW);
    }
  }

  lemma {:induction false} EntriesNearlyOrdered(run: seq<TickRecord>)
    requires Clocked(run)
    ensures forall i, j :: 0 <= i < j < |AllEntries(run)| ==>
      AllEntries(run)[j].sample.ts >= AllEntries(run)[i].sample.ts - METRIC_READ_WINDOW
    ensures run != [] ==> forall e :: e in AllEntries(run) ==> e.sample.ts <= run[|run| - 1].input.now
    ensures run == [] ==> AllEntries(run) == []
  {
    if run == [] {
    } else {
      var init, t := run[..|run| - 1], run[|run| - 1].input;
      ClockedInit(run);
      EntriesNearlyOrdered(init);
      TickEntryTimes(t);
      var a: seq<Entry>, b: seq<Entry> := AllEntries(init), TickEntries(t);
      var all: seq<Entry> := a + b;
      if init != [] {
        assert run[|run| - 2].input.now < t.now;
      }
      forall i, j | 0 <= i < j < |all|
        ensures all[j].sample.ts >= all[i].sample.ts - METRIC_READ_WINDOW
      {
        if j >= |a| {
          assert b[j - |a|] in b;
          assert i < |a| ==> a[i] in a;
          assert i >= |a| ==> b[i - |a|] in b;
        }
      }
    }
  }

  lemma {:induction false} SamplesNearlyOrdered(es: seq<Entry>, key: string, slack: nat)
    requires forall i, j :: 0 <= i < j < |es| ==> es[j].sample.ts >= es[i].sample.ts - slack
    ensures NearlyOrdered(SamplesFor(es, key), slack)
    ensures forall x :: x in SamplesFor(es, key) ==> exists i :: 0 <= i < |es| && es[i].sample == x
  {
    if es == [] {
    } else {
      var init, e := es[..|es| - 1], es[|es| - 1];
      SamplesNearlyOrdered(init, key, slack);
      var xs := SamplesFor(init, key);
      forall x | x in xs
        ensures e.sample.ts >= x.ts - slack && exists i :: 0 <= i < |es| && es[i].sample == x
      {
        var i :| 0 <= i < |init| && init[i].sample == x;
        assert es[i].sample == x;
      }
    }
  }

  /** After every run, for every key: the window is a non-empty suffix of all
      samples added for it, and although rows are re-read by later cycles no
      retained sample is more than 90 s older than the last one added. */
  lemma {:induction false} RunStaleness(run: seq<TickRecord>, key: string)
    requires ValidRun(run) && Clocked(run)
    ensures var xs, w := SamplesFor(AllEntries(run), key), WindowFor(FinalState(run).windows, key);
      && (xs == [] <==> w == [])
      && IsSuffix(w, xs)
      && forall x :: x in w ==> x.ts >= xs[|xs| - 1].ts - 90000
  {
    var xs := SamplesFor(AllEntries(run), key);
    WindowsOfRun(run);
    WindowOfKey(AllEntries(run), key, BASELINE_WINDOW);
    EntriesNearlyOrdered(run);
    SamplesNearlyOrdered(AllEntries(run), key, METRIC_READ_WINDOW);
    if xs == [] {
    } else {
      PushAllIsSuffix(xs, BASELINE_WINDOW);
      BoundedStaleness(xs, BASELINE_WINDOW, METRIC_READ_WINDOW);
    }
  }

  /** And a sample stays while none of its key that came later is over 60 s younger. */
  lemma RunKeepsRecent(run: seq<TickRecord>, i: nat)
    requires ValidRun(run) && i < |AllEntries(run)|
    requires var es := AllEntries(run);
      forall j :: i <= j < |es| && es[j].key == es[i].key ==> es[j].sample.ts <= es[i].sample.ts + 60000
    ensures AllEntries(run)[i].sample in WindowFor(FinalState(run).windows, AllEntries(run)[i].key)
  {
    hide TickStep;
    WindowsOfRun(run);
    RecordedStays(map[], AllEntries(run), i, BASELINE_WINDOW);
  }

  // ----------------------------------------------------- one per key

  /** No key occurs twice among a batch's written events. */
  ghost predicate DistinctBatch(events: seq<CorrelatedEvent>) {
    forall key :: Count(events, WithEventKey(key)) <= 1
  }

  lemma {:induction false} MarkKeepsAtMostOne(rows: seq<Incident>, ids: seq<nat>, at: int, failing: set<nat>, key: Key)
    ensures ActiveCount(MarkAll(rows, ids, at, failing), key) <= ActiveCount(rows, key)
  {
    if ids == [] {
    } else {
      var r, id := MarkAll(rows, ids[..|ids| - 1], at, failing), ids[|ids| - 1];
      MarkKeepsAtMostOne(rows, ids[..|ids| - 1], at, failing, key);
      if id !in failing && 1 <= id <= |r| {
        CountUpdate(r, id - 1, r[id - 1].(status := Resolved, resolvedAt := Some(at)), ActiveWith(key));
      }
    }
  }

  /** "At most one active incident per (root, fault type)" holds throughout any
      run whose batches have distinct keys. */
  lemma {:induction false} RunAtMostOne(run: seq<TickRecord>)
    requires ValidRun(run) && Clocked(run)
    requires forall k :: 0 <= k < |run| && Completes(run[k].input) ==>
      DistinctBatch(WrittenEvents(run[k].input, run[k].choices.events))
    ensures AtMostOnePerKey(FinalState(run).rows)
  {
    if run == [] {
    } else {
      var init, r := run[..|run| - 1], run[|run| - 1];
      BeforeLast(run);
      RunAtMostOne(init);
      var s := FinalState(init);
      if Completes(r.input) {
        assert r == run[|run| - 1];
        var events := WrittenEvents(r.input, r.choices.events);
        var mid := ReconcileAll(s.rows, r.choices.listed, events);
        AtMostOneKept(s.rows, r.choices.listed, events);
        forall key
          ensures ActiveCount(r.post.rows, key) <= 1
        {
          assert ActiveCount(mid, key) <= 1;
          MarkKeepsAtMostOne(mid, ToResolve(s.counts, Checked(r.input, r.choices.events, r.choices.relisted),
              Anomalous(r.post.active)),
            r.input.now, r.input.markFails, key);
        }
      }
    }
  }
}
