/** One polling cycle, as a relation on values and as a method on objects. */
module Monitor {
  import opened Sequences
  import opened Signals
  import opened Detection
  import opened Answers
  import opened Detectors
  import opened ActiveSignals
  import opened Correlation
  import opened Incidents
  import opened Resolution

  const METRIC_READ_WINDOW: nat := 30000
  const BASELINE_WINDOW: nat := 60000
  const FAULT_READ_WINDOW: nat := 10000

  /** Everything the monitor remembers between cycles. */
  datatype MonitorState = MonitorState(
    windows: Windows, active: seq<Signal>, rows: seq<Incident>, counts: map<nat, nat>)

  const INITIAL: MonitorState := MonitorState(map[], [], [], map[])

  /** What one cycle meets: the clock, the three tables (None: the query
      fails), and which writes to the incident table fail. */
  datatype TickInput = TickInput(
    now: int, services: Option<seq<ServiceRow>>, queues: Option<seq<QueueRow>>, faults: Option<seq<FaultEvent>>,
    fault: DbFault, markFails: set<nat>)

  /** The choices the program leaves open: map iteration, sort and query order. */
  datatype Choices = Choices(
    serviceSignals: seq<Signal>, serviceKeys: seq<string>, queueSignals: seq<Signal>, queueKeys: seq<string>,
    sorted: seq<Signal>, events: seq<CorrelatedEvent>, listed: seq<Incident>, relisted: seq<Incident>)

  // -------------------------------------------------------------- queries

  function ServiceSince(cutoff: int): ServiceRow -> bool { (r: ServiceRow) => r.ts >= cutoff }
  function QueueSince(cutoff: int): QueueRow -> bool { (r: QueueRow) => r.ts >= cutoff }
  function FaultSince(cutoff: int): FaultEvent -> bool { (f: FaultEvent) => f.ts >= cutoff }

  function ServiceRows(t: TickInput): seq<ServiceRow>
    requires t.services.Some?
  {
    Filter(t.services.value, ServiceSince(t.now - METRIC_READ_WINDOW))
  }

  function QueueRows(t: TickInput): seq<QueueRow>
    requires t.queues.Some?
  {
    Filter(t.queues.value, QueueSince(t.now - METRIC_READ_WINDOW))
  }

  function FaultRows(t: TickInput): seq<FaultEvent>
    requires t.faults.Some?
  {
    Filter(t.faults.value, FaultSince(t.now - FAULT_READ_WINDOW))
  }

  predicate Reads(t: TickInput) { t.services.Some? && t.queues.Some? }

  /** The samples a cycle adds to the baselines, in order. */
  function TickEntries(t: TickInput): seq<Entry> {
    if Reads(t) then AllServiceEntries(ServiceRows(t)) + AllQueueEntries(QueueRows(t)) else []
  }

  // ----------------------------------------------------------------- step

  function NextWindows(s: MonitorState, t: TickInput): Windows {
    RecordAll(s.windows, TickEntries(t), BASELINE_WINDOW)
  }

  /** Detection runs against baselines that already hold the tested rows. */
  ghost predicate Detects(windows: Windows, t: TickInput, c: Choices)
    requires Reads(t)
  {
    && Lists(c.serviceSignals, BestService(windows, ServiceRows(t)), c.serviceKeys)
    && Lists(c.queueSignals, BestQueue(windows, QueueRows(t)), c.queueKeys)
  }

  function NextActive(s: MonitorState, t: TickInput, c: Choices): seq<Signal> {
    Updated(s.active, t.now, c.serviceSignals + c.queueSignals)
  }

  lemma NextActiveIs(s: MonitorState, t: TickInput, c: Choices)
    ensures NextActive(s, t, c) == Updated(s.active, t.now, c.serviceSignals + c.queueSignals)
  {
  }

  /** The events whose writes took effect. */
  function WrittenEvents(t: TickInput, events: seq<CorrelatedEvent>): seq<CorrelatedEvent> {
    events[..Written(t.fault, |events|)]
  }

  /** The incidents handed to the tracker: none after a failed reconcile. */
  function Checked(t: TickInput, events: seq<CorrelatedEvent>, relisted: seq<Incident>): seq<Incident> {
    if Succeeds(t.fault, |events|) then relisted else []
  }

  /** The table between the reconcile and the resolutions. */
  function Reconciled(rows: seq<Incident>, t: TickInput, events: seq<CorrelatedEvent>,
      listed: seq<Incident>): seq<Incident>
    requires Known(listed, |rows|)
  {
    ReconcileAll(rows, listed, WrittenEvents(t, events))
  }

  /** What the two queries for active incidents return. */
  ghost predicate Queried(rows: seq<Incident>, t: TickInput, events: seq<CorrelatedEvent>, listed: seq<Incident>,
      relisted: seq<Incident>) {
    && ListsActive(listed, rows) && Known(listed, |rows|)
    && (Succeeds(t.fault, |events|) ==> ListsActive(relisted, Reconciled(rows, t, events, listed)))
  }

  /** Reconcile, check, resolve: the part of a cycle after correlation. */
  ghost predicate Settles(s: MonitorState, active: seq<Signal>, t: TickInput, c: Choices, s': MonitorState) {
    && Queried(s.rows, t, c.events, c.listed, c.relisted)
    && var checked := Checked(t, c.events, c.relisted);
    && s'.counts == NextCounts(s.counts, checked, Anomalous(active))
    && s'.rows == MarkAll(Reconciled(s.rows, t, c.events, c.listed), ToResolve(s.counts, checked, Anomalous(active)),
        t.now, t.markFails)
  }

  /** One cycle, with its early returns. */
  ghost predicate TickStep(s: MonitorState, t: TickInput, c: Choices, s': MonitorState) {
    if !Reads(t) then s' == s
    else
      var active := NextActive(s, t, c);
      && Detects(NextWindows(s, t), t, c)
      && s'.windows == NextWindows(s, t)
      && s'.active == active
      && if t.faults.None? then s'.rows == s.rows && s'.counts == s.counts
         else Correlates(active, c.sorted, FaultRows(t), c.events) && Settles(s, active, t, c, s')
  }

  /** A cycle whose queries all succeed, from its parts. */
  lemma FullStep(s: MonitorState, t: TickInput, c: Choices, sorted: seq<Signal>, events: seq<CorrelatedEvent>,
                 listed: seq<Incident>, checked: seq<Incident>, s': MonitorState)
    requires Reads(t) && t.faults.Some? && Detects(NextWindows(s, t), t, c)
    requires s'.windows == NextWindows(s, t) && s'.active == NextActive(s, t, c)
    requires Correlates(s'.active, sorted, FaultRows(t), events)
    requires Queried(s.rows, t, events, listed, checked) && checked == Checked(t, events, checked)
    requires s'.counts == NextCounts(s.counts, checked, Anomalous(s'.active))
    requires s'.rows == MarkAll(Reconciled(s.rows, t, events, listed),
        ToResolve(s.counts, checked, Anomalous(s'.active)), t.now, t.markFails)
    ensures TickStep(s, t, c.(sorted := sorted, events := events, listed := listed, relisted := checked), s')
  {
  }

  // ----------------------------------------------------------------- runs

  datatype TickRecord = TickRecord(input: TickInput, choices: Choices, post: MonitorState)

  function FinalState(run: seq<TickRecord>): MonitorState {
    if run == [] then INITIAL else run[|run| - 1].post
  }

  /** A run from the initial state: each cycle starts where the last ended. */
  ghost predicate ValidRun(run: seq<TickRecord>) {
    run == [] ||
    var init, last := run[..|run| - 1], run[|run| - 1];
    ValidRun(init) && TickStep(FinalState(init), last.input, last.choices, last.post)
  }

  lemma ExtendRun(run: seq<TickRecord>, r: TickRecord)
    requires ValidRun(run) && TickStep(FinalState(run), r.input, r.choices, r.post)
    ensures ValidRun(run + [r]) && FinalState(run + [r]) == r.post
    ensures (run + [r])[..|run|] == run
  {
    hide TickStep;
    assert (run + [r])[..|run|] == run;
  }

  // --------------------------------------------------------------- object

  class Poller {
    const baselines: Baselines
    const correlator: Correlator
    const store: IncidentStore
    const resolver: ResolutionTracker
    ghost var history: seq<TickRecord>

    ghost function Owned(): set<object>
      reads this, baselines, correlator
    {
      {this, baselines, correlator, correlator.buf, store, resolver} + baselines.data.Values
    }

    ghost predicate Parts()
      reads this, Owned()
    {
      baselines.Valid() && baselines.window == BASELINE_WINDOW && correlator.Valid() && store.Valid()
    }

    ghost function State(): MonitorState
      requires Parts()
      reads this, Owned()
    {
      MonitorState(baselines.Contents(), correlator.Active(), store.rows, resolver.counts)
    }

    /** The objects hold exactly what a valid run of cycles leads to. */
    ghost predicate Valid()
      reads this, Owned()
    {
      Parts() && ValidRun(history) && State() == FinalState(history)
    }

    constructor ()
      ensures Valid() && history == []
    {
      baselines := new Baselines(BASELINE_WINDOW);
      correlator := new Correlator();
      store := new IncidentStore();
      resolver := new ResolutionTracker();
      history := [];
    }

    method AddServiceRow(r: ServiceRow)
      requires baselines.Valid() && baselines.window == BASELINE_WINDOW
      modifies baselines, baselines.data.Values
      ensures baselines.Valid() && fresh(baselines.data.Values - old(baselines.data.Values))
      ensures baselines.Contents() == RecordAll(old(baselines.Contents()), ServiceEntries(r), BASELINE_WINDOW)
    {
      hide RecordAll;
      RecordRow(baselines.Contents(), r);
      baselines.AddServiceMetric(r.ts, r.service, ErrorRate, r.errorRate);
      baselines.AddServiceMetric(r.ts, r.service, P99Latency, r.p99Latency);
      baselines.AddServiceMetric(r.ts, r.service, Throughput, r.throughput);
    }

    method AddServiceRows(rows: seq<ServiceRow>)
      requires baselines.Valid() && baselines.window == BASELINE_WINDOW
      modifies baselines, baselines.data.Values
      ensures baselines.Valid() && fresh(baselines.data.Values - old(baselines.data.Values))
      ensures baselines.Contents() == RecordAll(old(baselines.Contents()), AllServiceEntries(rows), BASELINE_WINDOW)
    {
      ghost var before := baselines.Contents();
      assert RecordAll(before, AllServiceEntries(rows[..0]), BASELINE_WINDOW) == before;
      hide RecordAll, AllServiceEntries, ServiceEntries;
      for i := 0 to |rows|
        invariant baselines.Valid() && fresh(baselines.data.Values - old(baselines.data.Values))
        invariant baselines.Contents() == RecordAll(before, AllServiceEntries(rows[..i]), BASELINE_WINDOW)
      {
        RecordAllConcat(before, AllServiceEntries(rows[..i]), ServiceEntries(rows[i]), BASELINE_WINDOW);
        AllServiceSnoc(rows, i);
        AddServiceRow(rows[i]);
      }
      assert rows[..|rows|] == rows;
    }

    method AddQueueRows(rows: seq<QueueRow>)
      requires baselines.Valid() && baselines.window == BASELINE_WINDOW
      modifies baselines, baselines.data.Values
      ensures baselines.Valid() && fresh(baselines.data.Values - old(baselines.data.Values))
      ensures baselines.Contents() == RecordAll(old(baselines.Contents()), AllQueueEntries(rows), BASELINE_WINDOW)
    {
      ghost var before := baselines.Contents();
      for i := 0 to |rows|
        invariant baselines.Valid() && fresh(baselines.data.Values - old(baselines.data.Values))
        invariant baselines.Contents() == RecordAll(before, AllQueueEntries(rows[..i]), BASELINE_WINDOW)
      {
        ghost var es := AllQueueEntries(rows[..i]);
        assert (es + [QueueEntry(rows[i])])[..|es|] == es;
        assert rows[..i + 1][..i] == rows[..i];
        baselines.AddQueueMetric(rows[i].ts, rows[i].queue, rows[i].depth);
      }
      assert rows[..|rows|] == rows;
    }

    /** Resolves the returned ids; a failing update is logged and skipped. */
    method MarkAllResolved(ids: seq<nat>, now: int, fails: set<nat>)
      requires store.Valid()
      modifies store
      ensures store.Valid() && store.rows == MarkAll(old(store.rows), ids, now, fails)
    {
      for i := 0 to |ids|
        invariant store.Valid() && store.rows == MarkAll(old(store.rows), ids[..i], now, fails)
      {
        assert ids[..i + 1][..i] == ids[..i];
        if ids[i] !in fails {
          store.SetResolved(ids[i], now);
        }
      }
      assert ids[..|ids|] == ids;
    }

    /** Baselines, then detection: phases 2 and 3 of a cycle. */
    method Observe(t: TickInput, ghost s: MonitorState) returns (signals: seq<Signal>, ghost c: Choices)
      requires baselines.Valid() && baselines.window == BASELINE_WINDOW && s.windows == baselines.Contents()
      requires Reads(t)
      modifies baselines, baselines.data.Values
      ensures baselines.Valid() && fresh(baselines.data.Values - old(baselines.data.Values))
      ensures baselines.Contents() == NextWindows(s, t)
      ensures Detects(NextWindows(s, t), t, c) && signals == c.serviceSignals + c.queueSignals
    {
      var serviceRows := Filter(t.services.value, ServiceSince(t.now - METRIC_READ_WINDOW));
      var queueRows := Filter(t.queues.value, QueueSince(t.now - METRIC_READ_WINDOW));
      Learn(serviceRows, queueRows, t, s);
      signals, c := Detect(serviceRows, queueRows, t, NextWindows(s, t));
    }

    method Learn(serviceRows: seq<ServiceRow>, queueRows: seq<QueueRow>, ghost t: TickInput, ghost s: MonitorState)
      requires baselines.Valid() && baselines.window == BASELINE_WINDOW && s.windows == baselines.Contents()
      requires Reads(t) && serviceRows == ServiceRows(t) && queueRows == QueueRows(t)
      modifies baselines, baselines.data.Values
      ensures baselines.Valid() && fresh(baselines.data.Values - old(baselines.data.Values))
      ensures baselines.Contents() == NextWindows(s, t)
    {
      RecordAllConcat(s.windows, AllServiceEntries(serviceRows), AllQueueEntries(queueRows), BASELINE_WINDOW);
      AddServiceRows(serviceRows);
      AddQueueRows(queueRows);
    }

    method Detect(serviceRows: seq<ServiceRow>, queueRows: seq<QueueRow>, ghost t: TickInput, ghost windows: Windows)
      returns (signals: seq<Signal>, ghost c: Choices)
      requires baselines.Valid() && windows == baselines.Contents()
      requires Reads(t) && serviceRows == ServiceRows(t) && queueRows == QueueRows(t)
      ensures Detects(windows, t, c) && signals == c.serviceSignals + c.queueSignals
    {
      hide ServiceAnswer, QueueAnswer, Lists, Listing;
      var serviceSignals, sk := DetectServiceAnomalies(serviceRows, baselines);
      var queueSignals, qk := DetectQueueAnomalies(queueRows, baselines);
      signals := serviceSignals + queueSignals;
      c := Choices(serviceSignals, sk, queueSignals, qk, [], [], [], []);
    }

    /** The tracker's check, then the resolutions it asks for: phase 6. */
    method Resolve(checked: seq<Incident>, t: TickInput, ghost rows: seq<Incident>, ghost counts: map<nat, nat>)
      requires correlator.Valid() && store.Valid() && rows == store.rows && counts == resolver.counts
      modifies store, resolver
      ensures store.Valid()
      ensures resolver.counts == NextCounts(counts, checked, Anomalous(correlator.Active()))
      ensures store.rows == MarkAll(rows, ToResolve(counts, checked, Anomalous(correlator.Active())), t.now,
          t.markFails)
    {
      var signals := correlator.ActiveSignals();
      var toResolve := resolver.Check(checked, signals);
      MarkAllResolved(toResolve, t.now, t.markFails);
    }

    /** The reconcile: phase 5. After an error the list of actives is empty. */
    method Reconcile(events: seq<CorrelatedEvent>, t: TickInput, ghost rows: seq<Incident>)
      returns (checked: seq<Incident>, ghost listed: seq<Incident>)
      requires store.Valid() && rows == store.rows
      modifies store
      ensures store.Valid()
      ensures Queried(rows, t, events, listed, checked)
      ensures checked == Checked(t, events, checked)
      ensures store.rows == Reconciled(rows, t, events, listed)
    {
      var actives;
      actives, listed := store.Reconcile(events, t.fault);
      checked := if actives.Some? then actives.value else [];
    }

    /** Everything up to the active set: phases 2 to 4 of a cycle. */
    method Watch(t: TickInput, ghost s: MonitorState) returns (ghost c: Choices)
      requires baselines.Valid() && baselines.window == BASELINE_WINDOW && s.windows == baselines.Contents()
      requires correlator.Valid() && s.active == correlator.Active()
      requires Reads(t)
      modifies baselines, baselines.data.Values, correlator, correlator.buf
      ensures baselines.Valid() && fresh(baselines.data.Values - old(baselines.data.Values))
      ensures correlator.Valid() && (correlator.buf == old(correlator.buf) || fresh(correlator.buf))
      ensures baselines.Contents() == NextWindows(s, t)
      ensures Detects(NextWindows(s, t), t, c)
      ensures correlator.Active() == NextActive(s, t, c)
    {
      hide Detects, NextWindows, NextActive, Updated;
      var signals;
      signals, c := Observe(t, s);
      NextActiveIs(s, t, c);
      correlator.AddSignals(t.now, signals);
    }

    /** Incidents and resolutions: phases 5 and 6 of a cycle. */
    method Settle(t: TickInput, events: seq<CorrelatedEvent>, ghost active: seq<Signal>, ghost rows: seq<Incident>,
        ghost counts: map<nat, nat>)
      returns (ghost listed: seq<Incident>, checked: seq<Incident>)
      requires correlator.Valid() && store.Valid()
      requires rows == store.rows && counts == resolver.counts && active == correlator.Active()
      modifies store, resolver
      ensures store.Valid()
      ensures Queried(rows, t, events, listed, checked) && checked == Checked(t, events, checked)
      ensures resolver.counts == NextCounts(counts, checked, Anomalous(active))
      ensures store.rows == MarkAll(Reconciled(rows, t, events, listed),
          ToResolve(counts, checked, Anomalous(active)), t.now, t.markFails)
    {
      checked, listed := Reconcile(events, t, rows);
      Resolve(checked, t, store.rows, counts);
    }

    /** Correlation, then incidents and resolutions: phases 4 to 6. */
    method Conclude(t: TickInput, faults: seq<FaultEvent>, ghost active: seq<Signal>, ghost rows: seq<Incident>,
        ghost counts: map<nat, nat>)
      returns (ghost sorted: seq<Signal>, events: seq<CorrelatedEvent>, ghost listed: seq<Incident>,
          checked: seq<Incident>)
      requires correlator.Valid() && store.Valid()
      requires rows == store.rows && counts == resolver.counts && active == correlator.Active()
      modifies store, resolver
      ensures store.Valid()
      ensures Correlates(active, sorted, faults, events)
      ensures Queried(rows, t, events, listed, checked) && checked == Checked(t, events, checked)
      ensures resolver.counts == NextCounts(counts, checked, Anomalous(active))
      ensures store.rows == MarkAll(Reconciled(rows, t, events, listed),
          ToResolve(counts, checked, Anomalous(active)), t.now, t.markFails)
    {
      events, sorted := correlator.Correlate(faults);
      listed, checked := Settle(t, events, active, rows, counts);
    }

    method QueryFaults(t: TickInput) returns (faults: seq<FaultEvent>)
      requires t.faults.Some?
      ensures faults == FaultRows(t)
    {
      faults := Filter(t.faults.value, FaultSince(t.now - FAULT_READ_WINDOW));
    }

    /** A cycle whose queries all succeed. */
    method FullCycle(t: TickInput, ghost s: MonitorState) returns (ghost c: Choices, ghost s': MonitorState)
      requires baselines.Valid() && baselines.window == BASELINE_WINDOW && s.windows == baselines.Contents()
      requires correlator.Valid() && s.active == correlator.Active()
      requires store.Valid() && s.rows == store.rows && s.counts == resolver.counts
      requires Reads(t) && t.faults.Some?
      modifies baselines, baselines.data.Values, correlator, correlator.buf, store, resolver
      ensures baselines.Valid() && s'.windows == baselines.Contents()
      ensures correlator.Valid() && s'.active == correlator.Active()
      ensures store.Valid() && s'.rows == store.rows && s'.counts == resolver.counts
      ensures TickStep(s, t, c, s')
    {
      hide *;
      var faults := QueryFaults(t);
      c := Watch(t, s);
      ghost var windows, active := NextWindows(s, t), NextActive(s, t, c);
      ghost var sorted, listed;
      var events, checked;
      sorted, events, listed, checked := Conclude(t, faults, active, s.rows, s.counts);
      s' := MonitorState(windows, active, store.rows, resolver.counts);
      FullStep(s, t, c, sorted, events, listed, checked, s');
      c := c.(sorted := sorted, events := events, listed := listed, relisted := checked);
    }

    /** One cycle, with its early returns, without the history. */
    method Cycle(t: TickInput, ghost s: MonitorState) returns (ghost c: Choices, ghost s': MonitorState)
      requires Parts() && s == State()
      modifies baselines, baselines.data.Values, correlator, correlator.buf, store, resolver
      ensures Parts() && s' == State()
      ensures TickStep(s, t, c, s')
    {
      c, s' := Choices([], [], [], [], [], [], [], []), s;
      if t.services.None? || t.queues.None? {
        return;
      }
      if t.faults.None? {
        c := Watch(t, s);
        s' := State();
      } else {
        c, s' := FullCycle(t, s);
      }
    }

    /** Extends the history by the cycle; Valid says the extension is a step. */
    method Tick(t: TickInput)
      requires Valid()
      modifies this`history, baselines, baselines.data.Values, correlator, correlator.buf, store, resolver
      ensures Valid()
      ensures |history| == |old(history)| + 1 && history[..|old(history)|] == old(history)
      ensures history[|old(history)|].input == t
    {
      hide ValidRun, FinalState, TickStep;
      ghost var c, s' := Cycle(t, FinalState(history));
      ExtendRun(history, TickRecord(t, c, s'));
      history := history + [TickRecord(t, c, s')];
    }
  }

  lemma AllServiceSnoc(rows: seq<ServiceRow>, i: nat)
    requires i < |rows|
    ensures AllServiceEntries(rows[..i + 1]) == AllServiceEntries(rows[..i]) + ServiceEntries(rows[i])
  {
    assert rows[..i + 1][..i] == rows[..i];
  }

  lemma RecordAllSnoc(c: Windows, es: seq<Entry>, e: Entry)
    ensures RecordAll(c, es + [e], BASELINE_WINDOW) == Record(RecordAll(c, es, BASELINE_WINDOW), e, BASELINE_WINDOW)
  {
    assert (es + [e])[..|es|] == es;
  }

  lemma RecordRow(c: Windows, r: ServiceRow)
    ensures var es := ServiceEntries(r);
      RecordAll(c, es, BASELINE_WINDOW)
      == Record(Record(Record(c, es[0], BASELINE_WINDOW), es[1], BASELINE_WINDOW), es[2], BASELINE_WINDOW)
  {
    var es := ServiceEntries(r);
    RecordAllSnoc(c, [], es[0]);
    RecordAllSnoc(c, [es[0]], es[1]);
    RecordAllSnoc(c, [es[0], es[1]], es[2]);
    assert [] + [es[0]] == [es[0]] && [es[0]] + [es[1]] == [es[0], es[1]] && [es[0], es[1]] + [es[2]] == es;
  }
}
