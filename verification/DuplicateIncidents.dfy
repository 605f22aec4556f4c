/** One cycle, from an empty monitor, that leaves two active incidents with the
    same root service and fault type: a letter on payment-dlq, and 20 s later a
    spike of payment's errors and latency. */
module DuplicateIncidents {
  import opened Sequences
  import opened Signals
  import opened Statistics
  import opened Detection
  import opened ActiveSignals
  import opened Correlation
  import opened Incidents
  import opened Resolution
  import opened Monitor
  import opened MonitorRuns
  import opened Spikes
  import opened Sorting

  const LETTER: QueueRow := QueueRow(0, "payment-dlq", 1.0, true)

  const SPIKE: ServiceRow := ServiceRow(20000, "payment", 1.0, 1.0, 1000.0)

  /** Payment writes a row every 2 s; all is calm before the last. */
  function Calm(n: nat): (rows: seq<ServiceRow>)
    ensures |rows| == n && forall k :: 0 <= k < n ==> rows[k] == ServiceRow(2000 * k, "payment", 1.0, 0.0, 100.0)
  {
    if n == 0 then [] else Calm(n - 1) + [ServiceRow(2000 * (n - 1), "payment", 1.0, 0.0, 100.0)]
  }

  const ROWS: seq<ServiceRow> := Calm(10) + [SPIKE]

  const INPUT: TickInput := TickInput(20000, Some(ROWS), Some([LETTER]), Some([]), NoFault, {})

  const LETTER_SIGNAL: Signal := Signal(0, "", "payment-dlq", DlqDepth, 1.0, 0.0, SignedSquare(1.0), High)

  const SPIKES: seq<Signal> := [ErrorSpike(SPIKE), LatencySpike(SPIKE)]
  const ACTIVE: seq<Signal> := SPIKES + [LETTER_SIGNAL]
  const GROUPS: seq<seq<Signal>> := [[LETTER_SIGNAL], SPIKES]

  /** The event that a group rooted at payment becomes. */
  function EventOf(group: seq<Signal>): CorrelatedEvent
    requires group != []
  {
    var ts, cause := group[0].ts, RootCause("payment", group, "");
    CorrelatedEvent(ts, "payment", cause, "", ["payment"], group, [TimelineEvent(ts, "anomaly detected: " + cause)])
  }

  const EVENTS: seq<CorrelatedEvent> := [EventOf(GROUPS[0]), EventOf(GROUPS[1])]

  const CREATED: seq<Incident> := [NewIncident(1, EVENTS[0]), NewIncident(2, EVENTS[1])]

  const RELISTED: seq<Incident> := [CREATED[1], CREATED[0]]

  const CHOICES: Choices := Choices(
    SPIKES, [BestKey("payment", ErrorRate), BestKey("payment", P99Latency)],
    [LETTER_SIGNAL], [BestKey("payment-dlq", DlqDepth)],
    [LETTER_SIGNAL] + SPIKES, EVENTS, [], RELISTED)

  function Post(): MonitorState {
    MonitorState(NextWindows(INITIAL, INPUT), ACTIVE, CREATED, NextCounts(map[], RELISTED, Anomalous(ACTIVE)))
  }

  function Run(): seq<TickRecord> { [TickRecord(INPUT, CHOICES, Post())] }

  // ------------------------------------------------------------ detection

  lemma {:induction false} FilterAll<T>(s: seq<T>, keep: T -> bool)
    requires forall x :: x in s ==> keep(x)
    ensures Filter(s, keep) == s
  {
    if s == [] {
    } else {
      assert s == s[..|s| - 1] + [s[|s| - 1]];
      FilterAll(s[..|s| - 1], keep);
    }
  }

  lemma Rows()
    ensures SpikedRows(ROWS, "payment") && ROWS[10] == SPIKE
    ensures ServiceRows(INPUT) == ROWS && QueueRows(INPUT) == [LETTER] && FaultRows(INPUT) == []
    ensures SoundInput(INPUT)
  {
    FilterAll(ROWS, ServiceSince(INPUT.now - METRIC_READ_WINDOW));
    FilterAll([LETTER], QueueSince(INPUT.now - METRIC_READ_WINDOW));
  }

  lemma LetterDetected(w: Windows)
    ensures BestQueue(w, [LETTER]) == map[BestKey("payment-dlq", DlqDepth) := LETTER_SIGNAL]
  {
    assert QueueCheck(w, LETTER) == Some(LETTER_SIGNAL);
    assert [LETTER][..0] == [];
    hide QueueCheck, BestKey;
  }

  lemma WindowsAre()
    ensures NextWindows(INITIAL, INPUT) == WindowsAfter(ROWS, [LETTER])
  {
    Rows();
    assert BASELINE_WINDOW == 60000;
    hide RecordAll, AllServiceEntries, AllQueueEntries, ServiceRows, QueueRows;
  }

  lemma ListsOne(x: Signal, k: string)
    ensures Lists([x], map[k := x], [k])
  {
  }

  lemma ListsTwo(x: Signal, y: Signal, k: string, l: string)
    requires k != l
    ensures Lists([x, y], map[k := x, l := y], [k, l])
  {
  }

  lemma Detected()
    ensures Detects(NextWindows(INITIAL, INPUT), INPUT, CHOICES)
  {
    hide BestService, BestQueue, BestKey, NextWindows, WindowsAfter, ServiceRows, QueueRows, SpikedRows, ErrorSpike,
      LatencySpike, Lists;
    Rows();
    WindowsAre();
    SpikeDetected(ROWS, [LETTER], "payment");
    LetterDetected(NextWindows(INITIAL, INPUT));
    ListsOne(LETTER_SIGNAL, BestKey("payment-dlq", DlqDepth));
    ListsTwo(SPIKES[0], SPIKES[1], BestKey("payment", ErrorRate), BestKey("payment", P99Latency));
  }

  lemma Merged()
    ensures NextActive(INITIAL, INPUT, CHOICES) == ACTIVE
  {
    assert Prune([], INPUT.now - SIGNAL_WINDOW) == [];
    OneSidedKeys(SPIKES[0], SPIKES[1]);
    OneSidedKeys(SPIKES[0], LETTER_SIGNAL);
    OneSidedKeys(SPIKES[1], LETTER_SIGNAL);
    hide SignalKey, SignedSquare, Prune, MergeAll;
    MergedThree(SPIKES[0], SPIKES[1], LETTER_SIGNAL);
    assert [SPIKES[0], SPIKES[1], LETTER_SIGNAL] == SPIKES + [LETTER_SIGNAL];
  }

  lemma MergedThree(a: Signal, b: Signal, c: Signal)
    requires SignalKey(a) != SignalKey(b) && SignalKey(a) != SignalKey(c) && SignalKey(b) != SignalKey(c)
    ensures MergeAll([], [a, b, c]) == [a, b, c]
  {
    hide SignalKey;
    assert [a, b, c][..2] == [a, b] && [a, b][..1] == [a] && [a][..0] == [];
    FindKeyIs([], SignalKey(a), 0);
    assert MergeAll([], [a]) == [] + [a];
    FindKeyIs([a], SignalKey(b), 1);
    assert MergeAll([], [a, b]) == [a] + [b];
    FindKeyIs([a, b], SignalKey(c), 2);
    assert MergeAll([], [a, b, c]) == [a, b] + [c];
  }

  // ---------------------------------------------------------- correlation

  lemma LetterEvent(s: Signal)
    requires s.service == "" && s.metric.DlqDepth? && QueueOwner(s.queue) == Some("payment") && s.queue != ""
    ensures EventFor(EventOf([s]), [s], [])
  {
    assert [s][..0] == [];
    assert OwnedQueue(s) && FirstOwner([s]) == Some("payment");
    assert !HasServiceSignal([s]);
    assert EvidenceRoot([], s.ts, [s]).None?;
    assert ServiceForSignal(s) == "payment";
    OnlyPayment([s]);
    hide FirstOwner, OwnedQueue, ServiceForSignal, NamesService, IsAffected, RootCause;
  }

  lemma SpikeEvent(a: Signal, b: Signal)
    requires a.service == b.service == "payment"
    ensures EventFor(EventOf([a, b]), [a, b], [])
  {
    var g := [a, b];
    assert g[..1] == [a] && [a][..0] == [];
    assert HasServiceSignal(g) by { assert g[0].service != ""; }
    assert EvidenceRoot([], a.ts, g).None?;
    var i := ScanIsMostUpstream(g);
    assert Scan(g).service == "payment";
    OnlyPayment(g);
    hide Scan, NamesService, IsAffected, RootCause, HasServiceSignal;
  }

  /** A group of payment's signals affects payment alone. */
  lemma OnlyPayment(g: seq<Signal>)
    requires forall s :: s in g ==> ServiceForSignal(s) == "payment"
    ensures IsAffected(["payment"], "payment", g)
  {
    hide ServiceForSignal;
    forall x ensures x in ["payment"] <==> x == "payment" || (Downstream("payment", x) && NamesService(g, x)) {
      if NamesService(g, x) {
        var i :| 0 <= i < |g| && ServiceForSignal(g[i]) == x;
        assert g[i] in g;
      }
    }
  }

  lemma Grouped(l: Signal, a: Signal, b: Signal)
    requires a.ts == b.ts && a.ts - l.ts > GROUP_WINDOW && IsDlqSignal(l)
    ensures Groups([l, a, b], GROUP_WINDOW) == [[l], [a, b]]
    ensures Filter([[l], [a, b]], Promoted) == [[l], [a, b]]
  {
    assert [l, a, b][..2] == [l, a] && [l, a][..1] == [l] && [l][..0] == [];
    assert Groups([l], GROUP_WINDOW) == [[l]];
    assert Groups([l, a], GROUP_WINDOW) == [[l]] + [[a]];
    assert [[l], [a]][..1] == [[l]] && [a] + [b] == [a, b];
    assert Groups([l, a, b], GROUP_WINDOW) == [[l]] + [[a, b]];
    FilterAll([[l], [a, b]], Promoted);
  }

  lemma Joined<T>(a: seq<T>, b: seq<T>)
    ensures multiset(a + b) == multiset(b + a)
  {
  }

  lemma ThreeFit(l: Signal, a: Signal, b: Signal, ev: CorrelatedEvent, ev': CorrelatedEvent)
    requires a.ts == b.ts && a.ts - l.ts > GROUP_WINDOW && IsDlqSignal(l)
    requires EventFor(ev, [l], []) && EventFor(ev', [a, b], [])
    ensures Correlates([a, b] + [l], [l] + [a, b], [], [ev, ev'])
  {
    assert [l] + [a, b] == [l, a, b];
    InOrder(l, a, b, ByTime);
    Grouped(l, a, b);
    PairOf(ev, ev', [l], [a, b]);
    hide EventFor, Groups, Filter, Promoted, EventsFor, SortedPermutation;
  }

  lemma InOrder<T>(l: T, a: T, b: T, le: (T, T) -> bool)
    requires le(l, a) && le(l, b) && le(a, b)
    ensures SortedPermutation([l] + [a, b], [a, b] + [l], le)
  {
    Joined([l], [a, b]);
    var r := [l] + [a, b];
    assert |r| == 3 && r[0] == l && r[1] == a && r[2] == b;
  }

  lemma PairOf(ev: CorrelatedEvent, ev': CorrelatedEvent, g: seq<Signal>, g': seq<Signal>)
    requires g != [] && g' != [] && EventFor(ev, g, []) && EventFor(ev', g', [])
    ensures EventsFor([ev, ev'], [g, g'], [])
  {
    hide EventFor;
  }

  lemma EventsFit()
    ensures Correlates(ACTIVE, CHOICES.sorted, [], EVENTS)
  {
    hide EventOf, EventFor, Correlates;
    LetterEvent(LETTER_SIGNAL);
    SpikeEvent(SPIKES[0], SPIKES[1]);
    ThreeFit(LETTER_SIGNAL, SPIKES[0], SPIKES[1], EVENTS[0], EVENTS[1]);
  }

  // ------------------------------------------------------------ incidents

  lemma BothUnmatched(ev: CorrelatedEvent, ev': CorrelatedEvent)
    ensures Unmatched([], [ev, ev']) == [ev, ev']
  {
    assert FindMatch([], EventKey(ev)).None? && FindMatch([], EventKey(ev')).None?;
    hide FindMatch, EventKey;
    assert [ev, ev'][..1] == [ev] && [ev][..0] == [];
    assert Unmatched([], [ev]) == [] + [ev];
    assert Unmatched([], [ev, ev']) == [ev] + [ev'];
  }

  lemma BothWritten(ev: CorrelatedEvent, ev': CorrelatedEvent)
    ensures Known([], 0) && ReconcileAll([], [], [ev, ev']) == [NewIncident(1, ev), NewIncident(2, ev')]
  {
    var none: seq<Incident> := [];
    assert Known(none, 0);
    hide *;
    ReconcileShape(none, none, [ev, ev']);
    BothUnmatched(ev, ev');
    var r := ReconcileAll(none, none, [ev, ev']);
    assert r[|none| + 0] == NewIncident(1, ev) && r[|none| + 1] == NewIncident(2, ev');
    assert |r| == 2 && r == [r[0], r[1]];
  }

  lemma ListedBoth(a: Incident, b: Incident)
    requires a.status.Active? && b.status.Active? && b.startedAt >= a.startedAt
    ensures ListsActive([b, a], [a, b])
  {
    assert IsActive(a) && IsActive(b) && NewestFirst(b, a);
    hide Filter, IsActive, NewestFirst, SortedPermutation;
    FilterAll([a, b], IsActive);
    Reversed(a, b, NewestFirst);
  }

  lemma Reversed<T>(a: T, b: T, le: (T, T) -> bool)
    requires le(b, a)
    ensures SortedPermutation([b, a], [a, b], le)
  {
    Joined([b], [a]);
    assert [b] + [a] == [b, a] && [a] + [b] == [a, b];
  }

  lemma Created()
    ensures ListsActive([], []) && Known([], 0)
    ensures ReconcileAll([], [], EVENTS) == CREATED
    ensures ListsActive(RELISTED, CREATED)
  {
    BothWritten(EVENTS[0], EVENTS[1]);
    ListedBoth(CREATED[0], CREATED[1]);
    hide ReconcileAll;
  }

  lemma NothingResolved(anomalous: set<string>)
    requires "payment" in anomalous
    ensures ToResolve(map[], RELISTED, anomalous) == []
  {
    assert RELISTED[..1] == [RELISTED[0]] && [RELISTED[0]][..0] == [];
    assert RELISTED[0].affected[0] == "payment" && RELISTED[1].affected[0] == "payment";
    assert ToResolve(map[], [RELISTED[0]], anomalous) == [];
  }

  lemma Anomaly()
    ensures "payment" in Anomalous(ACTIVE)
  {
    assert LETTER_SIGNAL in ACTIVE;
    AttributionAgrees(ACTIVE, LETTER_SIGNAL);
  }

  // ------------------------------------------------------------------ run

  lemma Settled()
    ensures Settles(INITIAL, ACTIVE, INPUT, CHOICES, Post())
  {
    Created();
    Anomaly();
    assert EVENTS[..|EVENTS|] == EVENTS;
    assert WrittenEvents(INPUT, EVENTS) == EVENTS;
    NothingResolved(Anomalous(ACTIVE));
    assert Reconciled([], INPUT, EVENTS, []) == CREATED;
    assert MarkAll(CREATED, [], INPUT.now, INPUT.markFails) == CREATED;
    hide ReconcileAll, MarkAll, ToResolve, NextCounts, Anomalous, ListsActive, EventOf, NewIncident, NextWindows;
  }

  lemma OneCycle()
    ensures TickStep(INITIAL, INPUT, CHOICES, Post()) && SoundInput(INPUT)
  {
    Detected();
    Merged();
    Rows();
    EventsFit();
    Settled();
    hide Detects, Settles, Correlates, NextWindows, NextActive, ServiceRows, QueueRows, FaultRows;
  }

  lemma OneRun(r: TickRecord)
    requires TickStep(INITIAL, r.input, r.choices, r.post) && SoundInput(r.input)
    ensures ValidRun([r]) && Clocked([r]) && FinalState([r]) == r.post
  {
    hide TickStep;
    assert [r][..0] == [];
  }

  /** A valid, clocked run that ends with two active incidents of one key: at most
      one per key is not an invariant of the monitor. */
  lemma TwoIncidentsOneKey()
    ensures ValidRun(Run()) && Clocked(Run()) && Completes(INPUT)
    ensures var rows := FinalState(Run()).rows;
      && |rows| == 2 && rows[0].status.Active? && rows[1].status.Active?
      && KeyOf(rows[0]) == KeyOf(rows[1]) && rows[0].startedAt != rows[1].startedAt
    ensures !AtMostOnePerKey(FinalState(Run()).rows)
  {
    hide *;
    OneCycle();
    OneRun(TickRecord(INPUT, CHOICES, Post()));
    CreatedAlike();
    TwoOfOne(CREATED, KeyOf(CREATED[0]));
  }

  lemma StartIsSound()
    ensures SoundState(INITIAL, INPUT.now)
  {
  }

  lemma RootsNamed(i: nat)
    requires i < |EVENTS|
    ensures CHOICES.events == EVENTS && Reconciled(INITIAL.rows, INPUT, EVENTS, CHOICES.listed) == CREATED
    ensures |CREATED| == |EVENTS| && CREATED[i].status.Active? && CREATED[i].rootService == EVENTS[i].rootService
  {
    Created();
    assert EVENTS[..|EVENTS|] == EVENTS;
    hide ReconcileAll, RootCause;
  }

  /** Both are named in that cycle, so it leaves neither with a clean check. */
  lemma BothNamed(i: nat)
    requires i < |EVENTS|
    ensures SoundInput(INPUT) && SoundState(INITIAL, INPUT.now) && TickStep(INITIAL, INPUT, CHOICES, Post())
    ensures CountOf(Post().counts, i + 1) == 0
  {
    hide *;
    OneCycle();
    CreatedAlike();
    StartIsSound();
    RootsNamed(i);
    NotResolvedWhileNamed(INITIAL, INPUT, CHOICES, Post(), i, i);
  }

  lemma CreatedAlike()
    ensures Run() == [TickRecord(INPUT, CHOICES, Post())] && Post().rows == CREATED && |CREATED| == 2
        && Completes(INPUT)
    ensures CREATED[0].status.Active? && CREATED[1].status.Active?
    ensures KeyOf(CREATED[0]) == KeyOf(CREATED[1]) && CREATED[0].startedAt != CREATED[1].startedAt
    ensures ActiveWith(KeyOf(CREATED[0]))(CREATED[0]) && ActiveWith(KeyOf(CREATED[0]))(CREATED[1])
  {
    hide NextWindows, NextCounts, Anomalous, RootCause;
  }

  lemma TwoOfOne(rows: seq<Incident>, key: Key)
    requires |rows| == 2 && ActiveWith(key)(rows[0]) && ActiveWith(key)(rows[1])
    ensures ActiveCount(rows, key) == 2 && !AtMostOnePerKey(rows)
  {
    assert rows[..1] == [rows[0]];
    CountOne(rows[0], ActiveWith(key));
    assert ActiveCount(rows, key) == 2;
  }
}
