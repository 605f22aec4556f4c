/** A run in which re-reading the same two rows keeps a sample in its window long
    after its time. */
module StaleSamples {
  import opened Sequences
  import opened Signals
  import opened Statistics
  import opened Baseline
  import opened Detection
  import opened ActiveSignals
  import opened Correlation
  import opened Incidents
  import opened Monitor
  import opened MonitorRuns

  const QUEUE := "order-queue"

  const EARLY: QueueRow := QueueRow(2000, QUEUE, 1.0, false)
  const MIDDLE: QueueRow := QueueRow(30000, QUEUE, 1.0, false)
  const LATE: QueueRow := QueueRow(90000, QUEUE, 1.0, false)

  // -------------------------------------------------------------- cycles

  /** A cycle that finds nothing but queue rows. */
  function Input(now: int, rows: seq<QueueRow>): TickInput {
    TickInput(now, Some([]), Some(rows), Some([]), NoFault, {})
  }

  const NOTHING: Choices := Choices([], [], [], [], [], [], [], [])

  /** Nothing has happened but that rows were read. */
  function After(rows: seq<QueueRow>): MonitorState {
    INITIAL.(windows := RecordAll(map[], AllQueueEntries(rows), BASELINE_WINDOW))
  }

  predicate Plain(r: QueueRow) { r.queue == QUEUE && !r.dlq }

  lemma {:induction false} EntriesConcat(a: seq<QueueRow>, b: seq<QueueRow>)
    ensures AllQueueEntries(a + b) == AllQueueEntries(a) + AllQueueEntries(b)
  {
    if b == [] {
      assert a + b == a;
    } else {
      assert (a + b)[..|a + b| - 1] == a + b[..|b| - 1];
      EntriesConcat(a, b[..|b| - 1]);
    }
  }

  lemma {:induction false} SamplesOf(rows: seq<QueueRow>)
    requires forall r :: r in rows ==> Plain(r)
    ensures |SamplesFor(AllQueueEntries(rows), QueueKey(QUEUE, DEPTH))| == |rows|
    ensures forall k :: 0 <= k < |rows| ==>
      SamplesFor(AllQueueEntries(rows), QueueKey(QUEUE, DEPTH))[k] == Sample(rows[k].ts, rows[k].depth)
  {
    if rows == [] {
    } else {
      SamplesOf(rows[..|rows| - 1]);
      assert Plain(rows[|rows| - 1]);
    }
  }

  /** Below the least number of samples nothing fires. */
  lemma {:induction false} NothingFires(c: Windows, rows: seq<QueueRow>)
    requires |WindowFor(c, QueueKey(QUEUE, DEPTH))| < MIN_SAMPLES && forall r :: r in rows ==> Plain(r)
    ensures BestQueue(c, rows) == map[]
  {
    if rows == [] {
    } else {
      NothingFires(c, rows[..|rows| - 1]);
      assert Plain(rows[|rows| - 1]);
    }
  }

  lemma Fewer(rows: seq<QueueRow>)
    requires |rows| < MIN_SAMPLES && forall r :: r in rows ==> Plain(r)
    ensures |WindowFor(After(rows).windows, QueueKey(QUEUE, DEPTH))| < MIN_SAMPLES
  {
    var es, key := AllQueueEntries(rows), QueueKey(QUEUE, DEPTH);
    SamplesOf(rows);
    WindowOfKey(es, key, BASELINE_WINDOW);
    hide PushAll, RecordAll;
    if rows != [] {
      PushAllIsSuffix(SamplesFor(es, key), BASELINE_WINDOW);
    } else {
      assert PushAll([], BASELINE_WINDOW) == [];
    }
  }

  /** Without signals and incidents there is nothing to correlate or settle. */
  lemma NothingToDo(s: MonitorState, t: TickInput)
    requires s.rows == [] && s.counts == map[] && t.fault == NoFault
    ensures Correlates([], [], [], []) && Settles(s, [], t, NOTHING, s)
  {
    assert Groups([], GROUP_WINDOW) == [];
    assert WrittenEvents(t, []) == [];
  }

  lemma NothingActive(now: int)
    ensures Updated([], now, []) == []
  {
  }

  lemma NothingRead(t: TickInput)
    requires t.services == Some([]) && t.faults == Some([])
    ensures FaultRows(t) == [] && ServiceRows(t) == []
  {
  }

  lemma QuietStep(s: MonitorState, t: TickInput)
    requires s.active == [] && s.rows == [] && s.counts == map[] && t.fault == NoFault
    requires t.services == Some([]) && t.faults == Some([]) && t.queues.Some?
    requires BestQueue(NextWindows(s, t), QueueRows(t)) == map[]
    ensures TickStep(s, t, NOTHING, s.(windows := NextWindows(s, t)))
  {
    var s' := s.(windows := NextWindows(s, t));
    NothingToDo(s, t);
    NothingActive(t.now);
    NothingRead(t);
    assert Settles(s, [], t, NOTHING, s');
    hide Settles, Correlates, Updated, FaultRows, ServiceRows, QueueRows, NextWindows, BestQueue;
  }

  lemma QuietCycle(rows: seq<QueueRow>, t: TickInput, more: seq<QueueRow>)
    requires t.services == Some([]) && t.faults == Some([]) && t.queues.Some? && t.fault == NoFault
    requires QueueRows(t) == more && |rows + more| < MIN_SAMPLES && forall r :: r in rows + more ==> Plain(r)
    ensures TickStep(After(rows), t, NOTHING, After(rows + more))
  {
    NothingRead(t);
    EntriesConcat(rows, more);
    RecordAllConcat(map[], AllQueueEntries(rows), AllQueueEntries(more), BASELINE_WINDOW);
    assert TickEntries(t) == [] + AllQueueEntries(more) == AllQueueEntries(more);
    assert NextWindows(After(rows), t) == After(rows + more).windows;
    Fewer(rows + more);
    NothingFires(After(rows + more).windows, more);
    hide TickStep, NextWindows, RecordAll, AllQueueEntries, BestQueue, WindowFor;
    QuietStep(After(rows), t);
  }

  // ----------------------------------------------------------------- run

  const TWICE: seq<QueueRow> := [EARLY, MIDDLE, EARLY, MIDDLE]

  /** Two cycles read the first two rows, 2 s apart; a later one reads the third. */
  const RUN: seq<TickRecord> := [
    TickRecord(Input(30000, [EARLY, MIDDLE]), NOTHING, After([EARLY, MIDDLE])),
    TickRecord(Input(32000, [EARLY, MIDDLE]), NOTHING, After(TWICE)),
    TickRecord(Input(90000, [EARLY, MIDDLE, LATE]), NOTHING, After(TWICE + [LATE]))]

  lemma ReadTwo(now: int)
    requires now - METRIC_READ_WINDOW <= 2000
    ensures QueueRows(Input(now, [EARLY, MIDDLE])) == [EARLY, MIDDLE]
  {
    var keep, two := QueueSince(now - METRIC_READ_WINDOW), [EARLY, MIDDLE];
    assert two[..1] == [EARLY] && [EARLY][..0] == [];
    assert Filter([EARLY], keep) == [] + [EARLY];
    assert Filter(two, keep) == [EARLY] + [MIDDLE];
  }

  lemma ReadLast()
    ensures QueueRows(Input(90000, [EARLY, MIDDLE, LATE])) == [LATE]
  {
    var keep, two, three := QueueSince(90000 - METRIC_READ_WINDOW), [EARLY, MIDDLE], [EARLY, MIDDLE, LATE];
    assert three[..2] == two && two[..1] == [EARLY] && [EARLY][..0] == [];
    assert Filter([EARLY], keep) == [];
    assert Filter(two, keep) == [];
    assert Filter(three, keep) == [] + [LATE];
  }

  lemma AfterNothing()
    ensures After([]) == INITIAL
  {
  }

  lemma Cycles()
    ensures TickStep(INITIAL, RUN[0].input, NOTHING, RUN[0].post)
    ensures TickStep(RUN[0].post, RUN[1].input, NOTHING, RUN[1].post)
    ensures TickStep(RUN[1].post, RUN[2].input, NOTHING, RUN[2].post)
  {
    hide TickStep, QueueRows, After;
    ReadTwo(30000);
    ReadTwo(32000);
    ReadLast();
    AfterNothing();
    QuietCycle([], RUN[0].input, [EARLY, MIDDLE]);
    assert [] + [EARLY, MIDDLE] == [EARLY, MIDDLE];
    QuietCycle([EARLY, MIDDLE], RUN[1].input, [EARLY, MIDDLE]);
    assert [EARLY, MIDDLE] + [EARLY, MIDDLE] == TWICE;
    QuietCycle(TWICE, RUN[2].input, [LATE]);
  }

  lemma RunIsValid()
    ensures ValidRun(RUN) && Clocked(RUN) && FinalState(RUN) == After(TWICE + [LATE])
  {
    Cycles();
    hide TickStep, After;
    assert RUN[..2] == [RUN[0], RUN[1]] && RUN[..2][..1] == [RUN[0]] && [RUN[0]][..0] == [];
    assert ValidRun([RUN[0]]);
    assert ValidRun([RUN[0], RUN[1]]);
  }

  lemma Pushes(a: Sample, b: Sample, c: Sample)
    requires a.ts == 2000 && b.ts == 30000 && c.ts == 90000
    ensures PushAll([a, b, a, b, c], BASELINE_WINDOW) == [b, a, b, c]
  {
    var all := [a, b, a, b, c];
    assert all[..4] == [a, b, a, b] && all[..4][..3] == [a, b, a] && [a, b, a][..2] == [a, b] && [a, b][..1] == [a];
    assert [a][..0] == [];
    assert PushAll([a], BASELINE_WINDOW) == [] + [a];
    assert PushAll([a, b], BASELINE_WINDOW) == [a] + [b];
    assert PushAll([a, b, a], BASELINE_WINDOW) == [a, b] + [a];
    assert PushAll([a, b, a, b], BASELINE_WINDOW) == [a, b, a] + [b];
    assert [a, b, a] + [b] == all[..4] && all[..|all| - 1] == all[..4];
    assert PushAll(all[..4], BASELINE_WINDOW) == [a, b, a, b];
    PushesLast(a, b, c);
    assert PushAll(all, BASELINE_WINDOW) == Push([a, b, a, b], c, BASELINE_WINDOW);
  }

  lemma PushesLast(a: Sample, b: Sample, c: Sample)
    requires a.ts == 2000 && b.ts == 30000 && c.ts == 90000
    ensures Push([a, b, a, b], c, BASELINE_WINDOW) == [b, a, b, c]
  {
    var all, rest := [a, b, a, b, c], [b, a, b, c];
    assert [a, b, a, b] + [c] == all && all[1..] == rest;
    assert rest[0].ts >= 30000 && DropStale(rest, 30000) == rest;
    assert all[0].ts < 30000 && DropStale(all, 30000) == DropStale(all[1..], 30000);
  }

  lemma LastWindow(a: Sample, b: Sample, c: Sample)
    requires a == Sample(2000, 1.0) && b == Sample(30000, 1.0) && c == Sample(90000, 1.0)
    ensures WindowFor(After(TWICE + [LATE]).windows, QueueKey(QUEUE, DEPTH)) == [b, a, b, c]
  {
    var rows, key := TWICE + [LATE], QueueKey(QUEUE, DEPTH);
    var es := AllQueueEntries(rows);
    SamplesOf(rows);
    assert SamplesFor(es, key) == [a, b, a, b, c];
    hide AllQueueEntries, SamplesFor, RecordAll, PushAll, WindowFor;
    WindowOfKey(es, key, BASELINE_WINDOW);
    Pushes(a, b, c);
  }

  /** A clocked run after which a window of 60 s holds a sample 88 s older than its
      last: no row came late, but a row that is read again goes behind younger
      ones. */
  lemma KeptTooLong()
    ensures ValidRun(RUN) && Clocked(RUN)
    ensures var w := WindowFor(FinalState(RUN).windows, QueueKey(QUEUE, DEPTH));
      |w| == 4 && w[1].ts == w[3].ts - 88000 < w[3].ts - BASELINE_WINDOW
  {
    assert BASELINE_WINDOW == 60000;
    hide *;
    RunIsValid();
    var a, b, c := Sample(2000, 1.0), Sample(30000, 1.0), Sample(90000, 1.0);
    LastWindow(a, b, c);
  }
}
