/** What a cycle's queue signals stand against, and that the active set never
    mixes two series up. */
module Series {
  import opened Sequences
  import opened Signals
  import opened Statistics
  import opened Detection
  import opened ActiveSignals
  import opened Monitor
  import opened MonitorRuns

  // ------------------------------------------------------- queue signals

  lemma {:induction false} QueueEntriesContain(rows: seq<QueueRow>, r: QueueRow) returns (i: nat)
    requires r in rows
    ensures i < |AllQueueEntries(rows)| && AllQueueEntries(rows)[i] == QueueEntry(r)
  {
    var init, last := rows[..|rows| - 1], rows[|rows| - 1];
    if r == last {
      i := |AllQueueEntries(init)|;
    } else {
      i := QueueEntriesContain(init, r);
    }
  }

  lemma TestedQueueRowInWindow(s: MonitorState, t: TickInput, r: QueueRow)
    requires SoundInput(t) && Reads(t) && r in QueueRows(t)
    ensures Sample(r.ts, r.depth) in WindowFor(NextWindows(s, t), QueueKey(r.queue, DEPTH))
  {
    var es, before := TickEntries(t), AllServiceEntries(ServiceRows(t));
    var n := QueueEntriesContain(QueueRows(t), r);
    var i := |before| + n;
    TickEntryTimes(t);
    assert es[i] == QueueEntry(r) && es[i] in es;
    forall j | i <= j < |es| && es[j].key == es[i].key
      ensures es[j].sample.ts <= es[i].sample.ts + BASELINE_WINDOW
    {
      assert es[j] in es;
    }
    RecordedStays(s.windows, es, i, BASELINE_WINDOW);
  }

  lemma AboveOwnWindow(w: seq<Sample>, x: Sample)
    requires x in w && Above(x.value, Moments(Mean(w), Variance(w)), 2.0)
    ensures Variance(w) > 0.0
  {
    MemberCounts(w, x, AboveTest(Moments(Mean(w), Variance(w)), 2.0));
    MaskingAbove(w, 2.0);
  }

  lemma QueueDepthFires(c: Windows, r: QueueRow, x: Signal)
    requires QueueCheck(c, r) == Some(x) && x.metric.QueueDepth?
    ensures var w := WindowFor(c, QueueKey(r.queue, DEPTH));
      w != [] && Above(r.depth, Moments(Mean(w), Variance(w)), 2.0) && x.queue == r.queue && x.ts == r.ts
          && x.value == r.depth
  {
    hide Above, Mean, Variance;
  }

  /** A queue-depth signal, too, stands against a window with spread that holds the
      row it was fired by. */
  lemma QueueSignalsAreUnmasked(s: MonitorState, t: TickInput, c: Choices, x: Signal)
    requires SoundInput(t) && Reads(t) && Detects(NextWindows(s, t), t, c)
    requires x in c.queueSignals && x.metric.QueueDepth?
    ensures var w := WindowFor(NextWindows(s, t), QueueKey(x.queue, DEPTH));
      w != [] && Variance(w) > 0.0 && Sample(x.ts, x.value) in w
  {
    var i :| 0 <= i < |c.queueSignals| && c.queueSignals[i] == x;
    var r := BestQueueFires(NextWindows(s, t), QueueRows(t), c.queueKeys[i]);
    QueueDepthFires(NextWindows(s, t), r, x);
    TestedQueueRowInWindow(s, t, r);
    hide QueueCheck, NextWindows, Above, Mean, Variance;
    AboveOwnWindow(WindowFor(NextWindows(s, t), QueueKey(r.queue, DEPTH)), Sample(r.ts, r.depth));
  }

  // -------------------------------------------------------------- series

  lemma ChecksAreOneSided(c: Windows)
    ensures forall r, m: Metric :: (m.ErrorRate? || m.P99Latency? || m.Throughput?) && ServiceCheck(c, r, m).Some? ==>
      OneSided(ServiceCheck(c, r, m).value)
    ensures forall r :: QueueCheck(c, r).Some? ==> OneSided(QueueCheck(c, r).value)
  {
    hide StatsOf, WindowFor, Above, Beneath, Score, SignedSquare;
  }

  lemma DetectedAreOneSided(w: Windows, t: TickInput, c: Choices)
    requires Reads(t) && Detects(w, t, c)
    ensures forall x :: x in c.serviceSignals + c.queueSignals ==> OneSided(x)
  {
    ChecksAreOneSided(w);
    hide ServiceCheck, QueueCheck, OneSided, ServiceRows, QueueRows;
    forall x | x in c.serviceSignals ensures OneSided(x) {
      var i :| 0 <= i < |c.serviceSignals| && c.serviceSignals[i] == x;
      var r, m := BestServiceFires(w, ServiceRows(t), c.serviceKeys[i]);
    }
    forall x | x in c.queueSignals ensures OneSided(x) {
      var i :| 0 <= i < |c.queueSignals| && c.queueSignals[i] == x;
      var r := BestQueueFires(w, QueueRows(t), c.queueKeys[i]);
    }
  }

  ghost predicate AllOneSided(active: seq<Signal>) {
    (forall x :: x in active ==> OneSided(x)) && DistinctKeys(active)
  }

  lemma UpdateKeepsOneSided(active: seq<Signal>, now: int, signals: seq<Signal>)
    requires AllOneSided(active) && forall x :: x in signals ==> OneSided(x)
    ensures AllOneSided(Updated(active, now, signals))
  {
    UpdatedDistinct(active, now, signals);
    UpdatedMembers(Prune(active, now - SIGNAL_WINDOW), signals);
  }

  lemma {:induction false} RunOneSided(run: seq<TickRecord>)
    requires ValidRun(run)
    ensures AllOneSided(FinalState(run).active)
  {
    hide TickStep, AllOneSided;
    if run == [] {
      NoneOneSided();
    } else {
      var init, r := run[..|run| - 1], run[|run| - 1];
      RunOneSided(init);
      StepOneSided(FinalState(init), r);
    }
  }

  lemma NoneOneSided()
    ensures AllOneSided([])
  {
  }

  lemma StepOneSided(s: MonitorState, r: TickRecord)
    requires TickStep(s, r.input, r.choices, r.post) && AllOneSided(s.active)
    ensures AllOneSided(r.post.active)
  {
    if Reads(r.input) {
      DetectedAreOneSided(NextWindows(s, r.input), r.input, r.choices);
      UpdateKeepsOneSided(s.active, r.input.now, r.choices.serviceSignals + r.choices.queueSignals);
    }
    hide AllOneSided, Settles;
  }

  /** After every run two entries of the active set are of different series, and
      have different keys for no other reason: whatever the names are, no series
      replaces or hides another. */
  lemma RunOnePerSeries(run: seq<TickRecord>, i: nat, x: Signal)
    requires ValidRun(run) && i < |FinalState(run).active| && OneSided(x)
    ensures var active := FinalState(run).active;
      && (forall j :: 0 <= j < |active| && j != i ==> !SameSeries(active[i], active[j]))
      && (SignalKey(x) == SignalKey(active[i]) <==> SameSeries(x, active[i]))
  {
    RunOneSided(run);
    var active := FinalState(run).active;
    OneSidedKeys(x, active[i]);
    hide TickStep;
  }
}
