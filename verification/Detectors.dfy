/** The two anomaly detectors: one pass over the rows, keeping the most extreme
    signal of each series. */
module Detectors {
  import opened Sequences
  import opened Signals
  import opened Statistics
  import opened Detection
  import opened Answers

  /** Map iteration: the values of a map in an unspecified order. */
  method MapValues(best: map<string, Signal>) returns (out: seq<Signal>, ghost keys: seq<string>)
    ensures Lists(out, best, keys) && Listing(out, best)
  {
    var left := best.Keys;
    out, keys := [], [];
    while left != {}
      invariant left <= best.Keys
      invariant |keys| == |out|
      invariant forall i, j :: 0 <= i < j < |keys| ==> keys[i] != keys[j]
      invariant forall k :: k in best ==> k in left || k in keys
      invariant forall i :: 0 <= i < |keys| ==> keys[i] in best && keys[i] !in left && best[keys[i]] == out[i]
      decreases left
    {
      var k :| k in left;
      left := left - {k};
      out := out + [best[k]];
      keys := keys + [k];
    }
    ListsIsListing(out, best, keys);
  }

  method DetectServiceAnomalies(rows: seq<ServiceRow>, bs: Baselines)
      returns (out: seq<Signal>, ghost keys: seq<string>)
    requires bs.Valid()
    ensures Lists(out, BestService(bs.Contents(), rows), keys)
    ensures Listing(out, BestService(bs.Contents(), rows))
    ensures ServiceAnswer(out, rows, bs.Contents())
  {
    var best := CheckRows(rows, bs, bs.Contents());
    out, keys := MapValues(best);
    ServiceAnswers(out, keys, rows, bs.Contents());
  }

  lemma BestServiceSnoc(c: Windows, rows: seq<ServiceRow>, i: nat)
    requires i < |rows|
    ensures BestService(c, rows[..i + 1]) == KeepRow(BestService(c, rows[..i]), c, rows[i])
  {
    assert rows[..i + 1][..i] == rows[..i];
  }

  method CheckRows(rows: seq<ServiceRow>, bs: Baselines, ghost c: Windows) returns (best: map<string, Signal>)
    requires bs.Valid() && c == bs.Contents()
    ensures best == BestService(c, rows)
  {
    best := map[];
    for i := 0 to |rows|
      invariant best == BestService(c, rows[..i])
    {
      best := CheckRow(best, rows[i], bs, c);
      BestServiceSnoc(c, rows, i);
    }
    assert rows[..|rows|] == rows;
  }

  method CheckRow(best: map<string, Signal>, r: ServiceRow, bs: Baselines, ghost c: Windows)
      returns (best': map<string, Signal>)
    requires bs.Valid() && c == bs.Contents()
    ensures best' == KeepRow(best, c, r)
  {
    best' := CheckMetric(best, r, ErrorRate, r.errorRate, bs, c);
    best' := CheckMetric(best', r, P99Latency, r.p99Latency, bs, c);
    best' := CheckMetric(best', r, Throughput, r.throughput, bs, c);
  }

  /** The check of one metric of one row: threshold, floor, keep-most-extreme. */
  method CheckMetric(best: map<string, Signal>, r: ServiceRow, m: Metric, value: real, bs: Baselines, ghost c: Windows)
    returns (best': map<string, Signal>)
    requires bs.Valid() && c == bs.Contents()
    requires value == if m.ErrorRate? then r.errorRate else if m.P99Latency? then r.p99Latency else r.throughput
    ensures best' == Keep(best, BestKey(r.service, m), ServiceCheck(c, r, m))
  {
    best' := best;
    var stats := bs.StatsFor("svc:" + r.service + ":" + m.Name());
    if stats.None? {
      return;
    }
    var st := stats.value;
    var sig: Option<Signal> := None;
    match m {
      case ErrorRate =>
        if Above(value, st, 3.0) && value >= 0.10 {
          sig := Some(Signal(r.ts, r.service, "", m, value, st.mean, Score(value, st), High));
        }
      case P99Latency =>
        if Above(value, st, 3.0) && value >= 500.0 {
          sig := Some(Signal(r.ts, r.service, "", m, value, st.mean, Score(value, st), High));
        }
      case Throughput =>
        if Beneath(value, st, 2.0) && value < 0.5 {
          sig := Some(Signal(r.ts, r.service, "", m, value, st.mean, Score(value, st), Low));
        }
      case _ =>
    }
    if sig.None? {
      return;
    }
    var key := r.service + ":" + m.Name();
    if key !in best || Abs(sig.value.score) > Abs(best[key].score) {
      best' := best[key := sig.value];
    }
  }

  /** What the queue detector's map holds: DLQ entries are scored by depth. */
  ghost predicate DlqEntriesByDepth(best: map<string, Signal>) {
    forall k :: k in best ==>
      && k == BestKey(best[k].queue, best[k].metric)
      && (best[k].metric.DlqDepth? ==> best[k].value > 0.0 && best[k].score == SignedSquare(best[k].value))
  }

  method DetectQueueAnomalies(rows: seq<QueueRow>, bs: Baselines) returns (out: seq<Signal>, ghost keys: seq<string>)
    requires bs.Valid()
    ensures Lists(out, BestQueue(bs.Contents(), rows), keys)
    ensures Listing(out, BestQueue(bs.Contents(), rows))
    ensures QueueAnswer(out, rows, bs.Contents())
  {
    ghost var c := bs.Contents();
    var best: map<string, Signal> := map[];
    for i := 0 to |rows|
      invariant best == BestQueue(c, rows[..i])
      invariant DlqEntriesByDepth(best)
    {
      assert rows[..i + 1][..i] == rows[..i];
      best := CheckQueue(best, rows[i], bs, c);
    }
    assert rows[..|rows|] == rows;
    out, keys := MapValues(best);
    QueueAnswers(out, keys, rows, c);
  }

  method CheckQueue(best: map<string, Signal>, r: QueueRow, bs: Baselines, ghost c: Windows)
      returns (best': map<string, Signal>)
    requires bs.Valid() && c == bs.Contents() && DlqEntriesByDepth(best)
    ensures best' == Keep(best, QueueSlot(QueueCheck(c, r), r.queue), QueueCheck(c, r))
    ensures DlqEntriesByDepth(best')
  {
    best' := best;
    if r.dlq && r.depth > 0.0 {
      var key := r.queue + ":" + DlqDepth.Name();
      if key in best {
        BestKeyInjective(r.queue, DlqDepth, best[key].queue, best[key].metric);
        SquareOrder(r.depth, best[key].value);
        SquareNonNegative(r.depth);
        SquareNonNegative(best[key].value);
      }
      if key !in best || r.depth > best[key].value {
        best' := best[key := Signal(r.ts, "", r.queue, DlqDepth, r.depth, 0.0, SignedSquare(r.depth), High)];
      }
      return;
    }
    var stats := bs.StatsFor("q:" + r.queue + ":" + DEPTH);
    if stats.Some? {
      var st := stats.value;
      if Above(r.depth, st, 2.0) && r.depth >= 20.0 {
        var key := r.queue + ":" + QueueDepth.Name();
        var score := Score(r.depth, st);
        if key !in best || Abs(score) > Abs(best[key].score) {
          best' := best[key := Signal(r.ts, "", r.queue, QueueDepth, r.depth, st.mean, score, High)];
        }
      }
    }
  }
}
