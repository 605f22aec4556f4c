/** What the two detectors are for, said row by row: which values fire, and which
    of them is answered for a series. */
module Answers {
  import opened Sequences
  import opened Signals
  import opened Statistics
  import opened Detection

  // ------------------------------------------------------- what must fire

  predicate ServiceMetric(m: Metric) { m.ErrorRate? || m.P99Latency? || m.Throughput? }

  function Measured(r: ServiceRow, m: Metric): real {
    match m
    case ErrorRate => r.errorRate
    case P99Latency => r.p99Latency
    case _ => r.throughput
  }

  /** A value passes the threshold and the floor of its metric against a window. */
  predicate Crosses(w: seq<Sample>, m: Metric, v: real) {
    && |w| >= 10
    && var st := Moments(Mean(w), Variance(w));
    match m
    case ErrorRate => Above(v, st, 3.0) && v >= 0.10
    case P99Latency => Above(v, st, 3.0) && v >= 500.0
    case Throughput => Beneath(v, st, 2.0) && v < 0.5
    case QueueDepth => Above(v, st, 2.0) && v >= 20.0
    case DlqDepth => false
  }

  function ServiceWindow(c: Windows, service: string, m: Metric): seq<Sample> {
    WindowFor(c, "svc:" + service + ":" + m.Name())
  }

  function QueueWindow(c: Windows, queue: string): seq<Sample> { WindowFor(c, "q:" + queue + ":" + "depth") }

  predicate ServiceFires(c: Windows, r: ServiceRow, m: Metric) {
    ServiceMetric(m) && Crosses(ServiceWindow(c, r.service, m), m, Measured(r, m))
  }

  /** A DLQ row with messages fires dlq_depth, whatever its baseline, and nothing
      else; any other row can fire queue_depth. */
  predicate QueueFires(c: Windows, r: QueueRow, m: Metric) {
    if r.dlq && r.depth > 0.0 then m.DlqDepth?
    else m.QueueDepth? && Crosses(QueueWindow(c, r.queue), m, r.depth)
  }

  // ------------------------------------------------------ what it answers

  function Against(w: seq<Sample>, ts: int, service: string, queue: string, m: Metric, v: real): Signal
    requires w != []
  {
    Signal(ts, service, queue, m, v, Mean(w), Score(v, Moments(Mean(w), Variance(w))),
      if m.Throughput? then Low else High)
  }

  function ServiceSignal(c: Windows, r: ServiceRow, m: Metric): Signal
    requires ServiceFires(c, r, m)
  {
    Against(ServiceWindow(c, r.service, m), r.ts, r.service, "", m, Measured(r, m))
  }

  function QueueSignal(c: Windows, r: QueueRow, m: Metric): Signal
    requires QueueFires(c, r, m)
  {
    if m.DlqDepth? then Signal(r.ts, "", r.queue, m, r.depth, 0.0, SignedSquare(r.depth), High)
    else Against(QueueWindow(c, r.queue), r.ts, "", r.queue, m, r.depth)
  }

  /** Per row, the signal it fires for one series. */
  function ServiceSeries(c: Windows, rows: seq<ServiceRow>, service: string, m: Metric): (xs: seq<Option<Signal>>)
    ensures |xs| == |rows|
    ensures forall k :: 0 <= k < |rows| ==>
      xs[k] == if rows[k].service == service && ServiceFires(c, rows[k], m)
               then Some(ServiceSignal(c, rows[k], m)) else None
  {
    if rows == [] then []
    else
      var r := rows[|rows| - 1];
      ServiceSeries(c, rows[..|rows| - 1], service, m)
      + [if r.service == service && ServiceFires(c, r, m) then Some(ServiceSignal(c, r, m)) else None]
  }

  function QueueSeries(c: Windows, rows: seq<QueueRow>, queue: string, m: Metric): (xs: seq<Option<Signal>>)
    ensures |xs| == |rows|
    ensures forall k :: 0 <= k < |rows| ==>
      xs[k] == if rows[k].queue == queue && QueueFires(c, rows[k], m)
               then Some(QueueSignal(c, rows[k], m)) else None
  {
    if rows == [] then []
    else
      var r := rows[|rows| - 1];
      QueueSeries(c, rows[..|rows| - 1], queue, m)
      + [if r.queue == queue && QueueFires(c, r, m) then Some(QueueSignal(c, r, m)) else None]
  }

  /** xs[k] is the first of the strongest signals in xs. */
  ghost predicate LeadsAt(xs: seq<Option<Signal>>, k: int) {
    && 0 <= k < |xs| && xs[k].Some?
    && forall j :: 0 <= j < |xs| && xs[j].Some? ==>
         && Abs(xs[j].value.score) <= Abs(xs[k].value.score)
         && (j < k ==> Abs(xs[j].value.score) < Abs(xs[k].value.score))
  }

  ghost predicate Leads(xs: seq<Option<Signal>>, x: Signal) {
    exists k :: LeadsAt(xs, k) && xs[k] == Some(x)
  }

  /** One signal for each service and metric that some row fires, the first of
      largest deviation, and no other. */
  ghost predicate ServiceAnswer(out: seq<Signal>, rows: seq<ServiceRow>, c: Windows) {
    && (forall i, j :: 0 <= i < j < |out| ==> out[i].service != out[j].service || out[i].metric != out[j].metric)
    && (forall x :: x in out ==> Leads(ServiceSeries(c, rows, x.service, x.metric), x))
    && (forall k, m :: 0 <= k < |rows| && ServiceFires(c, rows[k], m) ==>
          exists x :: x in out && x.service == rows[k].service && x.metric == m)
  }

  ghost predicate QueueAnswer(out: seq<Signal>, rows: seq<QueueRow>, c: Windows) {
    && (forall i, j :: 0 <= i < j < |out| ==> out[i].queue != out[j].queue || out[i].metric != out[j].metric)
    && (forall x :: x in out ==> Leads(QueueSeries(c, rows, x.queue, x.metric), x))
    && (forall k, m :: 0 <= k < |rows| && QueueFires(c, rows[k], m) ==>
          exists x :: x in out && x.queue == rows[k].queue && x.metric == m)
  }

  // --------------------------------------------------------------- proofs

  lemma ServiceCheckIs(c: Windows, r: ServiceRow, m: Metric)
    requires ServiceMetric(m)
    ensures ServiceCheck(c, r, m) == if ServiceFires(c, r, m) then Some(ServiceSignal(c, r, m)) else None
  {
    hide Above, Beneath, Mean, Variance, Score;
  }

  lemma QueueCheckIs(c: Windows, r: QueueRow, m: Metric)
    ensures QueueFires(c, r, m) <==> QueueCheck(c, r).Some? && QueueCheck(c, r).value.metric == m
    ensures QueueFires(c, r, m) ==> QueueCheck(c, r).value == QueueSignal(c, r, m)
  {
    hide Above, Beneath, Mean, Variance, Score, SignedSquare;
  }

  /** `best` holds for `key` exactly the leader of xs. */
  ghost predicate HoldsLeader(best: map<string, Signal>, key: string, xs: seq<Option<Signal>>) {
    && (key in best ==> Leads(xs, best[key]))
    && (key !in best ==> forall k :: 0 <= k < |xs| ==> xs[k].None?)
  }

  lemma KeepLeader(best: map<string, Signal>, key: string, xs: seq<Option<Signal>>, x: Option<Signal>)
    requires HoldsLeader(best, key, xs)
    ensures HoldsLeader(Keep(best, key, x), key, xs + [x])
  {
    var ys := xs + [x];
    if key in best {
      var k :| LeadsAt(xs, k) && xs[k] == Some(best[key]);
      if x.None? || Abs(x.value.score) <= Abs(best[key].score) {
        assert LeadsAt(ys, k) && ys[k] == Some(best[key]);
      } else {
        assert LeadsAt(ys, |xs|) && ys[|xs|] == x;
      }
    } else if x.Some? {
      assert LeadsAt(ys, |xs|) && ys[|xs|] == x;
    }
  }

  /** Another series' signal, or none, changes nothing. */
  lemma KeepNotLeader(best: map<string, Signal>, key: string, xs: seq<Option<Signal>>, other: string, x: Option<Signal>)
    requires HoldsLeader(best, key, xs) && (other != key || x.None?)
    ensures HoldsLeader(Keep(best, other, x), key, xs) && HoldsLeader(Keep(best, other, x), key, xs + [None])
  {
    var ys := xs + [None];
    if key in best {
      var k :| LeadsAt(xs, k) && xs[k] == Some(best[key]);
      assert LeadsAt(ys, k) && ys[k] == Some(best[key]);
    }
  }

  /** The check of one metric of a row, seen from one series. */
  lemma LeadStep(b: map<string, Signal>, r: ServiceRow, n: Metric, x: Option<Signal>, service: string, m: Metric,
      xs: seq<Option<Signal>>)
    returns (ys: seq<Option<Signal>>)
    requires HoldsLeader(b, BestKey(service, m), xs)
    ensures ys == if n != m then xs else xs + [if r.service == service then x else None]
    ensures HoldsLeader(Keep(b, BestKey(r.service, n), x), BestKey(service, m), ys)
  {
    BestKeyInjective(service, m, r.service, n);
    hide HoldsLeader, Keep, BestKey;
    if n == m && r.service == service {
      ys := xs + [x];
      KeepLeader(b, BestKey(service, m), xs, x);
    } else {
      ys := if n != m then xs else xs + [None];
      KeepNotLeader(b, BestKey(service, m), xs, BestKey(r.service, n), x);
    }
  }

  lemma {:induction false} BestServiceLeads(c: Windows, rows: seq<ServiceRow>, service: string, m: Metric)
    requires ServiceMetric(m)
    ensures HoldsLeader(BestService(c, rows), BestKey(service, m), ServiceSeries(c, rows, service, m))
  {
    if rows == [] {
    } else {
      var init, r := rows[..|rows| - 1], rows[|rows| - 1];
      var b, xs := BestService(c, init), ServiceSeries(c, init, service, m);
      BestServiceLeads(c, init, service, m);
      ServiceCheckIs(c, r, m);
      hide BestKey, ServiceFires, ServiceSignal, ServiceCheck, HoldsLeader, Keep;
      xs := LeadStep(b, r, ErrorRate, ServiceCheck(c, r, ErrorRate), service, m, xs);
      b := Keep(b, BestKey(r.service, ErrorRate), ServiceCheck(c, r, ErrorRate));
      xs := LeadStep(b, r, P99Latency, ServiceCheck(c, r, P99Latency), service, m, xs);
      b := Keep(b, BestKey(r.service, P99Latency), ServiceCheck(c, r, P99Latency));
      xs := LeadStep(b, r, Throughput, ServiceCheck(c, r, Throughput), service, m, xs);
    }
  }

  lemma {:induction false} BestQueueLeads(c: Windows, rows: seq<QueueRow>, queue: string, m: Metric)
    ensures HoldsLeader(BestQueue(c, rows), BestKey(queue, m), QueueSeries(c, rows, queue, m))
  {
    if rows == [] {
    } else {
      var init, r := rows[..|rows| - 1], rows[|rows| - 1];
      var b, xs, x, key := BestQueue(c, init), QueueSeries(c, init, queue, m), QueueCheck(c, r), BestKey(queue, m);
      BestQueueLeads(c, init, queue, m);
      QueueCheckIs(c, r, m);
      if x.Some? && r.queue == queue && x.value.metric == m {
        KeepLeader(b, key, xs, x);
      } else {
        if x.Some? { BestKeyInjective(queue, m, r.queue, x.value.metric); }
        KeepNotLeader(b, key, xs, QueueSlot(x, r.queue), x);
      }
    }
  }

  /** Every entry stands under the key of its own series. */
  ghost predicate ServiceKeyed(best: map<string, Signal>) {
    forall k :: k in best ==> k == BestKey(best[k].service, best[k].metric) && ServiceMetric(best[k].metric)
  }

  lemma KeepKeyed(b: map<string, Signal>, c: Windows, r: ServiceRow, m: Metric)
    requires ServiceKeyed(b) && ServiceMetric(m)
    ensures ServiceKeyed(Keep(b, BestKey(r.service, m), ServiceCheck(c, r, m)))
  {
    hide BestKey, Above, Beneath, Score, StatsOf;
  }

  lemma {:induction false} BestServiceKeyed(c: Windows, rows: seq<ServiceRow>)
    ensures ServiceKeyed(BestService(c, rows))
  {
    if rows == [] {
    } else {
      var b, r := BestService(c, rows[..|rows| - 1]), rows[|rows| - 1];
      BestServiceKeyed(c, rows[..|rows| - 1]);
      hide BestKey, ServiceCheck, ServiceKeyed, Keep;
      KeepKeyed(b, c, r, ErrorRate);
      b := Keep(b, BestKey(r.service, ErrorRate), ServiceCheck(c, r, ErrorRate));
      KeepKeyed(b, c, r, P99Latency);
      b := Keep(b, BestKey(r.service, P99Latency), ServiceCheck(c, r, P99Latency));
      KeepKeyed(b, c, r, Throughput);
    }
  }

  ghost predicate QueueKeyed(best: map<string, Signal>) {
    forall k :: k in best ==> k == BestKey(best[k].queue, best[k].metric)
  }

  lemma {:induction false} BestQueueKeyed(c: Windows, rows: seq<QueueRow>)
    ensures QueueKeyed(BestQueue(c, rows))
  {
    if rows == [] {
    } else {
      BestQueueKeyed(c, rows[..|rows| - 1]);
      hide BestKey, Above, Score, StatsOf;
    }
  }

  /** The row's series has an entry, and so an answer. */
  lemma ServiceMet(out: seq<Signal>, keys: seq<string>, rows: seq<ServiceRow>, c: Windows, k: nat, m: Metric)
    requires Lists(out, BestService(c, rows), keys) && ServiceKeyed(BestService(c, rows))
    requires k < |rows| && ServiceFires(c, rows[k], m)
    ensures exists x :: x in out && x.service == rows[k].service && x.metric == m
  {
    var key := BestKey(rows[k].service, m);
    FiresServiceMetric(c, rows[k], m);
    BestServiceLeads(c, rows, rows[k].service, m);
    hide BestService, BestKey, ServiceFires, ServiceSignal, Leads;
    assert ServiceSeries(c, rows, rows[k].service, m)[k].Some?;
    var i :| 0 <= i < |keys| && keys[i] == key;
    BestKeyInjective(rows[k].service, m, out[i].service, out[i].metric);
    assert out[i] in out;
  }

  lemma ServiceLed(out: seq<Signal>, keys: seq<string>, rows: seq<ServiceRow>, c: Windows, i: nat)
    requires Lists(out, BestService(c, rows), keys) && ServiceKeyed(BestService(c, rows)) && i < |out|
    ensures Leads(ServiceSeries(c, rows, out[i].service, out[i].metric), out[i])
  {
    hide BestService, BestKey, ServiceFires, ServiceSignal, Leads;
    BestServiceLeads(c, rows, out[i].service, out[i].metric);
  }

  /** The map's values are the answer. */
  lemma ServiceAnswers(out: seq<Signal>, keys: seq<string>, rows: seq<ServiceRow>, c: Windows)
    requires Lists(out, BestService(c, rows), keys)
    ensures ServiceAnswer(out, rows, c)
  {
    BestServiceKeyed(c, rows);
    hide BestService, BestKey, ServiceFires, ServiceSignal, Leads;
    forall x | x in out ensures Leads(ServiceSeries(c, rows, x.service, x.metric), x) {
      var i :| 0 <= i < |out| && out[i] == x;
      ServiceLed(out, keys, rows, c, i);
    }
    forall k, m | 0 <= k < |rows| && ServiceFires(c, rows[k], m)
      ensures exists x :: x in out && x.service == rows[k].service && x.metric == m
    {
      ServiceMet(out, keys, rows, c, k, m);
    }
  }

  lemma FiresServiceMetric(c: Windows, r: ServiceRow, m: Metric)
    requires ServiceFires(c, r, m)
    ensures ServiceMetric(m)
  {
  }

  lemma QueueAnswers(out: seq<Signal>, keys: seq<string>, rows: seq<QueueRow>, c: Windows)
    requires Lists(out, BestQueue(c, rows), keys)
    ensures QueueAnswer(out, rows, c)
  {
    var best := BestQueue(c, rows);
    BestQueueKeyed(c, rows);
    hide BestQueue, BestKey, QueueFires, QueueSignal;
    forall x | x in out ensures Leads(QueueSeries(c, rows, x.queue, x.metric), x) {
      var i :| 0 <= i < |out| && out[i] == x;
      assert keys[i] in best && best[keys[i]] == x;
      BestQueueLeads(c, rows, x.queue, x.metric);
    }
    forall k, m | 0 <= k < |rows| && QueueFires(c, rows[k], m)
      ensures exists x :: x in out && x.queue == rows[k].queue && x.metric == m
    {
      var key := BestKey(rows[k].queue, m);
      BestQueueLeads(c, rows, rows[k].queue, m);
      assert QueueSeries(c, rows, rows[k].queue, m)[k].Some?;
      var i :| 0 <= i < |keys| && keys[i] == key;
      BestKeyInjective(rows[k].queue, m, out[i].queue, out[i].metric);
      assert out[i] in out;
    }
  }
}
