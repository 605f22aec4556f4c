/** Rows, signals and the static topology that the monitor's stages share. */
module Signals {
  import opened Sequences

  datatype Metric = ErrorRate | P99Latency | Throughput | QueueDepth | DlqDepth {
    function Name(): string {
      match this
      case ErrorRate => "error_rate"
      case P99Latency => "p99_latency"
      case Throughput => "throughput"
      case QueueDepth => "queue_depth"
      case DlqDepth => "dlq_depth"
    }
  }

  lemma MetricNames(m: Metric, n: Metric)
    ensures ':' !in m.Name() && '|' !in m.Name()
    ensures m.Name() == n.Name() ==> m == n
  {
    assert "error_rate"[0] == 'e' && "p99_latency"[0] == 'p' && "throughput"[0] == 't';
    assert "queue_depth"[0] == 'q' && "dlq_depth"[0] == 'd';
  }

  datatype ServiceRow = ServiceRow(ts: int, service: string, throughput: real, errorRate: real, p99Latency: real)

  datatype QueueRow = QueueRow(ts: int, queue: string, depth: real, dlq: bool)

  datatype FaultAction = Start | Stop

  datatype FaultEvent = FaultEvent(ts: int, faultType: string, action: FaultAction, origin: string)

  datatype Direction = High | Low

  /** An anomaly signal. `score` is the signed square of the source's
      `Deviation`: with d = (value - baseline) / stddev it is d * |d|, and 0
      when the stddev is 0. It needs no square root and orders exactly as the
      deviation does (see Statistics.ScoreOrdersLikeDeviation). */
  datatype Signal = Signal(
    ts: int, service: string, queue: string, metric: Metric,
    value: real, baseline: real, score: real, direction: Direction)

  function Abs(x: real): real { if x < 0.0 then -x else x }

  /** Depth of a service in the pipeline; smaller is more upstream. */
  function TopologyDepth(service: string): Option<nat> {
    if service == "api-gateway" then Some(0)
    else if service == "order" then Some(1)
    else if service == "payment" then Some(2)
    else if service == "fulfillment" || service == "notification" then Some(3)
    else None
  }

  const UNKNOWN_DEPTH: nat := 999

  /** The depth root nomination uses: unknown services come last. */
  function Rank(service: string): nat {
    var d := TopologyDepth(service);
    if d.Some? then d.value else UNKNOWN_DEPTH
  }

  /** The service that writes to a queue. */
  function QueueOwner(queue: string): Option<string> {
    if queue == "order-queue" then Some("order")
    else if queue == "payment-queue" || queue == "payment-dlq" then Some("payment")
    else if queue == "notification-dlq" then Some("notification")
    else None
  }

  function ServiceForSignal(s: Signal): string {
    if s.service != "" then s.service
    else
      var owner := QueueOwner(s.queue);
      if owner.Some? then owner.value else s.queue
  }

  predicate IsDlqSignal(s: Signal) { s.metric.DlqDepth? }

  function SignalKey(s: Signal): string {
    s.service + "|" + s.queue + "|" + s.metric.Name()
  }

  /** A signal that names a service or a queue. */
  predicate Named(s: Signal) { s.service != "" || s.queue != "" }

  lemma NamedHasService(s: Signal)
    requires Named(s)
    ensures ServiceForSignal(s) != ""
  {
  }

  /** Joining with a separator that the right part lacks can be undone. */
  lemma JoinInjective(a: string, b: string, a': string, b': string, sep: char)
    requires sep !in b && sep !in b'
    requires a + [sep] + b == a' + [sep] + b'
    ensures a == a' && b == b'
  {
    var s, s' := a + [sep] + b, a' + [sep] + b';
    assert s[|a|] == sep && s'[|a'|] == sep;
    assert |a| == |a'|;
    assert a == s[..|a|] && a' == s'[..|a|];
    assert b == s[|a| + 1..] && b' == s'[|a| + 1..];
  }

  /** Two signals share a key exactly when they agree on service, queue and
      metric, provided no queue name contains the separator. */
  lemma SignalKeyInjective(s: Signal, t: Signal)
    requires '|' !in s.queue && '|' !in t.queue
    ensures SignalKey(s) == SignalKey(t) <==> s.service == t.service && s.queue == t.queue && s.metric == t.metric
  {
    MetricNames(s.metric, t.metric);
    MetricNames(t.metric, s.metric);
    if SignalKey(s) == SignalKey(t) {
      JoinInjective(s.service + "|" + s.queue, s.metric.Name(), t.service + "|" + t.queue, t.metric.Name(), '|');
      JoinInjective(s.service, s.queue, t.service, t.queue, '|');
    }
  }

  /** What the detectors emit: a service metric of a service, or a queue metric of
      a queue. */
  predicate OneSided(s: Signal) {
    if s.metric.QueueDepth? || s.metric.DlqDepth? then s.service == "" else s.queue == ""
  }

  predicate SameSeries(s: Signal, t: Signal) {
    s.service == t.service && s.queue == t.queue && s.metric == t.metric
  }

  /** Among what the detectors emit, keys tell series apart whatever their names. */
  lemma OneSidedKeys(s: Signal, t: Signal)
    requires OneSided(s) && OneSided(t)
    ensures SignalKey(s) == SignalKey(t) <==> SameSeries(s, t)
  {
    MetricNames(s.metric, t.metric);
    MetricNames(t.metric, s.metric);
    if SignalKey(s) == SignalKey(t) {
      var a, b := s.service + "|" + s.queue, t.service + "|" + t.queue;
      JoinInjective(a, s.metric.Name(), b, t.metric.Name(), '|');
      if s.metric.QueueDepth? || s.metric.DlqDepth? {
        assert s.queue == a[1..] && t.queue == b[1..];
      } else {
        assert s.service == a[..|a| - 1] && t.service == b[..|b| - 1];
      }
    }
  }

  /** In general a signal shares its key with some other series exactly if the
      separator occurs in its service or its queue. */
  lemma KeySharedIff(s: Signal)
    ensures (exists t :: SignalKey(t) == SignalKey(s) && !SameSeries(t, s)) <==> '|' in s.service || '|' in s.queue
  {
    if '|' in s.service || '|' in s.queue {
      var t := AnotherOfKey(s);
    } else {
      forall t | SignalKey(t) == SignalKey(s)
        ensures SameSeries(t, s)
      {
        NoOtherOfKey(s, t);
      }
    }
  }

  /** Moves the separator: what stood before it becomes the service. */
  lemma AnotherOfKey(s: Signal) returns (t: Signal)
    requires '|' in s.service || '|' in s.queue
    ensures SignalKey(t) == SignalKey(s) && !SameSeries(t, s)
  {
    var whole := s.service + "|" + s.queue;
    if '|' in s.service {
      var k :| 0 <= k < |s.service| && s.service[k] == '|';
      t := s.(service := s.service[..k], queue := s.service[k + 1..] + "|" + s.queue);
      assert s.service == s.service[..k] + "|" + s.service[k + 1..];
    } else {
      var k :| 0 <= k < |s.queue| && s.queue[k] == '|';
      t := s.(service := s.service + "|" + s.queue[..k], queue := s.queue[k + 1..]);
      assert s.queue == s.queue[..k] + "|" + s.queue[k + 1..];
    }
    assert t.service + "|" + t.queue == whole;
  }

  lemma NoOtherOfKey(s: Signal, t: Signal)
    requires '|' !in s.service && '|' !in s.queue && SignalKey(t) == SignalKey(s)
    ensures SameSeries(t, s)
  {
    var a, b := s.service + "|" + s.queue, t.service + "|" + t.queue;
    MetricNames(s.metric, t.metric);
    MetricNames(t.metric, s.metric);
    JoinInjective(a, s.metric.Name(), b, t.metric.Name(), '|');
    assert b[|t.service|] == '|';
    assert |t.service| == |s.service|;
    assert t.service == b[..|t.service|] && s.service == a[..|s.service|];
    assert t.queue == b[|t.service| + 1..] && s.queue == a[|s.service| + 1..];
  }
}
