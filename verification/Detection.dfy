/** The per-key baselines, and what the two anomaly detectors compute. */
module Detection {
  import opened Sequences
  import opened Signals
  import opened Statistics
  import opened Baseline

  // -------------------------------------------------------------- contents

  /** What the baselines hold: the window of every key seen so far. */
  type Windows = map<string, seq<Sample>>

  function ServiceKey(service: string, metric: string): string { "svc:" + service + ":" + metric }

  function QueueKey(queue: string, metric: string): string { "q:" + queue + ":" + metric }

  const DEPTH := "depth"

  function WindowFor(c: Windows, key: string): seq<Sample> {
    if key in c then c[key] else []
  }

  /** One sample headed for one window. */
  datatype Entry = Entry(key: string, sample: Sample)

  function Record(c: Windows, e: Entry, window: nat): Windows {
    c[e.key := Push(WindowFor(c, e.key), e.sample, window)]
  }

  function RecordAll(c: Windows, es: seq<Entry>, window: nat): Windows {
    if es == [] then c else Record(RecordAll(c, es[..|es| - 1], window), es[|es| - 1], window)
  }

  function ServiceEntries(r: ServiceRow): seq<Entry> {
    [Entry(ServiceKey(r.service, ErrorRate.Name()), Sample(r.ts, r.errorRate)),
     Entry(ServiceKey(r.service, P99Latency.Name()), Sample(r.ts, r.p99Latency)),
     Entry(ServiceKey(r.service, Throughput.Name()), Sample(r.ts, r.throughput))]
  }

  function QueueEntry(r: QueueRow): Entry {
    Entry(QueueKey(r.queue, DEPTH), Sample(r.ts, r.depth))
  }

  function AllServiceEntries(rows: seq<ServiceRow>): seq<Entry> {
    if rows == [] then [] else AllServiceEntries(rows[..|rows| - 1]) + ServiceEntries(rows[|rows| - 1])
  }

  function AllQueueEntries(rows: seq<QueueRow>): seq<Entry> {
    if rows == [] then [] else AllQueueEntries(rows[..|rows| - 1]) + [QueueEntry(rows[|rows| - 1])]
  }

  lemma {:induction false} RecordAllConcat(c: Windows, a: seq<Entry>, b: seq<Entry>, window: nat)
    ensures RecordAll(c, a + b, window) == RecordAll(RecordAll(c, a, window), b, window)
  {
    if b == [] {
      assert a + b == a;
    } else {
      assert (a + b)[..|a + b| - 1] == a + b[..|b| - 1];
      RecordAllConcat(c, a, b[..|b| - 1], window);
    }
  }

  /** The samples, in order, that went to one key. */
  function SamplesFor(es: seq<Entry>, key: string): seq<Sample> {
    if es == [] then []
    else
      var xs := SamplesFor(es[..|es| - 1], key);
      if es[|es| - 1].key == key then xs + [es[|es| - 1].sample] else xs
  }

  /** From empty baselines, each window depends on its own key's samples only. */
  lemma {:induction false} WindowOfKey(es: seq<Entry>, key: string, window: nat)
    ensures WindowFor(RecordAll(map[], es, window), key) == PushAll(SamplesFor(es, key), window)
  {
    if es == [] {
    } else {
      var es0, e := es[..|es| - 1], es[|es| - 1];
      WindowOfKey(es0, key, window);
      if e.key == key {
        var xs := SamplesFor(es0, key);
        assert (xs + [e.sample])[..|xs|] == xs;
      }
    }
  }

  /** Different services or metrics never share a window, nor do a service and
      a queue. */
  lemma ServiceKeyInjective(s: string, m: Metric, t: string, n: Metric)
    ensures ServiceKey(s, m.Name()) == ServiceKey(t, n.Name()) <==> s == t && m == n
    ensures ServiceKey(s, m.Name()) != QueueKey(t, DEPTH)
  {
    MetricNames(m, n);
    MetricNames(n, m);
    var a, b := ServiceKey(s, m.Name()), ServiceKey(t, n.Name());
    assert a[0] == 's' && QueueKey(t, DEPTH)[0] == 'q';
    if a == b {
      JoinInjective("svc:" + s, m.Name(), "svc:" + t, n.Name(), ':');
      assert s == ("svc:" + s)[4..] && t == ("svc:" + t)[4..];
    }
  }

  class Baselines {
    const window: nat
    var data: map<string, Window>

    ghost predicate Valid()
      reads this, data.Values
    {
      && (forall k :: k in data ==> data[k].window == window)
      && (forall k, k' :: k in data && k' in data && k != k' ==> data[k] != data[k'])
    }

    ghost function Contents(): Windows
      reads this, data.Values
    {
      map k | k in data :: data[k].values
    }

    constructor (window: nat)
      ensures Valid() && this.window == window && Contents() == map[] && data == map[]
    {
      this.window := window;
      data := map[];
    }

    /** The window of a key, created empty on first use. */
    method Get(key: string) returns (w: Window)
      requires Valid()
      modifies this
      ensures Valid() && key in data && data[key] == w
      ensures fresh(data.Values - old(data.Values)) && old(data.Values) <= data.Values
      ensures forall k :: k in old(data) ==> k in data && data[k] == old(data[k])
      ensures forall k :: k in data ==> k in old(data) || k == key
      ensures Contents() == old(Contents())[key := WindowFor(old(Contents()), key)]
    {
      if key in data {
        w := data[key];
      } else {
        w := new Window(window);
        data := data[key := w];
        forall v | v in old(data.Values)
          ensures v in data.Values
        {
          var k :| k in old(data) && old(data[k]) == v;
          assert data[k] == v;
        }
      }
    }

    method Add(key: string, ts: int, value: real)
      requires Valid()
      modifies this, data.Values
      ensures Valid() && fresh(data.Values - old(data.Values))
      ensures Contents() == Record(old(Contents()), Entry(key, Sample(ts, value)), window)
    {
      hide Push;
      var w := Get(key);
      AddTo(key, w, ts, value, Contents());
    }

    /** Adds to the window of a key; no other key has the same window. */
    method AddTo(key: string, w: Window, ts: int, value: real, ghost before: Windows)
      requires Valid() && key in data && data[key] == w && before == Contents()
      modifies w
      ensures Valid() && Contents() == before[key := Push(before[key], Sample(ts, value), window)]
    {
      hide Push;
      w.Add(ts, value);
      assert forall k :: k in data && k != key ==> data[k].values == before[k];
    }

    method AddServiceMetric(ts: int, service: string, metric: Metric, value: real)
      requires Valid()
      modifies this, data.Values
      ensures Valid() && fresh(data.Values - old(data.Values))
      ensures Contents() == Record(old(Contents()), Entry(ServiceKey(service, metric.Name()), Sample(ts, value)),
          window)
    {
      Add("svc:" + service + ":" + metric.Name(), ts, value);
    }

    method AddQueueMetric(ts: int, queue: string, value: real)
      requires Valid()
      modifies this, data.Values
      ensures Valid() && fresh(data.Values - old(data.Values))
      ensures Contents() == Record(old(Contents()), Entry(QueueKey(queue, DEPTH), Sample(ts, value)), window)
    {
      Add("q:" + queue + ":" + DEPTH, ts, value);
    }

    method StatsFor(key: string) returns (st: Option<Stats>)
      requires Valid()
      ensures st == StatsOf(WindowFor(Contents(), key))
    {
      if key in data {
        st := data[key].Stats();
      } else {
        st := None;
      }
    }
  }

  // ------------------------------------------------------------ thresholds

  /** The signal, if any, that one service row fires for one metric. */
  function ServiceCheck(c: Windows, r: ServiceRow, m: Metric): Option<Signal> {
    var st := StatsOf(WindowFor(c, ServiceKey(r.service, m.Name())));
    if st.None? then None
    else
      var v := if m.ErrorRate? then r.errorRate else if m.P99Latency? then r.p99Latency else r.throughput;
      if m.ErrorRate? && Above(v, st.value, 3.0) && v >= 0.10 then
        Some(Signal(r.ts, r.service, "", m, v, st.value.mean, Score(v, st.value), High))
      else if m.P99Latency? && Above(v, st.value, 3.0) && v >= 500.0 then
        Some(Signal(r.ts, r.service, "", m, v, st.value.mean, Score(v, st.value), High))
      else if m.Throughput? && Beneath(v, st.value, 2.0) && v < 0.5 then
        Some(Signal(r.ts, r.service, "", m, v, st.value.mean, Score(v, st.value), Low))
      else None
  }

  /** The signal, if any, that one queue row fires. A DLQ row with messages
      fires dlq_depth without any baseline, and nothing else. */
  function QueueCheck(c: Windows, r: QueueRow): Option<Signal> {
    if r.dlq && r.depth > 0.0 then
      Some(Signal(r.ts, "", r.queue, DlqDepth, r.depth, 0.0, SignedSquare(r.depth), High))
    else
      var st := StatsOf(WindowFor(c, QueueKey(r.queue, DEPTH)));
      if st.Some? && Above(r.depth, st.value, 2.0) && r.depth >= 20.0 then
        Some(Signal(r.ts, "", r.queue, QueueDepth, r.depth, st.value.mean, Score(r.depth, st.value), High))
      else None
  }

  // ------------------------------------------------------------------ best

  function BestKey(name: string, m: Metric): string { name + ":" + m.Name() }

  /** Keeps x under its key when it beats what is there. */
  function Keep(best: map<string, Signal>, key: string, x: Option<Signal>): map<string, Signal> {
    if x.None? then best
    else if key in best && Abs(x.value.score) <= Abs(best[key].score) then best
    else best[key := x.value]
  }

  /** The three checks of one service row. */
  function KeepRow(b: map<string, Signal>, c: Windows, r: ServiceRow): map<string, Signal> {
    var b := Keep(b, BestKey(r.service, ErrorRate), ServiceCheck(c, r, ErrorRate));
    var b := Keep(b, BestKey(r.service, P99Latency), ServiceCheck(c, r, P99Latency));
    Keep(b, BestKey(r.service, Throughput), ServiceCheck(c, r, Throughput))
  }

  function BestService(c: Windows, rows: seq<ServiceRow>): map<string, Signal> {
    if rows == [] then map[] else KeepRow(BestService(c, rows[..|rows| - 1]), c, rows[|rows| - 1])
  }

  function QueueSlot(x: Option<Signal>, queue: string): string {
    BestKey(queue, if x.Some? then x.value.metric else QueueDepth)
  }

  function BestQueue(c: Windows, rows: seq<QueueRow>): map<string, Signal> {
    if rows == [] then map[]
    else
      var x := QueueCheck(c, rows[|rows| - 1]);
      Keep(BestQueue(c, rows[..|rows| - 1]), QueueSlot(x, rows[|rows| - 1].queue), x)
  }

  // ------------------------------------------------- declarative reading

  /** The signals that fire for one service and metric, in row order. */
  function ServiceFired(c: Windows, rows: seq<ServiceRow>, service: string, m: Metric): seq<Signal> {
    if rows == [] then []
    else
      var xs := ServiceFired(c, rows[..|rows| - 1], service, m);
      var x := ServiceCheck(c, rows[|rows| - 1], m);
      if rows[|rows| - 1].service == service && x.Some? then xs + [x.value] else xs
  }

  function QueueFired(c: Windows, rows: seq<QueueRow>, queue: string, m: Metric): seq<Signal> {
    if rows == [] then []
    else
      var xs := QueueFired(c, rows[..|rows| - 1], queue, m);
      var x := QueueCheck(c, rows[|rows| - 1]);
      if rows[|rows| - 1].queue == queue && x.Some? && x.value.metric == m then xs + [x.value] else xs
  }

  /** xs[i] is the first of the entries with the largest |score|. */
  ghost predicate FirstStrongest(xs: seq<Signal>, i: int) {
    && 0 <= i < |xs|
    && (forall j :: 0 <= j < |xs| ==> Abs(xs[j].score) <= Abs(xs[i].score))
    && (forall j :: 0 <= j < i ==> Abs(xs[j].score) < Abs(xs[i].score))
  }

  /** `best` holds for `key` exactly the first strongest of xs. */
  ghost predicate Holds(best: map<string, Signal>, key: string, xs: seq<Signal>) {
    && (key in best <==> xs != [])
    && (key in best ==> exists i :: FirstStrongest(xs, i) && xs[i] == best[key])
  }

  lemma AppendWeaker(xs: seq<Signal>, i: int, x: Signal)
    requires FirstStrongest(xs, i) && Abs(x.score) <= Abs(xs[i].score)
    ensures FirstStrongest(xs + [x], i) && (xs + [x])[i] == xs[i]
  {
  }

  lemma AppendStronger(xs: seq<Signal>, x: Signal)
    requires forall j :: 0 <= j < |xs| ==> Abs(xs[j].score) < Abs(x.score)
    ensures FirstStrongest(xs + [x], |xs|) && (xs + [x])[|xs|] == x
  {
  }

  lemma KeepHolds(best: map<string, Signal>, key: string, xs: seq<Signal>, x: Signal)
    requires Holds(best, key, xs)
    ensures Holds(Keep(best, key, Some(x)), key, xs + [x])
  {
    if key in best {
      var i :| FirstStrongest(xs, i) && xs[i] == best[key];
      if Abs(x.score) <= Abs(best[key].score) {
        AppendWeaker(xs, i, x);
      } else {
        AppendStronger(xs, x);
      }
    } else {
      AppendStronger(xs, x);
    }
  }

  lemma KeepOther(best: map<string, Signal>, key: string, other: string, x: Option<Signal>, xs: seq<Signal>)
    requires Holds(best, key, xs) && (key != other || x.None?)
    ensures Holds(Keep(best, other, x), key, xs)
  {
  }

  lemma BestKeyInjective(a: string, m: Metric, b: string, n: Metric)
    ensures BestKey(a, m) == BestKey(b, n) <==> a == b && m == n
  {
    MetricNames(m, n);
    MetricNames(n, m);
    if BestKey(a, m) == BestKey(b, n) {
      JoinInjective(a, m.Name(), b, n.Name(), ':');
    }
  }

  /** One signal per (service, metric) for which some row fires: the first row
      of largest |deviation|. */
  lemma {:induction false} BestServiceIsFirstStrongest(c: Windows, rows: seq<ServiceRow>, service: string, m: Metric)
    requires m.ErrorRate? || m.P99Latency? || m.Throughput?
    ensures Holds(BestService(c, rows), BestKey(service, m), ServiceFired(c, rows, service, m))
  {
    if rows == [] {
    } else {
      var rows0, r := rows[..|rows| - 1], rows[|rows| - 1];
      var b, xs, key := BestService(c, rows0), ServiceFired(c, rows0, service, m), BestKey(service, m);
      BestServiceIsFirstStrongest(c, rows0, service, m);
      xs := KeepStep(b, c, r, ErrorRate, service, m, xs);
      b := Keep(b, BestKey(r.service, ErrorRate), ServiceCheck(c, r, ErrorRate));
      xs := KeepStep(b, c, r, P99Latency, service, m, xs);
      b := Keep(b, BestKey(r.service, P99Latency), ServiceCheck(c, r, P99Latency));
      xs := KeepStep(b, c, r, Throughput, service, m, xs);
    }
  }

  /** One of the three checks of a row, seen from one (service, metric). */
  lemma KeepStep(b: map<string, Signal>, c: Windows, r: ServiceRow, n: Metric, service: string, m: Metric,
      xs: seq<Signal>)
    returns (ys: seq<Signal>)
    requires Holds(b, BestKey(service, m), xs)
    ensures ys == if m == n && r.service == service && ServiceCheck(c, r, n).Some?
                  then xs + [ServiceCheck(c, r, n).value] else xs
    ensures Holds(Keep(b, BestKey(r.service, n), ServiceCheck(c, r, n)), BestKey(service, m), ys)
  {
    BestKeyInjective(service, m, r.service, n);
    var x := ServiceCheck(c, r, n);
    if m == n && r.service == service && x.Some? {
      ys := xs + [x.value];
      KeepHolds(b, BestKey(service, m), xs, x.value);
    } else {
      ys := xs;
      KeepOther(b, BestKey(service, m), BestKey(r.service, n), x, xs);
    }
  }

  /** The same for queues, where dlq_depth and queue_depth never mix. */
  lemma {:induction false} BestQueueIsFirstStrongest(c: Windows, rows: seq<QueueRow>, queue: string, m: Metric)
    ensures Holds(BestQueue(c, rows), BestKey(queue, m), QueueFired(c, rows, queue, m))
  {
    if rows == [] {
    } else {
      var rows0, r := rows[..|rows| - 1], rows[|rows| - 1];
      var b, xs, key := BestQueue(c, rows0), QueueFired(c, rows0, queue, m), BestKey(queue, m);
      BestQueueIsFirstStrongest(c, rows0, queue, m);
      var x := QueueCheck(c, r);
      if x.Some? {
        BestKeyInjective(queue, m, r.queue, x.value.metric);
        if r.queue == queue && x.value.metric == m {
          KeepHolds(b, key, xs, x.value);
        } else {
          KeepOther(b, key, QueueSlot(x, r.queue), x, xs);
        }
      }
    }
  }

  // -------------------------------------------- what "strongest" means

  /** The statistics a service check reads. */
  function ServiceStats(c: Windows, service: string, m: Metric): Option<Stats> {
    StatsOf(WindowFor(c, ServiceKey(service, m.Name())))
  }

  /** Every fired signal passed its metric's threshold and floor against the same
      statistics. */
  ghost predicate FiredBy(s: Signal, st: Stats, m: Metric) {
    && s.metric == m && s.baseline == st.mean && s.score == Score(s.value, st)
    && (if m.Throughput? then s.direction.Low? && Beneath(s.value, st, 2.0) && s.value < 0.5
        else s.direction.High? && Above(s.value, st, if m.QueueDepth? then 2.0 else 3.0))
    && (m.ErrorRate? ==> s.value >= 0.10) && (m.P99Latency? ==> s.value >= 500.0)
    && (m.QueueDepth? ==> s.value >= 20.0)
  }

  lemma {:induction false} ServiceFiredBy(c: Windows, rows: seq<ServiceRow>, service: string, m: Metric)
    requires m.ErrorRate? || m.P99Latency? || m.Throughput?
    ensures forall s :: s in ServiceFired(c, rows, service, m) ==>
      s.service == service && s.queue == "" && ServiceStats(c, service, m).Some?
          && FiredBy(s, ServiceStats(c, service, m).value, m)
  {
    if rows == [] {
    } else {
      ServiceFiredBy(c, rows[..|rows| - 1], service, m);
    }
  }

  lemma {:induction false} QueueFiredBy(c: Windows, rows: seq<QueueRow>, queue: string)
    ensures forall s :: s in QueueFired(c, rows, queue, QueueDepth) ==>
      s.queue == queue && s.service == "" && StatsOf(WindowFor(c, QueueKey(queue, DEPTH))).Some?
          && FiredBy(s, StatsOf(WindowFor(c, QueueKey(queue, DEPTH))).value, QueueDepth)
  {
    if rows == [] {
    } else {
      QueueFiredBy(c, rows[..|rows| - 1], queue);
    }
  }

  lemma ScoreOrder(v: real, v': real, st: Stats)
    requires st.variance > 0.0
    requires (v > st.mean && v' > st.mean) || (v < st.mean && v' < st.mean)
    ensures Abs(Score(v, st)) < Abs(Score(v', st)) <==> Abs(v - st.mean) < Abs(v' - st.mean)
  {
    var d, d', a := v - st.mean, v' - st.mean, st.variance;
    assert Square(-d) == Square(d) && Square(-d') == Square(d');
    SquareOrder(Abs(d'), Abs(d));
    SquareNonNegative(d);
    SquareNonNegative(d');
    AbsQuotient(SignedSquare(d), a);
    AbsQuotient(SignedSquare(d'), a);
    DivOrder(Square(d), Square(d'), a);
  }

  lemma AbsQuotient(x: real, a: real)
    requires a > 0.0
    ensures Abs(x / a) == Abs(x) / a
  {
    if x < 0.0 {
      assert x / a < 0.0;
      assert -(x / a) == -x / a;
    } else {
      assert x / a >= 0.0;
    }
  }

  lemma DivOrder(x: real, y: real, a: real)
    requires a > 0.0
    ensures x / a < y / a <==> x < y
  {
  }

  /** With a spread-out baseline the strongest signal is the first one with the
      largest value (smallest for throughput); with a flat one, the first. */
  lemma StrongestByValue(xs: seq<Signal>, i: int, st: Stats, m: Metric)
    requires st.variance >= 0.0 && FirstStrongest(xs, i)
    requires forall s :: s in xs ==> FiredBy(s, st, m)
    ensures st.variance == 0.0 ==> i == 0
    ensures st.variance > 0.0 && !m.Throughput? ==>
      (forall j :: 0 <= j < |xs| ==> xs[j].value <= xs[i].value) && forall j :: 0 <= j < i ==> xs[j].value < xs[i].value
    ensures st.variance > 0.0 && m.Throughput? ==>
      (forall j :: 0 <= j < |xs| ==> xs[j].value >= xs[i].value) && forall j :: 0 <= j < i ==> xs[j].value > xs[i].value
  {
    if st.variance == 0.0 {
      forall j | 0 <= j < |xs| ensures xs[j].score == 0.0 { assert xs[j] in xs; }
      assert Abs(xs[0].score) == Abs(xs[i].score);
    } else {
      forall j | 0 <= j < |xs|
        ensures !m.Throughput? ==> xs[j].value <= xs[i].value && (j < i ==> xs[j].value < xs[i].value)
        ensures m.Throughput? ==> xs[j].value >= xs[i].value && (j < i ==> xs[j].value > xs[i].value)
      {
        assert xs[i] in xs && xs[j] in xs;
        ScoreOrder(xs[j].value, xs[i].value, st);
        ScoreOrder(xs[i].value, xs[j].value, st);
      }
    }
  }

  /** A DLQ signal's score grows with its depth, so the deepest row is kept. */
  lemma {:induction false} DlqFired(c: Windows, rows: seq<QueueRow>, queue: string)
    ensures forall s :: s in QueueFired(c, rows, queue, DlqDepth) ==>
      s.queue == queue && s.service == "" && s.value > 0.0 && s.score == SignedSquare(s.value)
  {
    if rows == [] {
    } else {
      DlqFired(c, rows[..|rows| - 1], queue);
    }
  }

  lemma DlqKeepsDeepest(c: Windows, rows: seq<QueueRow>, queue: string, i: int)
    requires FirstStrongest(QueueFired(c, rows, queue, DlqDepth), i)
    ensures var xs := QueueFired(c, rows, queue, DlqDepth);
      (forall j :: 0 <= j < |xs| ==> xs[j].value <= xs[i].value) && forall j :: 0 <= j < i ==> xs[j].value < xs[i].value
  {
    var xs := QueueFired(c, rows, queue, DlqDepth);
    DlqFired(c, rows, queue);
    forall j | 0 <= j < |xs|
      ensures xs[j].value <= xs[i].value && (j < i ==> xs[j].value < xs[i].value)
    {
      assert xs[i] in xs && xs[j] in xs;
      SquareNonNegative(xs[i].value);
      SquareNonNegative(xs[j].value);
      SquareOrder(xs[j].value, xs[i].value);
      SquareOrder(xs[i].value, xs[j].value);
    }
  }

  // ----------------------------------------------------- own baseline

  /** A sample stays in its window while every later sample of the key is at
      most `window` younger. */
  lemma {:induction false} RecordedStays(c: Windows, es: seq<Entry>, i: nat, window: nat)
    requires i < |es|
    requires forall j :: i <= j < |es| && es[j].key == es[i].key ==> es[j].sample.ts <= es[i].sample.ts + window
    ensures es[i].sample in WindowFor(RecordAll(c, es, window), es[i].key)
  {
    var es0, e := es[..|es| - 1], es[|es| - 1];
    var c0 := RecordAll(c, es0, window);
    if i < |es0| {
      RecordedStays(c, es0, i, window);
    }
    if e.key == es[i].key {
      var w := WindowFor(c0, e.key) + [e.sample];
      assert es[i].sample in w by { assert i == |es0| ==> w[|w| - 1] == es[i].sample; }
      var k :| 0 <= k < |w| && w[k] == es[i].sample;
      DropStaleKeeps(w, e.sample.ts - window, k);
    }
  }

  // ------------------------------------------------- values of a map

  /** `out` lists the values of `best`, each key once, in some order. */
  ghost predicate Lists(out: seq<Signal>, best: map<string, Signal>, keys: seq<string>) {
    && |keys| == |out|
    && (forall i, j :: 0 <= i < j < |keys| ==> keys[i] != keys[j])
    && (forall k :: k in best ==> k in keys)
    && (forall i :: 0 <= i < |keys| ==> keys[i] in best && best[keys[i]] == out[i])
  }

  ghost predicate Listing(out: seq<Signal>, best: map<string, Signal>) { exists keys :: Lists(out, best, keys) }

  lemma ListsIsListing(out: seq<Signal>, best: map<string, Signal>, keys: seq<string>)
    requires Lists(out, best, keys)
    ensures Listing(out, best)
  {
  }
}
