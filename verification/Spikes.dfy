/** The smallest window against which a spike of its own shows: ten equal samples
    and a larger one. */
module Spikes {
  import opened Sequences
  import opened Signals
  import opened Statistics
  import opened Baseline
  import opened Detection
  import opened Answers

  /** Ten samples of value v, then one of value u. */
  ghost predicate Spiked(w: seq<Sample>, v: real, u: real) {
    |w| == 11 && (forall k :: 0 <= k < 10 ==> w[k].value == v) && w[10].value == u
  }

  lemma {:induction false} FlatSum(w: seq<Sample>, f: real -> real, v: real)
    requires forall x :: x in w ==> x.value == v
    ensures SumOver(w, f) == |w| as real * f(v)
  {
    if w == [] {
    } else {
      FlatSum(w[..|w| - 1], f, v);
      assert w[|w| - 1] in w;
      var n := (|w| - 1) as real;
      assert |w| as real == n + 1.0;
      assert (n + 1.0) * f(v) == n * f(v) + f(v);
    }
  }

  lemma SpikedSum(w: seq<Sample>, f: real -> real, v: real, u: real)
    requires Spiked(w, v, u)
    ensures SumOver(w, f) == 10.0 * f(v) + f(u)
  {
    FlatSum(w[..10], f, v);
  }

  /** Eleven samples suffice: the larger one passes the 3-sigma test with score 10. */
  lemma SpikeFires(w: seq<Sample>, v: real, u: real)
    requires Spiked(w, v, u) && v < u
    ensures StatsOf(w).Some? && StatsOf(w).value.mean == v + (u - v) / 11.0
    ensures Above(u, StatsOf(w).value, 3.0) && Score(u, StatsOf(w).value) == 10.0
  {
    var m, d := Mean(w), (u - v) / 11.0;
    SpikedSum(w, Value(), v, u);
    assert m == v + d;
    SpikedSum(w, SquaredDistance(m), v, u);
    assert Minus(v, m) == -d && Minus(u, m) == 10.0 * d;
    SpikeAlgebra(d);
    assert 11.0 * Variance(w) == 110.0 * Square(d);
    assert Variance(w) == 10.0 * Square(d);
  }

  lemma SpikeAlgebra(d: real)
    requires d > 0.0
    ensures 10.0 * Square(-d) + Square(10.0 * d) == 110.0 * Square(d)
    ensures Square(10.0 * d) > Square(3.0) * (10.0 * Square(d)) && Square(d) > 0.0
    ensures SignedSquare(10.0 * d) / (10.0 * Square(d)) == 10.0
  {
    SquarePositive(d);
    assert Square(10.0 * d) == 100.0 * Square(d) && Square(-d) == Square(d) && Square(3.0) == 9.0;
    hide Square;
    TenTimes(Square(d));
  }

  lemma TenTimes(e: real)
    requires e > 0.0
    ensures 100.0 * e / (10.0 * e) == 10.0
  {
    assert 100.0 * e == 10.0 * (10.0 * e);
  }

  // --------------------------------------------------------------- rows

  /** Eleven rows of one service within a minute, of which the last spikes in
      errors and latency. */
  ghost predicate SpikedRows(rows: seq<ServiceRow>, service: string) {
    && |rows| == 11
    && (forall k :: 0 <= k < 11 ==> rows[k].service == service && 0 <= rows[k].ts <= 60000 && rows[k].throughput == 1.0)
    && (forall k :: 0 <= k < 10 ==> rows[k].errorRate == 0.0 && rows[k].p99Latency == 100.0)
    && rows[10].errorRate == 1.0 && rows[10].p99Latency == 1000.0
  }

  function Reading(r: ServiceRow, m: Metric): Sample { Sample(r.ts, Measured(r, m)) }

  lemma {:induction false} SamplesSplit(a: seq<Entry>, b: seq<Entry>, key: string)
    ensures SamplesFor(a + b, key) == SamplesFor(a, key) + SamplesFor(b, key)
  {
    if b == [] {
      assert a + b == a;
    } else {
      assert (a + b)[..|a + b| - 1] == a + b[..|b| - 1];
      SamplesSplit(a, b[..|b| - 1], key);
    }
  }

  lemma RowSample(r: ServiceRow, m: Metric)
    requires ServiceMetric(m)
    ensures SamplesFor(ServiceEntries(r), ServiceKey(r.service, m.Name())) == [Reading(r, m)]
  {
    ServiceKeyInjective(r.service, m, r.service, ErrorRate);
    ServiceKeyInjective(r.service, m, r.service, P99Latency);
    ServiceKeyInjective(r.service, m, r.service, Throughput);
    hide ServiceKey;
    var es := ServiceEntries(r);
    assert es[..2] == [es[0], es[1]] && es[..2][..1] == [es[0]] && [es[0]][..0] == [];
    assert SamplesFor([es[0]], ServiceKey(r.service, m.Name())) == if m.ErrorRate? then [es[0].sample] else [];
  }

  /** The samples of one service are its rows' readings, in order. */
  lemma {:induction false} RowSamples(rows: seq<ServiceRow>, service: string, m: Metric)
    requires ServiceMetric(m) && forall k :: 0 <= k < |rows| ==> rows[k].service == service
    ensures var xs := SamplesFor(AllServiceEntries(rows), ServiceKey(service, m.Name()));
      |xs| == |rows| && forall k :: 0 <= k < |rows| ==> xs[k] == Reading(rows[k], m)
  {
    if rows == [] {
    } else {
      var init, r := rows[..|rows| - 1], rows[|rows| - 1];
      RowSamples(init, service, m);
      SamplesSplit(AllServiceEntries(init), ServiceEntries(r), ServiceKey(service, m.Name()));
      RowSample(r, m);
      var key := ServiceKey(service, m.Name());
      assert SamplesFor(AllServiceEntries(rows), key)
          == SamplesFor(AllServiceEntries(init), key) + SamplesFor(ServiceEntries(r), key);
      hide *;
    }
  }

  lemma {:induction false} NoQueueSamples(rows: seq<QueueRow>, service: string, m: Metric)
    ensures SamplesFor(AllQueueEntries(rows), ServiceKey(service, m.Name())) == []
  {
    if rows == [] {
    } else {
      NoQueueSamples(rows[..|rows| - 1], service, m);
      ServiceKeyInjective(service, m, rows[|rows| - 1].queue, m);
      hide ServiceKey, QueueKey;
    }
  }

  /** Samples of one minute all stay. */
  lemma {:induction false} YoungStay(xs: seq<Sample>)
    requires forall x :: x in xs ==> 0 <= x.ts <= 60000
    ensures PushAll(xs, 60000) == xs
  {
    if xs == [] {
    } else {
      var ys, x := xs[..|xs| - 1], xs[|xs| - 1];
      YoungStay(ys);
      assert xs == ys + [x] && xs[0] in xs && x in xs;
    }
  }

  function WindowsAfter(rows: seq<ServiceRow>, queueRows: seq<QueueRow>): Windows {
    RecordAll(map[], AllServiceEntries(rows) + AllQueueEntries(queueRows), 60000)
  }

  lemma SpikedWindow(rows: seq<ServiceRow>, queueRows: seq<QueueRow>, service: string, m: Metric)
    requires SpikedRows(rows, service) && ServiceMetric(m)
    ensures var w := WindowFor(WindowsAfter(rows, queueRows), ServiceKey(service, m.Name()));
      Spiked(w, Reading(rows[0], m).value, Reading(rows[10], m).value)
  {
    var es, key := AllServiceEntries(rows) + AllQueueEntries(queueRows), ServiceKey(service, m.Name());
    WindowOfKey(es, key, 60000);
    SamplesSplit(AllServiceEntries(rows), AllQueueEntries(queueRows), key);
    RowSamples(rows, service, m);
    NoQueueSamples(queueRows, service, m);
    hide SamplesFor, AllServiceEntries, AllQueueEntries, RecordAll, ServiceKey;
    YoungStay(SamplesFor(es, key));
  }

  // ----------------------------------------------------------- detection

  function ErrorSpike(r: ServiceRow): Signal {
    Signal(r.ts, r.service, "", ErrorRate, 1.0, 1.0 / 11.0, 10.0, High)
  }

  function LatencySpike(r: ServiceRow): Signal {
    Signal(r.ts, r.service, "", P99Latency, 1000.0, 2000.0 / 11.0, 10.0, High)
  }

  lemma SpikeChecked(rows: seq<ServiceRow>, queueRows: seq<QueueRow>, service: string)
    requires SpikedRows(rows, service)
    ensures var c, r := WindowsAfter(rows, queueRows), rows[10];
      && ServiceCheck(c, r, ErrorRate) == Some(ErrorSpike(r))
      && ServiceCheck(c, r, P99Latency) == Some(LatencySpike(r))
      && ServiceCheck(c, r, Throughput) == None
  {
    var c := WindowsAfter(rows, queueRows);
    SpikedWindow(rows, queueRows, service, ErrorRate);
    SpikedWindow(rows, queueRows, service, P99Latency);
    hide WindowsAfter, ServiceKey, StatsOf, Above, Score, Spiked, WindowFor;
    SpikeFires(WindowFor(c, ServiceKey(service, ErrorRate.Name())), 0.0, 1.0);
    SpikeFires(WindowFor(c, ServiceKey(service, P99Latency.Name())), 100.0, 1000.0);
  }

  lemma {:induction false} CalmDetected(c: Windows, rows: seq<ServiceRow>)
    requires forall r :: r in rows ==> r.errorRate < 0.10 && r.p99Latency < 500.0 && r.throughput >= 0.5
    ensures BestService(c, rows) == map[]
  {
    if rows == [] {
    } else {
      CalmDetected(c, rows[..|rows| - 1]);
      assert rows[|rows| - 1] in rows;
      hide Above, Beneath, StatsOf, Score;
    }
  }

  /** The spike is detected in both metrics, and nothing else is. */
  lemma SpikeDetected(rows: seq<ServiceRow>, queueRows: seq<QueueRow>, service: string)
    requires SpikedRows(rows, service)
    ensures BestKey(service, ErrorRate) != BestKey(service, P99Latency)
    ensures BestService(WindowsAfter(rows, queueRows), rows)
            == map[BestKey(service, ErrorRate) := ErrorSpike(rows[10]),
                   BestKey(service, P99Latency) := LatencySpike(rows[10])]
  {
    var c := WindowsAfter(rows, queueRows);
    SpikeChecked(rows, queueRows, service);
    CalmDetected(c, rows[..10]);
    BestKeyInjective(service, ErrorRate, service, P99Latency);
    hide BestKey, ServiceCheck, ErrorSpike, LatencySpike, WindowsAfter;
    assert BestService(c, rows) == KeepRow(map[], c, rows[10]);
  }
}
