/** What the metric rows of the payment and the order service tell about the
    messages on their queues, under every interleaving. */
module Metrics {
  import opened Sequences
  import opened Messages
  import opened Broker
  import opened BrokerLaws
  import opened BrokerRuns
  import opened Pipeline
  import opened PipelineLaws
  import opened Accounts
  import opened PipelineRuns
  import opened Quiescence

  // ------------------------------------------------------------- payments

  /** A goroutine together with what it is doing to the queues. */
  type Actor = (Thread, Client)

  function Actors(threads: seq<Thread>, clients: seq<Client>): (r: seq<Actor>)
    requires |threads| == |clients|
    ensures |r| == |threads| && forall i :: 0 <= i < |r| ==> r[i] == (threads[i], clients[i])
  {
    if threads == [] then []
    else Actors(threads[..|threads| - 1], clients[..|clients| - 1]) + [(threads[|threads| - 1], clients[|clients| - 1])]
  }

  predicate IsPayer(t: Thread) { t.Worker? && t.job.svc.Payment? }

  /** Between the send to payment-queue and the count of it. */
  predicate IsUncounted(a: Actor) {
    IsPayer(a.0) && a.0.job.pc.Approving? && Pending(a.1.io, PAYMENT_QUEUE, All) == 0
  }

  function Uncounted(): Actor -> bool { (a: Actor) => IsUncounted(a) }

  /** Payments given up at cancellation. */
  function GivenUpBy(a: Actor): int { if IsPayer(a.0) then Count(a.1.log, LossesAt(PAYMENT_QUEUE, All)) else 0 }
  function GivenUp(): Actor -> int { (a: Actor) => GivenUpBy(a) }

  /** Messages that producers from outside put on payment-queue. */
  function BroughtBy(a: Actor): int { if a.0.Outside? then Count(a.1.log, StoresIn(PAYMENT_QUEUE, All)) else 0 }
  function Brought(): Actor -> int { (a: Actor) => BroughtBy(a) }

  /** What one goroutine put on payment-queue, from its count of successes. */
  lemma StoredPayments(s: System, i: nat)
    requires Reached(s) && i < |s.threads|
    ensures |s.broker.clients| == |s.threads|
    ensures var a := (s.threads[i], s.broker.clients[i]);
      Count(a.1.log, StoresIn(PAYMENT_QUEUE, All))
      == CountedBy(Payment, Processed, a.0) + One(IsUncounted(a)) - GivenUpBy(a) + BroughtBy(a)
  {
    ReachedIsOk(s);
    var t, c := s.threads[i], s.broker.clients[i];
    assert ThreadOk(i, t, c);
    StoresOf(s, i, PAYMENT_QUEUE, All);
    PendingNonNegative(c.io, PAYMENT_QUEUE, All);
    if t.Worker? {
      assert Count(c.log, CallsTo(PAYMENT_QUEUE, All)) == InLetter(Letter(i, t.job), PAYMENT_QUEUE, All);
      PayerStores(i, t.job, c);
    } else if t.Ticker? {
      NoneCalled(c.log, PAYMENT_QUEUE, All);
    }
  }

  lemma PayerStores(i: nat, w: Job, c: Client)
    requires JobOk(w) && (c.io != Free ==> InSend(w.pc))
    requires InLetter(Letter(i, w), PAYMENT_QUEUE, All)
             == Count(c.log, StoresIn(PAYMENT_QUEUE, All)) + Count(c.log, LossesAt(PAYMENT_QUEUE, All))
                + Pending(c.io, PAYMENT_QUEUE, All)
    ensures Count(c.log, StoresIn(PAYMENT_QUEUE, All))
            == CountedBy(Payment, Processed, Worker(w)) + One(IsUncounted((Worker(w), c))) - GivenUpBy((Worker(w), c))
  {
    PendingNonNegative(c.io, PAYMENT_QUEUE, All);
    if c.io == Free {
      assert Pending(c.io, PAYMENT_QUEUE, All) == 0;
    }
    hide Count, Pending;
  }

  /** The sums over goroutines, once the amounts agree for each of them. */
  lemma {:induction false} StoresAddUp(threads: seq<Thread>, clients: seq<Client>)
    requires |threads| == |clients|
    requires forall i :: 0 <= i < |threads| ==>
      Share(Stores, PAYMENT_QUEUE, All)(clients[i])
      == Part(Counted(Payment, Processed))(threads[i])
         + One(IsUncounted((threads[i], clients[i]))) - GivenUpBy((threads[i], clients[i]))
         + BroughtBy((threads[i], clients[i]))
    ensures var actors := Actors(threads, clients);
      Sum(clients, Share(Stores, PAYMENT_QUEUE, All))
      == Sum(threads, Part(Counted(Payment, Processed))) + Count(actors, Uncounted())
         - Sum(actors, GivenUp()) + Sum(actors, Brought())
  {
    if threads == [] {
    } else {
      var n := |threads| - 1;
      var actors, a := Actors(threads[..n], clients[..n]), (threads[n], clients[n]);
      StoresAddUp(threads[..n], clients[..n]);
      assert Actors(threads, clients) == actors + [a];
      CountSnoc(actors, a, Uncounted());
      SumSnoc(actors, a, GivenUp());
      SumSnoc(actors, a, Brought());
      hide Actors, Count, CountedBy, IsUncounted, GivenUpBy, BroughtBy, ShareOf;
    }
  }

  /** Payments in every reachable state: what was ever put on payment-queue is
      what was ever counted as processed, plus the goroutines between the send
      and the count, less what was given up at cancellation, plus what came
      from outside. */
  lemma PaymentsCounted(s: System)
    requires Reached(s)
    ensures |s.broker.queues| == 5 && |s.threads| == |s.broker.clients|
    ensures var actors := Actors(s.threads, s.broker.clients);
      |s.broker.queues[PAYMENT_QUEUE].put|
      == Ever(s.payment, Processed) + Count(actors, Uncounted()) - Sum(actors, GivenUp()) + Sum(actors, Brought())
  {
    ReachedIsOk(s);
    QueueStores(s, PAYMENT_QUEUE, All);
    TallyAll(s.broker.queues[PAYMENT_QUEUE].put);
    forall i: nat | i < |s.threads|
      ensures Share(Stores, PAYMENT_QUEUE, All)(s.broker.clients[i])
              == Part(Counted(Payment, Processed))(s.threads[i])
                 + One(IsUncounted((s.threads[i], s.broker.clients[i])))
                 - GivenUpBy((s.threads[i], s.broker.clients[i])) + BroughtBy((s.threads[i], s.broker.clients[i]))
    {
      StoredPayments(s, i);
    }
    StoresAddUp(s.threads, s.broker.clients);
    assert Accounts.Shown(s, Counted(Payment, Processed)) == Sum(s.threads, Part(Counted(Payment, Processed)));
  }

  /** Uncancelled and with nobody sending from outside, the messages on
      payment-queue are the processed payments and those about to be counted. */
  lemma ApprovedSends(s: System)
    requires Reached(s) && !s.broker.cancelled && Closed(s)
    ensures |s.broker.queues| == 5 && |s.threads| == |s.broker.clients|
    ensures |s.broker.queues[PAYMENT_QUEUE].put|
            == Ever(s.payment, Processed) + Count(Actors(s.threads, s.broker.clients), Uncounted())
  {
    PaymentsCounted(s);
    var actors := Actors(s.threads, s.broker.clients);
    forall i: nat | i < |actors| ensures GivenUp()(actors[i]) == 0 && Brought()(actors[i]) == 0 {
      NothingLost(s, i, PAYMENT_QUEUE, All);
    }
    SumZero(actors, GivenUp());
    SumZero(actors, Brought());
  }

  // --------------------------------------------------------------- orders

  /** Requests counted in these rows that were neither sent nor failed in them. */
  function Carry(rows: seq<Row>): int {
    Sum(rows, Entries(Total)) - Sum(rows, Entries(Processed)) - Sum(rows, Entries(Errors))
  }

  /** A tick of the order loop is under way: its request is counted, its end not. */
  predicate MidTick(s: System) { |s.threads| > 0 && s.threads[0].OrderLoop? && !s.threads[0].opc.Waiting? }

  /** A column of the order service's meter is the order loop's own count. */
  lemma OrderColumn(s: System, col: Column)
    requires SystemOk(s) && BooksKept(s)
    ensures s.threads[0].OrderLoop? && Ever(s.order, col) == CountedBy(Order, col, s.threads[0])
  {
    forall k | 0 <= k < |s.threads| && k != 0 ensures Part(Counted(Order, col))(s.threads[k]) == 0 {
      assert ThreadOk(k, s.threads[k], s.broker.clients[k]);
    }
    SumOnly(s.threads, 0, Part(Counted(Order, col)));
    assert Accounts.Shown(s, Counted(Order, col)) == Sum(s.threads, Part(Counted(Order, col)));
  }

  /** The cumulative law: all requests are sent or failed, but the one under way. */
  lemma OrderLaw(s: System)
    requires Reached(s)
    ensures Ever(s.order, Total) - Ever(s.order, Processed) - Ever(s.order, Errors) == if MidTick(s) then 1 else 0
  {
    ReachedIsOk(s);
    OrderColumn(s, Total);
    OrderColumn(s, Processed);
    OrderColumn(s, Errors);
    assert ThreadOk(0, s.threads[0], s.broker.clients[0]);
    hide Reachable, Wired, Ever, BooksKept;
  }

  /** Whether a tick was under way when the order row before now was flushed. */
  predicate SplitLast(moves: seq<Move>) {
    if moves == [] then false
    else
      var before := moves[..|moves| - 1];
      if moves[|moves| - 1] == FlushMeter(Order) then Exec(before).Some? && MidTick(Exec(before).value)
          else SplitLast(before)
  }

  lemma OrderRowsStay(s: System, m: Move)
    requires SystemOk(s) && Possible(s, m) && m != FlushMeter(Order)
    ensures Pipeline.Next(s, m).order.rows == s.order.rows
  {
    hide Reachable, Wired;
    if m.Work? {
      assert ThreadOk(m.i, s.threads[m.i], s.broker.clients[m.i]);
      WorkShape(s, m.i, m.draw);
      assert MeterOf(Pipeline.Next(s, m), Order) == MeterOf(s, Order);
    } else if m.FlushMeter? {
      FlushShape(s, m.svc);
      assert MeterOf(Pipeline.Next(s, m), Order) == MeterOf(s, Order);
    }
  }

  /** The rows' open balance is the tick that the last flush split. */
  lemma {:induction false} CarryIsSplit(moves: seq<Move>)
    requires Exec(moves).Some?
    ensures Carry(Exec(moves).value.order.rows) == if SplitLast(moves) then 1 else 0
  {
    if moves == [] {
    } else {
      var init, m := moves[..|moves| - 1], moves[|moves| - 1];
      var before := Exec(init).value;
      ExecIsOk(init);
      if m == FlushMeter(Order) {
        FlushedCarry(before, init);
      } else {
        CarryIsSplit(init);
        OrderRowsStay(before, m);
      }
    }
  }

  lemma FlushedColumn(m: Meter, col: Column)
    ensures Sum(Flush(m).rows, Entries(col)) == Ever(m, col)
  {
    FlushEver(m, col);
  }

  lemma FlushedCarry(s: System, moves: seq<Move>)
    requires Exec(moves) == Some(s) && SystemOk(s)
    ensures Carry(Flush(s.order).rows) == if MidTick(s) then 1 else 0
  {
    assert Reached(s);
    OrderLaw(s);
    hide Exec, SystemOk, Reached, Ever, Flush, Sum, Entries;
    FlushedColumn(s.order, Total);
    FlushedColumn(s.order, Processed);
    FlushedColumn(s.order, Errors);
  }

  /** The live counters of the order service: they show more errors than requests
      exactly when the last flush split a tick, that tick is over, and nothing
      sent was counted since. They are then off by one. */
  lemma OrderCountersExact(moves: seq<Move>)
    requires Exec(moves).Some?
    ensures var s := Exec(moves).value;
      && (s.order.errors > s.order.total <==> SplitLast(moves) && !MidTick(s) && s.order.processed == 0)
      && (s.order.errors > s.order.total ==> s.order.errors == s.order.total + 1)
  {
    var s := Exec(moves).value;
    ExecIsOk(moves);
    assert Reached(s);
    OrderLaw(s);
    CarryIsSplit(moves);
  }

  /** The flush that wrote a row. */
  lemma {:induction false} RowWritten(moves: seq<Move>, k: nat) returns (n: nat)
    requires Exec(moves).Some? && k < |Exec(moves).value.order.rows|
    ensures n < |moves| && moves[n] == FlushMeter(Order) && Exec(moves[..n]).Some?
    ensures var order := Exec(moves[..n]).value.order;
      && order.rows == Exec(moves).value.order.rows[..k]
      && Exec(moves).value.order.rows[k] == Row(order.processed, order.errors, order.total)
  {
    var init, m := moves[..|moves| - 1], moves[|moves| - 1];
    var before := Exec(init).value;
    ExecIsOk(init);
    if m == FlushMeter(Order) && k == |before.order.rows| {
      n := |moves| - 1;
    } else {
      if m != FlushMeter(Order) {
        OrderRowsStay(before, m);
      }
      n := RowWritten(init, k);
      assert moves[..n] == init[..n];
      assert Exec(moves).value.order.rows[..k] == before.order.rows[..k];
    }
  }

  /** Order rows do not add up, since a flush can split a tick. A row shows more
      errors than requests exactly when, at the flush that wrote it, the flush
      before had split a tick, no tick was under way, and nothing sent had been
      counted since; it is then off by one. Its error rate leaves [0, 1] exactly
      when moreover some request was counted. */
  lemma OrderRowExact(moves: seq<Move>, k: nat) returns (n: nat)
    requires Exec(moves).Some? && k < |Exec(moves).value.order.rows|
    ensures n < |moves| && moves[n] == FlushMeter(Order) && Exec(moves[..n]).Some?
    ensures var row, s := Exec(moves).value.order.rows[k], Exec(moves[..n]).value;
      var split := SplitLast(moves[..n]) && !MidTick(s) && s.order.processed == 0;
      && s.order.rows == Exec(moves).value.order.rows[..k]
      && row == Row(s.order.processed, s.order.errors, s.order.total)
      && (row.errors > row.total <==> split)
      && (split ==> row.errors == row.total + 1)
      && (0.0 <= ErrorRate(row) <= 1.0 <==> !(split && s.order.total > 0))
  {
    n := RowWritten(moves, k);
    OrderCountersExact(moves[..n]);
    var row := Exec(moves).value.order.rows[k];
    if row.errors <= row.total {
      RateInUnit(row);
    } else if row.total > 0 {
      RateAbove(row.errors as real, row.total as real);
    }
  }

  lemma RateAbove(a: real, b: real)
    requires a > b > 0.0
    ensures a / b > 1.0
  {
    var r := a / b;
    assert r * b == a;
    if r <= 1.0 { ProductAtMost(r, b); }
  }

  lemma ProductAtMost(r: real, b: real)
    requires r <= 1.0 && b > 0.0
    ensures r * b <= b
  {
    assert (1.0 - r) * b >= 0.0;
  }

  /** The start, but for the order loop and its meter. */
  function OrderAlone(t: Thread, m: Meter): System {
    START.(threads := START.threads[0 := t], order := m)
  }

  lemma LoneOrderStep(t: Thread, m: Meter)
    requires t.OrderLoop? && Reached(OrderAlone(t, m))
    ensures !t.opc.Requested? ==> Reached(OrderAlone(OrderStep(t, true), OrderMetered(m, t.opc)))
    ensures t.opc.Requested? ==> Reached(OrderAlone(OrderStep(t, true), m))
    ensures Reached(OrderAlone(t, Flush(m)))
  {
    var s := OrderAlone(t, m);
    var tick := OrderTick(0, true, Message(None, true, false, false, None));
    ReachedNext(s, tick);
    ReachedNext(s, FlushMeter(Order));
    assert START.threads[0 := t][0 := OrderStep(t, true)] == START.threads[0 := OrderStep(t, true)];
  }

  /** Two failing ticks, the first split by a flush: 2 errors in 1 request. */
  lemma ErrorRateOfTwo() returns (s: System)
    ensures Reached(s) && |s.order.rows| == 2 && s.order.rows[1] == Row(0, 2, 1) && ErrorRate(s.order.rows[1]) == 2.0
  {
    assert Exec([]) == Some(START);
    var t0 := OrderLoop(Waiting, 0, 0, 0);
    assert START.threads[0 := t0] == START.threads;
    assert Reached(OrderAlone(t0, NO_METER));
    hide Reached, OrderAlone, ErrorRate;
    LoneOrderStep(t0, NO_METER);
    var t1, m1 := OrderLoop(Requested, 1, 0, 0), Meter(0, 0, 1, []);
    LoneOrderStep(t1, m1);
    var m2 := Meter(0, 0, 0, [Row(0, 0, 1)]);
    assert Flush(m1) == m2;
    LoneOrderStep(t1, m2);
    var t3 := OrderLoop(OrderFailing, 1, 0, 0);
    LoneOrderStep(t3, m2);
    var t4, m4 := OrderLoop(Waiting, 1, 1, 0), Meter(0, 1, 0, m2.rows);
    LoneOrderStep(t4, m4);
    var t5, m5 := OrderLoop(Requested, 2, 1, 0), Meter(0, 1, 1, m2.rows);
    LoneOrderStep(t5, m5);
    var t6 := OrderLoop(OrderFailing, 2, 1, 0);
    LoneOrderStep(t6, m5);
    var t7, m7 := OrderLoop(Waiting, 2, 2, 0), Meter(0, 2, 1, m2.rows);
    LoneOrderStep(t7, m7);
    s := OrderAlone(t7, Flush(m7));
    LoneFlushed(t7, m7);
    TwoInOne();
  }

  lemma TwoInOne()
    ensures ErrorRate(Row(0, 2, 1)) == 2.0
  {
  }

  lemma LoneFlushed(t: Thread, m: Meter)
    ensures OrderAlone(t, Flush(m)).order.rows == m.rows + [Row(m.processed, m.errors, m.total)]
  {
  }
}
