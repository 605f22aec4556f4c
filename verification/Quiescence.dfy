/** What has become of every message once the pipeline has come to rest without
    being cancelled. */
module Quiescence {
  import opened Sequences
  import opened Messages
  import opened Broker
  import opened BrokerLaws
  import opened BrokerRuns
  import opened Pipeline
  import opened PipelineLaws
  import opened Accounts
  import opened PipelineRuns
  import opened DeadLetters

  // ------------------------------------------------------------- abandoning

  /** Only a cancelled context makes a goroutine give up. */
  predicate NoneAbandoned(s: System) {
    !s.broker.cancelled ==> forall i :: 0 <= i < |s.threads| && s.threads[i].Worker? ==>
        s.threads[i].job.pc != Done(Abandoned)
  }

  lemma AbandonsIfDrawn(i: nat, w: Job, d: Draw)
    requires !w.pc.Done?
    ensures JobStep(i, w, d).0.pc == Done(Abandoned) ==> d.aborts
  {
  }

  lemma MoveKeepsNoneAbandoned(s: System, m: Move)
    requires SystemOk(s) && NoneAbandoned(s) && Possible(s, m)
    ensures NoneAbandoned(Pipeline.Next(s, m))
  {
    hide Reachable, Wired, ThreadsOk, Roles, CrashOk;
    if m.Work? {
      WorkShape(s, m.i, m.draw);
      AbandonsIfDrawn(m.i, s.threads[m.i].job, m.draw);
      hide Pipeline.Next, JobStep, Broker.Next;
    } else if m.OrderTick? {
      OrderShape(s, m.i, m.fails, m.msg);
    } else if m.FlushMeter? {
      FlushShape(s, m.svc);
    }
  }

  lemma {:induction false} ExecNoneAbandoned(moves: seq<Move>)
    requires Exec(moves).Some?
    ensures NoneAbandoned(Exec(moves).value)
  {
    if moves == [] {
    } else {
      ExecIsOk(moves[..|moves| - 1]);
      ExecNoneAbandoned(moves[..|moves| - 1]);
      MoveKeepsNoneAbandoned(Exec(moves[..|moves| - 1]).value, moves[|moves| - 1]);
    }
  }

  // ------------------------------------------------------------------ rest

  /** Nothing cancelled, nothing buffered for a consumer, nobody in the middle of
      anything. */
  ghost predicate AtRest(s: System) {
    && Reached(s) && !s.broker.cancelled
    && |s.broker.queues| == 5
    && s.broker.queues[ORDER_QUEUE].buf == [] && s.broker.queues[PAYMENT_QUEUE].buf == []
        && s.broker.queues[NOTIFICATION_SUB].buf == []
    && (forall i :: 0 <= i < |s.broker.clients| ==> s.broker.clients[i].io == Free)
    && (forall i :: 0 <= i < |s.threads| ==> ThreadAtRest(s.threads[i]))
  }

  predicate ThreadAtRest(t: Thread) {
    match t
    case Worker(w) => w.pc.Done?
    case Ticker(_, pc) => pc.Resting?
    case OrderLoop(pc, _, _, _) => pc.Waiting?
    case Outside => true
  }

  lemma {:induction false} CountSame<T>(s: seq<T>, p: T -> bool, q: T -> bool)
    requires forall k :: 0 <= k < |s| ==> p(s[k]) == q(s[k])
    ensures Count(s, p) == Count(s, q)
  {
    if s == [] {
    } else {
      CountSame(s[..|s| - 1], p, q);
    }
  }

  lemma {:induction false} CountNone<T>(s: seq<T>, p: T -> bool)
    requires forall k :: 0 <= k < |s| ==> !p(s[k])
    ensures Count(s, p) == 0
  {
    if s == [] {
    } else {
      CountNone(s[..|s| - 1], p);
    }
  }

  const FATES: set<Outcome> := {Malformed, Succeeded, Declined, DeadLettered, Discarded}

  lemma RestNoneAbandoned(s: System)
    requires AtRest(s)
    ensures NoneAbandoned(s)
  {
    var moves :| Exec(moves) == Some(s);
    ExecNoneAbandoned(moves);
  }

  lemma FateOf(o: Outcome)
    requires o != Abandoned
    ensures o in FATES
  {
  }

  lemma {:induction false} WorkersHaveEnded(threads: seq<Thread>, svc: Service)
    requires forall k :: 0 <= k < |threads| ==> ThreadAtRest(threads[k])
    requires forall k :: 0 <= k < |threads| && threads[k].Worker? ==> threads[k].job.pc != Done(Abandoned)
    ensures Count(threads, Workers(svc, All)) == Count(threads, Ended(svc, FATES))
  {
    if threads == [] {
    } else {
      var t := threads[|threads| - 1];
      WorkersHaveEnded(threads[..|threads| - 1], svc);
      assert ThreadAtRest(t);
      if t.Worker? { FateOf(t.job.pc.outcome); }
    }
  }

  /** At rest, what a service took is what its goroutines have finished. */
  lemma TakenAreEnded(s: System, svc: Service, pick: Pick)
    requires AtRest(s) && !svc.Order?
    ensures Tally(s.broker.queues[InQueue(svc)].got, pick) == Count(s.threads, Workers(svc, pick))
    ensures Count(s.threads, Workers(svc, All)) == Count(s.threads, Ended(svc, FATES))
  {
    EachTakenOnce(s, svc, pick);
    CountNone(s.threads, Holders(svc, pick));
    RestNoneAbandoned(s);
    WorkersHaveEnded(s.threads, svc);
  }

  lemma Drained(s: System, q: nat)
    requires AtRest(s) && q in {ORDER_QUEUE, PAYMENT_QUEUE, NOTIFICATION_SUB}
    ensures s.broker.queues[q].got == s.broker.queues[q].put
  {
    ReachedIsOk(s);
    Fifo(s.broker, q);
  }

  /** The subscription has seen exactly what was put on payment-queue. */
  lemma SubscriptionSawAll(s: System)
    requires AtRest(s)
    ensures multiset(s.broker.queues[NOTIFICATION_SUB].put) == multiset(s.broker.queues[PAYMENT_QUEUE].put)
    ensures |s.broker.queues[NOTIFICATION_SUB].put| == |s.broker.queues[PAYMENT_QUEUE].put|
  {
    ReachedIsOk(s);
    FanOutAtRest(s.broker, NOTIFICATION_SUB);
    var a, b := s.broker.queues[NOTIFICATION_SUB].put, s.broker.queues[PAYMENT_QUEUE].put;
    assert multiset(s.broker.queues[PAYMENT_QUEUE].settled[..0]) == multiset{};
    assert |multiset(a)| == |a| && |multiset(b)| == |b|;
  }

  /** Conservation at rest, whoever sent the messages: every message put on
      payment-queue was fulfilled, declined, discarded or malformed once, and its
      copy was notified, dead-lettered or malformed once. */
  lemma EveryPaymentEnds(s: System)
    requires AtRest(s)
    ensures var n := |s.broker.queues[PAYMENT_QUEUE].put|;
      && n == Count(s.threads, Ended(Fulfillment, FATES))
      && n == Count(s.threads, Ended(Notification, FATES))
  {
    Drained(s, PAYMENT_QUEUE);
    Drained(s, NOTIFICATION_SUB);
    TakenAreEnded(s, Fulfillment, All);
    TakenAreEnded(s, Notification, All);
    TallyAll(s.broker.queues[PAYMENT_QUEUE].got);
    TallyAll(s.broker.queues[NOTIFICATION_SUB].got);
    SubscriptionSawAll(s);
  }

  // ------------------------------------------------------ nobody from outside

  predicate Closed(s: System) { forall i :: 0 <= i < |s.threads| ==> !s.threads[i].Outside? }

  predicate LetterWentTo(q: nat, t: Thread) {
    t.Worker? && Letter(0, t.job).Some? && Letter(0, t.job).value.0 == q
  }
  function LettersTo(q: nat): Thread -> bool { (t: Thread) => LetterWentTo(q, t) }

  /** At rest each goroutine has put on a queue exactly its letter. */
  lemma StoredIsLetter(s: System, k: nat, q: nat)
    requires AtRest(s) && Closed(s) && k < |s.threads| && q in {PAYMENT_QUEUE, PAYMENT_DLQ, NOTIFICATION_DLQ}
    ensures |s.broker.clients| == |s.threads|
    ensures Share(Stores, q, All)(s.broker.clients[k]) == if LetterWentTo(q, s.threads[k]) then 1 else 0
  {
    ReachedIsOk(s);
    var t, c := s.threads[k], s.broker.clients[k];
    assert ThreadOk(k, t, c);
    StoresOf(s, k, q, All);
    NothingLost(s, k, q, All);
    if t.Worker? {
      assert Count(c.log, CallsTo(q, All)) == InLetter(Letter(k, t.job), q, All);
    } else if t.Ticker? {
      NoneCalled(c.log, q, All);
    }
  }

  lemma {:induction false} StoresAreLetters(clients: seq<Client>, threads: seq<Thread>, q: nat)
    requires |clients| == |threads|
    requires forall k :: 0 <= k < |threads| ==>
        Share(Stores, q, All)(clients[k]) == if LetterWentTo(q, threads[k]) then 1 else 0
    ensures Sum(clients, Share(Stores, q, All)) == Count(threads, LettersTo(q))
  {
    if threads == [] {
    } else {
      StoresAreLetters(clients[..|clients| - 1], threads[..|threads| - 1], q);
    }
  }

  lemma PutAreLetters(s: System, q: nat)
    requires AtRest(s) && Closed(s) && q in {PAYMENT_QUEUE, PAYMENT_DLQ, NOTIFICATION_DLQ}
    ensures |s.broker.queues[q].put| == Count(s.threads, LettersTo(q))
  {
    ReachedIsOk(s);
    QueueStores(s, q, All);
    TallyAll(s.broker.queues[q].put);
    forall k: nat | k < |s.threads|
      ensures Share(Stores, q, All)(s.broker.clients[k]) == if LetterWentTo(q, s.threads[k]) then 1 else 0
    {
      StoredIsLetter(s, k, q);
    }
    StoresAreLetters(s.broker.clients, s.threads, q);
  }

  /** At rest the letters are the outcomes. */
  lemma LettersAreOutcomes(s: System)
    requires AtRest(s)
    ensures Count(s.threads, LettersTo(PAYMENT_QUEUE)) == Count(s.threads, Ended(Payment, {Succeeded}))
    ensures Count(s.threads, LettersTo(PAYMENT_DLQ)) == Count(s.threads, Ended(Payment, {DeadLettered}))
    ensures Count(s.threads, LettersTo(NOTIFICATION_DLQ)) == Count(s.threads, Ended(Notification, {DeadLettered}))
  {
    ReachedIsOk(s);
    forall k | 0 <= k < |s.threads|
      ensures LettersTo(PAYMENT_QUEUE)(s.threads[k]) == Ended(Payment, {Succeeded})(s.threads[k])
      ensures LettersTo(PAYMENT_DLQ)(s.threads[k]) == Ended(Payment, {DeadLettered})(s.threads[k])
      ensures LettersTo(NOTIFICATION_DLQ)(s.threads[k]) == Ended(Notification, {DeadLettered})(s.threads[k])
    {
      assert ThreadOk(k, s.threads[k], s.broker.clients[k]);
    }
    CountSame(s.threads, LettersTo(PAYMENT_QUEUE), Ended(Payment, {Succeeded}));
    CountSame(s.threads, LettersTo(PAYMENT_DLQ), Ended(Payment, {DeadLettered}));
    CountSame(s.threads, LettersTo(NOTIFICATION_DLQ), Ended(Notification, {DeadLettered}));
  }

  lemma {:induction false} EndedSplits(threads: seq<Thread>, svc: Service, a: set<Outcome>, b: set<Outcome>)
    requires a !! b
    ensures Count(threads, Ended(svc, a + b)) == Count(threads, Ended(svc, a)) + Count(threads, Ended(svc, b))
  {
    if threads == [] {
    } else {
      EndedSplits(threads[..|threads| - 1], svc, a, b);
    }
  }

  /** A downstream goroutine works on a message that was put on payment-queue. */
  lemma TakenWasPut(s: System, k: nat)
    requires AtRest(s) && k < |s.threads| && s.threads[k].Worker?
    requires s.threads[k].job.svc.Fulfillment? || s.threads[k].job.svc.Notification?
    ensures s.threads[k].job.taken in s.broker.queues[PAYMENT_QUEUE].put
  {
    var w := s.threads[k].job;
    var q := InQueue(w.svc);
    TakenAreEnded(s, w.svc, Just(w.taken));
    assert Workers(w.svc, Just(w.taken))(s.threads[k]);
    CountPositive(s.threads, Workers(w.svc, Just(w.taken)));
    TallyIsMultiplicity(s.broker.queues[q].got, w.taken);
    Drained(s, q);
    SubscriptionSawAll(s);
    assert w.taken in multiset(s.broker.queues[PAYMENT_QUEUE].put);
  }

  /** With nobody sending from outside, all that is taken downstream are
      receipts: nothing is declined or malformed. */
  lemma OnlyReceiptsDownstream(s: System, k: nat)
    requires AtRest(s) && Closed(s) && k < |s.threads| && s.threads[k].Worker?
    requires s.threads[k].job.svc.Fulfillment? || s.threads[k].job.svc.Notification?
    ensures s.threads[k].job.pc.outcome !in {Malformed, Declined, Abandoned}
  {
    TakenWasPut(s, k);
    PaymentQueueTells(s, s.threads[k].job.taken);
    ReachedIsOk(s);
    assert ThreadOk(k, s.threads[k], s.broker.clients[k]);
    RestNoneAbandoned(s);
  }

  /** Whole-pipeline conservation, with nobody sending from outside: once the
      pipeline is at rest,
      approved = fulfilled + discarded = notified + notification-dead-lettered,
      and the dead letters are all on their queues. */
  lemma Conservation(s: System)
    requires AtRest(s) && Closed(s)
    ensures var approved := Count(s.threads, Ended(Payment, {Succeeded}));
      && approved == Count(s.threads, Ended(Fulfillment, {Succeeded}))
                     + Count(s.threads, Ended(Fulfillment, {Discarded}))
      && approved == Count(s.threads, Ended(Notification, {Succeeded}))
                     + Count(s.threads, Ended(Notification, {DeadLettered}))
      && approved == |s.broker.queues[PAYMENT_QUEUE].put|
      && |s.broker.queues[PAYMENT_DLQ].put| == Count(s.threads, Ended(Payment, {DeadLettered}))
      && |s.broker.queues[NOTIFICATION_DLQ].put| == Count(s.threads, Ended(Notification, {DeadLettered}))
      && s.broker.queues[PAYMENT_DLQ].buf == s.broker.queues[PAYMENT_DLQ].put
      && s.broker.queues[NOTIFICATION_DLQ].buf == s.broker.queues[NOTIFICATION_DLQ].put
  {
    PutAreLetters(s, PAYMENT_QUEUE);
    PutAreLetters(s, PAYMENT_DLQ);
    PutAreLetters(s, NOTIFICATION_DLQ);
    LettersAreOutcomes(s);
    DlqHoldsAll(s, PAYMENT_DLQ);
    DlqHoldsAll(s, NOTIFICATION_DLQ);
    EveryPaymentEnds(s);
    DownstreamSplits(s, Fulfillment, Discarded);
    DownstreamSplits(s, Notification, DeadLettered);
  }

  lemma DownstreamSplits(s: System, svc: Service, lost: Outcome)
    requires AtRest(s) && Closed(s)
    requires (svc.Fulfillment? && lost.Discarded?) || (svc.Notification? && lost.DeadLettered?)
    ensures Count(s.threads, Ended(svc, FATES))
            == Count(s.threads, Ended(svc, {Succeeded})) + Count(s.threads, Ended(svc, {lost}))
  {
    ReachedIsOk(s);
    forall k | 0 <= k < |s.threads| && Ended(svc, FATES)(s.threads[k])
      ensures Ended(svc, {Succeeded} + {lost})(s.threads[k])
    {
      assert ThreadOk(k, s.threads[k], s.broker.clients[k]);
      OnlyReceiptsDownstream(s, k);
    }
    FatesSplit(s.threads, svc, lost);
  }

  lemma FatesSplit(threads: seq<Thread>, svc: Service, lost: Outcome)
    requires lost in FATES && lost != Succeeded
    requires forall k :: 0 <= k < |threads| && Ended(svc, FATES)(threads[k]) ==>
      Ended(svc, {Succeeded} + {lost})(threads[k])
    ensures Count(threads, Ended(svc, FATES))
            == Count(threads, Ended(svc, {Succeeded})) + Count(threads, Ended(svc, {lost}))
  {
    CountSame(threads, Ended(svc, FATES), Ended(svc, {Succeeded} + {lost}));
    EndedSplits(threads, svc, {Succeeded}, {lost});
  }

  /** Every approved payment has, at rest, exactly one fulfillment goroutine and
      exactly one notification goroutine, whoever else sends. */
  lemma EachApprovedOnce(s: System, i: nat)
    requires AtRest(s) && i < |s.threads| && s.threads[i].Worker?
    requires s.threads[i].job.svc.Payment? && s.threads[i].job.pc == Done(Succeeded)
    ensures Count(s.threads, Workers(Fulfillment, From(i))) == 1
    ensures Count(s.threads, Workers(Notification, From(i))) == 1
  {
    ReachedIsOk(s);
    PaymentOutcome(s, i);
    Drained(s, PAYMENT_QUEUE);
    Drained(s, NOTIFICATION_SUB);
    TakenAreEnded(s, Fulfillment, From(i));
    TakenAreEnded(s, Notification, From(i));
    FanOut(s.broker, NOTIFICATION_SUB, From(i));
    FreeHoldNothing(s.broker.clients, PAYMENT_QUEUE, NOTIFICATION_SUB, From(i));
    ReachableIsSound(s.broker);
    assert s.broker.queues[PAYMENT_QUEUE].settled[..0] == [];
    TallyNone(From(i));
  }

  // ---------------------------------------------------------------- intake

  lemma OrderStores(s: System, k: nat)
    requires AtRest(s) && Closed(s) && k < |s.threads|
    ensures |s.broker.clients| == |s.threads|
    ensures Share(Stores, ORDER_QUEUE, All)(s.broker.clients[k]) == CountedBy(Order, Processed, s.threads[k])
  {
    ReachedIsOk(s);
    var t, c := s.threads[k], s.broker.clients[k];
    assert ThreadOk(k, t, c);
    StoresOf(s, k, ORDER_QUEUE, All);
    NothingLost(s, k, ORDER_QUEUE, All);
    if t.Worker? {
      assert Count(c.log, CallsTo(ORDER_QUEUE, All)) == InLetter(Letter(k, t.job), ORDER_QUEUE, All);
    } else if t.Ticker? {
      NoneCalled(c.log, ORDER_QUEUE, All);
    }
  }

  lemma BrokenStores(s: System, k: nat)
    requires Reached(s) && Closed(s) && k < |s.threads|
    ensures |s.broker.clients| == |s.threads| && |s.broker.queues| == 5
    ensures Share(Stores, ORDER_QUEUE, Broken)(s.broker.clients[k]) == 0
  {
    ReachedIsOk(s);
    var t, c := s.threads[k], s.broker.clients[k];
    assert ThreadOk(k, t, c);
    StoresOf(s, k, ORDER_QUEUE, Broken);
    PendingNonNegative(c.io, ORDER_QUEUE, Broken);
    if t.Worker? {
      assert Count(c.log, CallsTo(ORDER_QUEUE, Broken)) == InLetter(Letter(k, t.job), ORDER_QUEUE, Broken);
    } else if t.Ticker? {
      NoneCalled(c.log, ORDER_QUEUE, Broken);
    }
  }

  lemma NoBrokenPut(s: System)
    requires Reached(s) && Closed(s)
    ensures |s.broker.queues| == 5 && Tally(s.broker.queues[ORDER_QUEUE].put, Broken) == 0
  {
    QueueStores(s, ORDER_QUEUE, Broken);
    forall k: nat | k < |s.broker.clients| ensures Share(Stores, ORDER_QUEUE, Broken)(s.broker.clients[k]) == 0 {
      ReachedIsOk(s);
      BrokenStores(s, k);
    }
    SumZero(s.broker.clients, Share(Stores, ORDER_QUEUE, Broken));
  }

  lemma NoneTaken(qu: Queue, pick: Pick)
    requires QueueOk(qu) && Tally(qu.put, pick) == 0
    ensures Tally(qu.got, pick) == 0
  {
    TallyConcat(qu.got, qu.buf, pick);
  }

  /** With nobody sending from outside, no payment goroutine of any reachable state
      works on a malformed order. */
  lemma NoBrokenOrders(s: System)
    requires Reached(s) && Closed(s)
    ensures Count(s.threads, Workers(Payment, Broken)) == 0
  {
    hide Reached, Closed, Tally, Count, Workers, Holders;
    NoBrokenPut(s);
    QueuesOk(s);
    NoneTaken(s.broker.queues[ORDER_QUEUE], Broken);
    EachTakenOnce(s, Payment, Broken);
  }

  lemma QueuesOk(s: System)
    requires Reached(s)
    ensures forall q :: 0 <= q < |s.broker.queues| ==> QueueOk(s.broker.queues[q])
  {
    ReachedIsOk(s);
    ReachableIsSound(s.broker);
  }

  /** At rest every order has been approved or dead-lettered. */
  lemma PaymentsSplit(s: System)
    requires AtRest(s) && Closed(s)
    ensures Count(s.threads, Ended(Payment, FATES))
            == Count(s.threads, Ended(Payment, {Succeeded})) + Count(s.threads, Ended(Payment, {DeadLettered}))
  {
    ReachedIsOk(s);
    NoBrokenOrders(s);
    forall k | 0 <= k < |s.threads| && Ended(Payment, FATES)(s.threads[k])
      ensures Ended(Payment, {Succeeded} + {DeadLettered})(s.threads[k])
    {
      assert ThreadOk(k, s.threads[k], s.broker.clients[k]);
      CountPositive(s.threads, Workers(Payment, Broken));
      assert !Workers(Payment, Broken)(s.threads[k]);
    }
    FatesSplit(s.threads, Payment, DeadLettered);
  }

  /** With nobody sending from outside every order ever counted as enqueued ends,
      at rest, once: approved with a receipt on payment-queue, or dead-lettered
      with a letter that is still on the payment dead-letter queue. */
  lemma EveryOrderEnds(s: System)
    requires AtRest(s) && Closed(s)
    ensures Ever(s.order, Processed) == |s.broker.queues[ORDER_QUEUE].put|
    ensures Ever(s.order, Processed)
            == Count(s.threads, Ended(Payment, {Succeeded})) + Count(s.threads, Ended(Payment, {DeadLettered}))
            == |s.broker.queues[PAYMENT_QUEUE].put| + |s.broker.queues[PAYMENT_DLQ].buf|
  {
    OrdersTaken(s);
    PaymentsSplit(s);
    Conservation(s);
  }

  lemma OrdersTaken(s: System)
    requires AtRest(s) && Closed(s)
    ensures Ever(s.order, Processed) == |s.broker.queues[ORDER_QUEUE].put|
    ensures Ever(s.order, Processed) == Count(s.threads, Ended(Payment, FATES))
  {
    ReachedIsOk(s);
    QueueStores(s, ORDER_QUEUE, All);
    TallyAll(s.broker.queues[ORDER_QUEUE].put);
    forall k: nat | k < |s.threads|
      ensures Share(Stores, ORDER_QUEUE, All)(s.broker.clients[k]) == Part(Counted(Order, Processed))(s.threads[k])
    {
      OrderStores(s, k);
    }
    SumsAlign(s.broker.clients, s.threads);
    assert Accounts.Shown(s, Counted(Order, Processed)) == Sum(s.threads, Part(Counted(Order, Processed)));
    Drained(s, ORDER_QUEUE);
    TakenAreEnded(s, Payment, All);
  }

  lemma {:induction false} SumsAlign(clients: seq<Client>, threads: seq<Thread>)
    requires |clients| == |threads|
    requires forall k :: 0 <= k < |threads| ==>
      Share(Stores, ORDER_QUEUE, All)(clients[k]) == Part(Counted(Order, Processed))(threads[k])
    ensures Sum(clients, Share(Stores, ORDER_QUEUE, All)) == Sum(threads, Part(Counted(Order, Processed)))
  {
    if threads == [] {
    } else {
      SumsAlign(clients[..|clients| - 1], threads[..|threads| - 1]);
    }
  }
}
