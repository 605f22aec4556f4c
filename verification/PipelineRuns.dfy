/** The promises of the simulated pipeline, in every reachable state under every
    interleaving of its goroutines. */
module PipelineRuns {
  import opened Sequences
  import opened Messages
  import opened Broker
  import opened BrokerLaws
  import opened BrokerRuns
  import opened Pipeline
  import opened PipelineLaws
  import opened Accounts

  lemma StartKeepsBooks()
    ensures BooksKept(START)
  {
    forall book ensures Accounts.Shown(START, book) == Sum(START.threads, Part(book)) {
      SumZero(START.threads, Part(book));
      TallyNone(All);
      if book.Taken? { TallyNone(book.pick); }
    }
  }

  lemma {:induction false} SumZero<T>(s: seq<T>, f: T -> int)
    requires forall k :: 0 <= k < |s| ==> f(s[k]) == 0
    ensures Sum(s, f) == 0
  {
    if s == [] {
    } else {
      SumZero(s[..|s| - 1], f);
    }
  }

  /** The invariants hold in every reachable state. */
  lemma {:induction false} ExecIsOk(moves: seq<Move>)
    requires Exec(moves).Some?
    ensures SystemOk(Exec(moves).value) && BooksKept(Exec(moves).value)
  {
    hide SystemOk, BooksKept;
    if moves == [] {
      StartIsOk();
      StartKeepsBooks();
    } else {
      var before := Exec(moves[..|moves| - 1]).value;
      ExecIsOk(moves[..|moves| - 1]);
      MoveKeepsOk(before, moves[|moves| - 1]);
      MoveKeepsBooks(before, moves[|moves| - 1]);
    }
  }

  lemma ReachedIsOk(s: System)
    requires Reached(s)
    ensures SystemOk(s) && BooksKept(s)
  {
    var moves :| Exec(moves) == Some(s);
    ExecIsOk(moves);
  }

  // ---------------------------------------------------------- one goroutine

  lemma {:induction false} SumOnly<T>(s: seq<T>, i: nat, f: T -> int)
    requires i < |s| && forall k :: 0 <= k < |s| && k != i ==> f(s[k]) == 0
    ensures Sum(s, f) == f(s[i])
  {
    if i == |s| - 1 {
      SumZero(s[..|s| - 1], f);
    } else {
      SumOnly(s[..|s| - 1], i, f);
    }
  }

  lemma {:induction false} SumPositive<T>(s: seq<T>, f: T -> int) returns (i: nat)
    requires Sum(s, f) > 0
    ensures i < |s| && f(s[i]) > 0
  {
    if f(s[|s| - 1]) > 0 {
      i := |s| - 1;
    } else {
      i := SumPositive(s[..|s| - 1], f);
    }
  }

  /** What goroutine i itself put on a queue nobody feeds: as much as it called
      for, less what it lost or still holds. */
  lemma StoresOf(s: System, i: nat, q: nat, pick: Pick)
    requires Reached(s) && i < |s.threads| && q < 5 && q != NOTIFICATION_SUB
    ensures |s.broker.queues| == 5 && |s.broker.clients| == |s.threads|
    ensures var c := s.broker.clients[i];
      Count(c.log, CallsTo(q, pick))
      == Count(c.log, StoresIn(q, pick)) + Count(c.log, LossesAt(q, pick)) + Pending(c.io, q, pick)
  {
    ReachedIsOk(s);
    ReachableIsSound(s.broker);
    assert Accounted(s.broker.clients[i], q, pick);
  }

  lemma QueueStores(s: System, q: nat, pick: Pick)
    requires Reached(s) && q < 5
    ensures |s.broker.queues| == 5
    ensures Tally(s.broker.queues[q].put, pick) == Sum(s.broker.clients, Share(Stores, q, pick))
  {
    ReachedIsOk(s);
    ReachableIsSound(s.broker);
    assert Held(Stores, s.broker.queues, q, pick) == Sum(s.broker.clients, Share(Stores, q, pick));
  }

  /** Only goroutine i sends messages that bear its id. */
  lemma OthersCallNothing(s: System, j: nat, i: nat, q: nat)
    requires Reached(s) && j < |s.threads| && j != i
    ensures |s.broker.clients| == |s.threads|
    ensures Count(s.broker.clients[j].log, CallsTo(q, From(i))) == 0
  {
    ReachedIsOk(s);
    var t, c := s.threads[j], s.broker.clients[j];
    assert ThreadOk(j, t, c);
    if t.Worker? {
      assert InLetter(Letter(j, t.job), q, From(i)) == 0;
    } else if t.Ticker? {
      assert InLetter(None, q, From(i)) == 0;
    }
  }

  /** What bears goroutine i's id on a queue is what i put there. */
  lemma PutBy(s: System, i: nat, q: nat)
    requires Reached(s) && i < |s.threads| && q < 5 && q != NOTIFICATION_SUB
    ensures |s.broker.queues| == 5 && |s.broker.clients| == |s.threads|
    ensures Tally(s.broker.queues[q].put, From(i)) == Count(s.broker.clients[i].log, StoresIn(q, From(i)))
  {
    QueueStores(s, q, From(i));
    StoresOf(s, i, q, From(i));
    forall j: nat | j < |s.broker.clients| && j != i
      ensures Share(Stores, q, From(i))(s.broker.clients[j]) == 0
    {
      OthersCallNothing(s, j, i, q);
      StoresOf(s, j, q, From(i));
      PendingNonNegative(s.broker.clients[j].io, q, From(i));
    }
    SumOnly(s.broker.clients, i, Share(Stores, q, From(i)));
  }

  lemma PendingNonNegative(io: Io, q: nat, pick: Pick)
    ensures Pending(io, q, pick) >= 0
  {
  }

  // -------------------------------------------------------- exactly one outcome

  /** How many letters of goroutine i reached a queue. */
  function Arrived(s: System, q: nat, i: nat): nat
    requires q < |s.broker.queues|
  {
    Tally(s.broker.queues[q].put, From(i))
  }

  /** What the letter and the counts of a payment goroutine say together. */
  ghost predicate OneOutcome(w: Job, paid: int, dead: int, cancelled: bool) {
    && paid + dead <= 1
    && (paid == 1 ==>
          w.taken.wellFormed && !w.taken.poisoned && w.errs < 3 && (w.pc.Approving? || w.pc == Done(Succeeded)))
    && (dead == 1 ==> w.taken.wellFormed && (w.pc.Poisoning? || w.pc.Burying? || w.pc == Done(DeadLettered)))
    && (w.pc == Done(Succeeded) && !cancelled ==> paid == 1)
    && (w.pc == Done(DeadLettered) && !cancelled ==> dead == 1)
    && (w.pc == Done(Malformed) || w.pc == Done(Abandoned) ==> paid == 0 && dead == 0)
    && (w.pc.Done? ==> w.pc.outcome in {Malformed, Succeeded, DeadLettered, Abandoned})
    && (w.pc == Done(Malformed) <==> w.pc.Done? && !w.taken.wellFormed)
  }

  lemma LetterDecides(i: nat, w: Job, io: Io, paid: int, lostPaid: int, dead: int, lostDead: int, cancelled: bool)
    requires JobOk(w) && w.svc.Payment? && (io != Free ==> InSend(w.pc))
    requires paid >= 0 && dead >= 0 && lostPaid >= 0 && lostDead >= 0 && (!cancelled ==> lostPaid == 0 && lostDead == 0)
    requires InLetter(Letter(i, w), PAYMENT_QUEUE, From(i)) == paid + lostPaid + Pending(io, PAYMENT_QUEUE, From(i))
    requires InLetter(Letter(i, w), PAYMENT_DLQ, From(i)) == dead + lostDead + Pending(io, PAYMENT_DLQ, From(i))
    ensures OneOutcome(w, paid, dead, cancelled)
  {
    PendingNonNegative(io, PAYMENT_QUEUE, From(i));
    PendingNonNegative(io, PAYMENT_DLQ, From(i));
    if io == Free {
      assert Pending(io, PAYMENT_QUEUE, From(i)) == 0 && Pending(io, PAYMENT_DLQ, From(i)) == 0;
    }
    hide Pending;
  }

  /** Exactly one outcome per payment message, under every interleaving: at most
      one letter of a payment goroutine ever reaches payment-queue or the DLQ,
      and where it goes is told by the message and the attempts made. */
  lemma PaymentOutcome(s: System, i: nat)
    requires Reached(s) && i < |s.threads| && s.threads[i].Worker? && s.threads[i].job.svc.Payment?
    ensures |s.broker.queues| == 5
    ensures OneOutcome(s.threads[i].job, Arrived(s, PAYMENT_QUEUE, i), Arrived(s, PAYMENT_DLQ, i), s.broker.cancelled)
  {
    ReachedIsOk(s);
    var w, c := s.threads[i].job, s.broker.clients[i];
    assert ThreadOk(i, s.threads[i], c);
    PutBy(s, i, PAYMENT_QUEUE);
    PutBy(s, i, PAYMENT_DLQ);
    StoresOf(s, i, PAYMENT_QUEUE, From(i));
    StoresOf(s, i, PAYMENT_DLQ, From(i));
    if !s.broker.cancelled {
      NothingLost(s, i, PAYMENT_QUEUE, From(i));
      NothingLost(s, i, PAYMENT_DLQ, From(i));
    }
    LetterDecides(i, w, c.io, Arrived(s, PAYMENT_QUEUE, i), Count(c.log, LossesAt(PAYMENT_QUEUE, From(i))),
      Arrived(s, PAYMENT_DLQ, i), Count(c.log, LossesAt(PAYMENT_DLQ, From(i))), s.broker.cancelled);
  }

  lemma NothingLost(s: System, i: nat, q: nat, pick: Pick)
    requires Reached(s) && i < |s.broker.clients| && !s.broker.cancelled
    ensures Count(s.broker.clients[i].log, LossesAt(q, pick)) == 0
  {
    ReachedIsOk(s);
    ReachableIsSound(s.broker);
    assert NoLoss(s.broker.clients[i].log);
    CountPositive(s.broker.clients[i].log, LossesAt(q, pick));
  }

  /** The goroutine whose store a message on a queue is. */
  lemma StoredBy(s: System, q: nat, m: Message) returns (i: nat)
    requires Reached(s) && q < 5 && q != NOTIFICATION_SUB && |s.broker.queues| == 5 && m in s.broker.queues[q].put
    ensures i < |s.threads| && |s.broker.clients| == |s.threads|
    ensures Count(s.broker.clients[i].log, CallsTo(q, Just(m))) > 0
  {
    ReachedIsOk(s);
    QueueStores(s, q, Just(m));
    TallyIsMultiplicity(s.broker.queues[q].put, m);
    i := SumPositive(s.broker.clients, Share(Stores, q, Just(m)));
    StoresOf(s, i, q, Just(m));
    PendingNonNegative(s.broker.clients[i].io, q, Just(m));
  }

  lemma CallerIs(s: System, i: nat, q: nat, m: Message)
    requires Reached(s) && i < |s.threads| && q < 5 && |s.broker.clients| == |s.threads|
    requires Count(s.broker.clients[i].log, CallsTo(q, Just(m))) > 0
    ensures s.threads[i].Worker? ==> JobOk(s.threads[i].job) && Letter(i, s.threads[i].job) == Some((q, m))
    ensures !s.threads[i].Worker? ==>
        (s.threads[i].OrderLoop? && q == ORDER_QUEUE) || (s.threads[i].Outside? && q <= PAYMENT_QUEUE)
    ensures !s.threads[i].Worker? ==> m.source.None?
  {
    ReachedIsOk(s);
    var t, c := s.threads[i], s.broker.clients[i];
    assert ThreadOk(i, t, c);
    if t.Worker? {
      assert InLetter(Letter(i, t.job), q, Just(m)) > 0;
    } else {
      if CalledFor(c.log, None) { NoneCalled(c.log, q, Just(m)); }
      if m.source.Some? { FewerCalls(c.log, q, m, From(m.source.value)); }
    }
  }

  lemma NoneCalled(log: seq<Event>, q: nat, pick: Pick)
    requires CalledFor(log, None)
    ensures Count(log, CallsTo(q, pick)) == 0
  {
    assert InLetter(None, q, pick) == 0;
  }

  lemma {:induction false} FewerCalls(log: seq<Event>, q: nat, m: Message, pick: Pick)
    requires Picked(pick, m)
    ensures Count(log, CallsTo(q, Just(m))) <= Count(log, CallsTo(q, pick))
  {
    if log == [] {
    } else {
      FewerCalls(log[..|log| - 1], q, m, pick);
    }
  }

  /** What a letter on the payment DLQ tells about the goroutine that sent it:
      processing_error means three failed attempts, schema_invalid a poisoned
      message at its first. */
  ghost predicate PaymentLetter(s: System, m: Message) {
    && m.source.Some? && m.envelope.Some?
    && m.source.value < |s.threads| && s.threads[m.source.value].Worker?
    && var w, env := s.threads[m.source.value].job, m.envelope.value;
    && w.svc.Payment? && env.original == w.taken
    && match env.reason
       case ProcessingError => env.attempts == 3 && w.errs == 3 && !w.taken.poisoned
       case SchemaInvalid => env.attempts == 1 && w.errs <= 1 && w.taken.poisoned
  }

  lemma PaymentDlqTells(s: System, m: Message)
    requires Reached(s) && |s.broker.queues| == 5 && m in s.broker.queues[PAYMENT_DLQ].put
    ensures PaymentLetter(s, m)
  {
    var i := StoredBy(s, PAYMENT_DLQ, m);
    CallerIs(s, i, PAYMENT_DLQ, m);
  }

  lemma NotificationDlqTells(s: System, m: Message)
    requires Reached(s) && |s.broker.queues| == 5 && m in s.broker.queues[NOTIFICATION_DLQ].put
    ensures m.source.Some? && m.source.value < |s.threads| && s.threads[m.source.value].Worker?
    ensures var w := s.threads[m.source.value].job;
      w.svc.Notification? && w.errs == 2 && m.envelope == Some(Envelope(ProcessingError, 2, w.taken))
  {
    var i := StoredBy(s, NOTIFICATION_DLQ, m);
    CallerIs(s, i, NOTIFICATION_DLQ, m);
  }

  /** A poisoned message never reaches payment-queue: all that is there is from
      outside, or the receipt of a well-formed message that was not poisoned. */
  lemma PaymentQueueTells(s: System, m: Message)
    requires Reached(s) && |s.broker.queues| == 5 && m in s.broker.queues[PAYMENT_QUEUE].put
    ensures m.source.Some? ==>
      && m.source.value < |s.threads| && s.threads[m.source.value].Worker?
      && var w := s.threads[m.source.value].job;
      w.svc.Payment? && m == Receipt(m.source.value) && w.taken.wellFormed && !w.taken.poisoned
    ensures m.source.None? ==> exists i :: 0 <= i < |s.threads| && s.threads[i].Outside?
  {
    var i := StoredBy(s, PAYMENT_QUEUE, m);
    CallerIs(s, i, PAYMENT_QUEUE, m);
  }

  // ---------------------------------------------------------------- takes

  predicate WorksOn(svc: Service, pick: Pick, t: Thread) { t.Worker? && t.job.svc == svc && Picked(pick, t.job.taken) }
  predicate HoldsFor(svc: Service, pick: Pick, t: Thread) {
    t.Ticker? && t.tsvc == svc && t.tpc.Holding? && Picked(pick, t.tpc.msg)
  }
  function Workers(svc: Service, pick: Pick): Thread -> bool { (t: Thread) => WorksOn(svc, pick, t) }
  function Holders(svc: Service, pick: Pick): Thread -> bool { (t: Thread) => HoldsFor(svc, pick, t) }

  lemma {:induction false} TakersAreCounts(threads: seq<Thread>, svc: Service, pick: Pick)
    requires !svc.Order?
    ensures Sum(threads, Part(Taken(svc, pick)))
            == Count(threads, Workers(svc, pick)) + Count(threads, Holders(svc, pick))
  {
    if threads == [] {
    } else {
      TakersAreCounts(threads[..|threads| - 1], svc, pick);
    }
  }

  /** Every message taken from a queue has exactly one goroutine, or is in the
      hands of the ticker about to start it. */
  lemma EachTakenOnce(s: System, svc: Service, pick: Pick)
    requires Reached(s) && !svc.Order?
    ensures |s.broker.queues| == 5
    ensures Tally(s.broker.queues[InQueue(svc)].got, pick)
            == Count(s.threads, Workers(svc, pick)) + Count(s.threads, Holders(svc, pick))
  {
    ReachedIsOk(s);
    TakersAreCounts(s.threads, svc, pick);
    assert Accounts.Shown(s, Taken(svc, pick)) == Sum(s.threads, Part(Taken(svc, pick)));
  }

  /** Only a ticker of the queue's own consumer takes from it. */
  lemma GotOnlyByTake(s: System, m: Move, q: nat)
    requires SystemOk(s) && Possible(s, m) && q < 5
    requires m.Take? ==> InQueue(s.threads[m.i].tsvc) != q
    ensures |s.broker.queues| == 5 && |Pipeline.Next(s, m).broker.queues| == 5
    ensures Pipeline.Next(s, m).broker.queues[q].got == s.broker.queues[q].got
  {
    hide Reachable, ThreadOk;
    match m
    case Io(i) => GotStays(s.broker, Proceed(i));
    case Lose(i) => GotStays(s.broker, Drop(i));
    case Work(i, d) =>
      assert ThreadOk(i, s.threads[i], s.broker.clients[i]);
      WorkShape(s, i, d);
      LetterRoots(i, s.threads[i].job, d);
      SentGot(s.broker, i, JobStep(i, s.threads[i].job, d).1);
    case Tick(i, crash) => TickShape(s, i, crash);
    case Take(i) =>
      assert ThreadOk(i, s.threads[i], s.broker.clients[i]);
    case OrderTick(i, fails, msg) => OrderShape(s, i, fails, msg);
    case Arrive => GotStays(s.broker, NewClient);
    case Produce(i, q, msg) => GotStays(s.broker, Call(i, q, msg));
    case FlushIn(q) => GotStays(s.broker, Act.FlushIn(q));
    case FlushOut(q) => GotStays(s.broker, Act.FlushOut(q));
    case FlushMeter(svc) => FlushShape(s, svc);
    case Restart =>
    case Cancel => GotStays(s.broker, Act.Cancel);
  }

  lemma CrashedTakesElsewhere(s: System, i: nat)
    requires SystemOk(s) && s.crashed && Possible(s, Move.Take(i))
    ensures InQueue(s.threads[i].tsvc) != ORDER_QUEUE
  {
    assert ThreadOk(i, s.threads[i], s.broker.clients[i]);
  }

  /** While the payment service is crashed no move takes from order-queue. */
  lemma CrashedTakesNothing(s: System, m: Move)
    requires Reached(s) && s.crashed && Possible(s, m)
    ensures |s.broker.queues| == 5 && |Pipeline.Next(s, m).broker.queues| == 5
    ensures Pipeline.Next(s, m).broker.queues[ORDER_QUEUE].got == s.broker.queues[ORDER_QUEUE].got
  {
    ReachedIsOk(s);
    if m.Take? {
      CrashedTakesElsewhere(s, m.i);
    }
    hide SystemOk, BooksKept, Pipeline.Next;
    GotOnlyByTake(s, m, ORDER_QUEUE);
  }

  /** Only a restart, or a tick of the payment ticker that sees no crash fault,
      ends a crash. */
  lemma CrashLasts(s: System, m: Move)
    requires SystemOk(s) && s.crashed && Possible(s, m)
    requires !m.Restart? && (m.Tick? && m.i == 1 ==> m.shouldCrash)
    ensures Pipeline.Next(s, m).crashed
  {
    hide Reachable, Wired, Broker.Next;
    if m.Work? {
      WorkShape(s, m.i, m.draw);
    } else if m.OrderTick? {
      OrderResult(s, m.i, m.fails, m.msg);
    } else if m.FlushMeter? {
      assert Pipeline.Next(s, m).crashed == s.crashed;
    } else if m.Tick? {
      assert ThreadOk(m.i, s.threads[m.i], s.broker.clients[m.i]);
    }
  }

  lemma ReachedNext(s: System, m: Move)
    requires Reached(s) && Possible(s, m)
    ensures Reached(Pipeline.Next(s, m))
  {
    var moves :| Exec(moves) == Some(s);
    assert (moves + [m])[..|moves|] == moves;
    assert Exec(moves + [m]) == Some(Pipeline.Next(s, m));
  }

  lemma LastOfMore(moves: seq<Move>, more: seq<Move>)
    requires more != [] && Exec(moves + more).Some?
    ensures var init, m := more[..|more| - 1], more[|more| - 1];
      && m in more && (forall x :: x in init ==> x in more)
      && Exec(moves + init).Some? && Possible(Exec(moves + init).value, m)
      && Exec(moves + more) == Some(Pipeline.Next(Exec(moves + init).value, m))
  {
    hide Possible, Pipeline.Next;
    assert (moves + more)[..|moves + more| - 1] == moves + more[..|more| - 1];
  }

  /** An outage: from a crash on, as long as the fault stays active and nobody
      restarts the service, it stays crashed and no message leaves order-queue,
      whatever else the goroutines do. */
  lemma {:induction false} OutageTakesNothing(moves: seq<Move>, more: seq<Move>)
    requires Exec(moves).Some? && Exec(moves + more).Some? && Exec(moves).value.crashed
    requires forall m :: m in more ==> !m.Restart? && (m.Tick? && m.i == 1 ==> m.shouldCrash)
    ensures |Exec(moves).value.broker.queues| == 5 && |Exec(moves + more).value.broker.queues| == 5
    ensures Exec(moves + more).value.crashed
    ensures Exec(moves + more).value.broker.queues[ORDER_QUEUE].got == Exec(moves).value.broker.queues[ORDER_QUEUE].got
  {
    ExecIsOk(moves);
    if more == [] {
      assert moves + more == moves;
    } else {
      hide Possible, Pipeline.Next, Exec, SystemOk, BooksKept;
      var init, m := more[..|more| - 1], more[|more| - 1];
      LastOfMore(moves, more);
      OutageTakesNothing(moves, init);
      var s := Exec(moves + init).value;
      ExecIsOk(moves + init);
      assert Reached(s);
      CrashedTakesNothing(s, m);
      CrashLasts(s, m);
    }
  }

  /** An undisturbed payment tick leaves the service crashed exactly when its fault
      context says so, so it recovers by itself; it goes on to poll exactly when
      it was not crashed before and is not told to crash. */
  lemma CrashAndRecovery(s: System, any: bool, shouldCrash: bool)
    requires Reached(s) && Idle(s, 1) && s.threads[1].Ticker? && s.threads[1].tpc.Resting?
    ensures Possible(s, Tick(1, any))
    ensures var mid := Pipeline.Next(s, Tick(1, any));
      Possible(mid, Tick(1, shouldCrash)) &&
      var after := Pipeline.Next(mid, Tick(1, shouldCrash));
      && after.crashed == shouldCrash
      && after.threads[1] == Ticker(Payment, if s.crashed || shouldCrash then Resting else Polling(5))
      && after.broker == s.broker
  {
    ReachedIsOk(s);
    hide Reachable, Wired, ThreadsOk;
  }

  // --------------------------------------------------------------- metrics

  predicate ExactRow(row: Row) { row.processed + row.errors == row.total }

  predicate ExactMeter(m: Meter) {
    m.processed + m.errors == m.total && forall k :: 0 <= k < |m.rows| ==> ExactRow(m.rows[k])
  }

  /** A consumer counts every message attempt once: processed or failed. */
  predicate MetersExact(s: System) {
    ExactMeter(s.payment) && ExactMeter(s.fulfillment) && ExactMeter(s.notification)
  }

  lemma MeterStaysExact(m: Meter, e: Effect)
    requires ExactMeter(m)
    ensures ExactMeter(Metered(m, e)) && ExactMeter(Flush(m))
  {
  }

  lemma MoveKeepsExact(s: System, m: Move)
    requires SystemOk(s) && MetersExact(s) && Possible(s, m)
    ensures MetersExact(Pipeline.Next(s, m))
  {
    hide Reachable, Wired, ExactMeter;
    assert forall svc: Service :: !svc.Order? ==> ExactMeter(MeterOf(s, svc));
    if m.Work? {
      assert ThreadOk(m.i, s.threads[m.i], s.broker.clients[m.i]);
      WorkShape(s, m.i, m.draw);
      MeterStaysExact(MeterOf(s, s.threads[m.i].job.svc), JobStep(m.i, s.threads[m.i].job, m.draw).1);
      MetersFrom(Pipeline.Next(s, m));
    } else if m.FlushMeter? {
      FlushShape(s, m.svc);
      if !m.svc.Order? { MeterStaysExact(MeterOf(s, m.svc), Quiet); }
      MetersFrom(Pipeline.Next(s, m));
    } else if m.OrderTick? {
      OrderShape(s, m.i, m.fails, m.msg);
      MetersFrom(Pipeline.Next(s, m));
    }
  }

  lemma MetersFrom(s: System)
    ensures MetersExact(s) <==>
      ExactMeter(MeterOf(s, Payment)) && ExactMeter(MeterOf(s, Fulfillment)) && ExactMeter(MeterOf(s, Notification))
  {
  }

  lemma {:induction false} ExecMetersExact(moves: seq<Move>)
    requires Exec(moves).Some?
    ensures MetersExact(Exec(moves).value)
  {
    if moves == [] {
    } else {
      ExecIsOk(moves[..|moves| - 1]);
      ExecMetersExact(moves[..|moves| - 1]);
      MoveKeepsExact(Exec(moves[..|moves| - 1]).value, moves[|moves| - 1]);
    }
  }

  lemma RateInUnit(row: Row)
    requires row.errors <= row.total
    ensures 0.0 <= ErrorRate(row) <= 1.0
  {
    if row.total > 0 {
      Ratio(row.errors as real, row.total as real);
    }
  }

  lemma Ratio(a: real, b: real)
    requires 0.0 <= a <= b && b > 0.0
    ensures 0.0 <= a / b <= 1.0
  {
    var r := a / b;
    assert r * b == a;
    if r > 1.0 { ProductAbove(r, b); }
    if r < 0.0 { ProductBelow(r, b); }
  }

  lemma ProductAbove(r: real, b: real)
    requires r > 1.0 && b > 0.0
    ensures r * b > b
  {
    assert (r - 1.0) * b > 0.0;
  }

  lemma ProductBelow(r: real, b: real)
    requires r < 0.0 && b > 0.0
    ensures r * b < 0.0
  {
  }

  /** Payment, fulfillment and notification metrics, in every state and in every
      flushed row: the columns add up, so every error rate lies in [0, 1]; and
      what was ever counted is what the goroutines counted. */
  lemma ConsumerMetrics(s: System, svc: Service)
    requires Reached(s) && !svc.Order?
    ensures var m := MeterOf(s, svc);
      && ExactMeter(m)
      && (forall k :: 0 <= k < |m.rows| ==> 0.0 <= ErrorRate(m.rows[k]) <= 1.0)
      && Ever(m, Processed) == Count(s.threads, Ended(svc, {Succeeded, Declined}))
      && Ever(m, Errors) == Sum(s.threads, Part(Counted(svc, Errors)))
      && Ever(m, Total) == Ever(m, Processed) + Ever(m, Errors)
  {
    ReachedIsOk(s);
    var moves :| Exec(moves) == Some(s);
    ExecMetersExact(moves);
    var m := MeterOf(s, svc);
    forall k | 0 <= k < |m.rows| ensures 0.0 <= ErrorRate(m.rows[k]) <= 1.0 {
      RateInUnit(m.rows[k]);
    }
    ExactEver(m);
    SuccessesAreOutcomes(s.threads, s.broker.clients, svc);
    assert Accounts.Shown(s, Counted(svc, Processed)) == Sum(s.threads, Part(Counted(svc, Processed)));
    assert Accounts.Shown(s, Counted(svc, Errors)) == Sum(s.threads, Part(Counted(svc, Errors)));
  }

  lemma ExactEver(m: Meter)
    requires ExactMeter(m)
    ensures Ever(m, Total) == Ever(m, Processed) + Ever(m, Errors)
  {
    RowsAddUp(m.rows);
  }

  lemma {:induction false} RowsAddUp(rows: seq<Row>)
    requires forall k :: 0 <= k < |rows| ==> ExactRow(rows[k])
    ensures Sum(rows, Entries(Total)) == Sum(rows, Entries(Processed)) + Sum(rows, Entries(Errors))
  {
    if rows == [] {
    } else {
      RowsAddUp(rows[..|rows| - 1]);
      assert ExactRow(rows[|rows| - 1]);
    }
  }

  predicate EndedIn(svc: Service, outcomes: set<Outcome>, t: Thread) {
    t.Worker? && t.job.svc == svc && t.job.pc.Done? && t.job.pc.outcome in outcomes
  }

  function Ended(svc: Service, outcomes: set<Outcome>): Thread -> bool { (t: Thread) => EndedIn(svc, outcomes, t) }

  lemma {:induction false} SuccessesAreOutcomes(threads: seq<Thread>, clients: seq<Client>, svc: Service)
    requires ThreadsOk(threads, clients) && !svc.Order?
    ensures Sum(threads, Part(Counted(svc, Processed))) == Count(threads, Ended(svc, {Succeeded, Declined}))
  {
    if threads == [] {
    } else {
      var n := |threads| - 1;
      SuccessesAreOutcomes(threads[..n], clients[..n], svc);
      assert ThreadOk(n, threads[n], clients[n]);
    }
  }
}
