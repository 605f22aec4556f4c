/** What each goroutine's program counter says about it, and the books of the
    services, in every reachable state. */
module PipelineLaws {
  import opened Sequences
  import opened Messages
  import opened Broker
  import opened BrokerLaws
  import opened BrokerRuns
  import opened Pipeline

  // ---------------------------------------------------------------- wiring

  /** The queues of the program: payment-queue feeds the notification
      subscription, which was there before anything was sent. */
  ghost predicate WiredQueues(queues: seq<Queue>) {
    && |queues| == 5
    && (forall q :: 0 <= q < 5 ==> queues[q].subs == (if q == PAYMENT_QUEUE then [NOTIFICATION_SUB] else []))
    && (forall q :: 0 <= q < 5 ==> queues[q].parent == (if q == NOTIFICATION_SUB then Some(PAYMENT_QUEUE) else None))
    && queues[NOTIFICATION_SUB].since == 0
    && queues[NOTIFICATION_SUB].called == []
  }

  ghost predicate Wired(b: State) { WiredQueues(b.queues) && |b.queues| == 5 }

  const ROOT: Queue := NewQueueOf(None, 0)

  lemma QueueAdded(queues: seq<Queue>)
    requires Reachable(State(queues, [], false))
    ensures Reachable(State(queues + [ROOT], [], false))
  {
    ReachableStep(State(queues, [], false), NewQueue);
  }

  lemma ClientAdded(queues: seq<Queue>, clients: seq<Client>)
    requires Reachable(State(queues, clients, false))
    ensures Reachable(State(queues, clients + [Client(Free, [])], false))
  {
    ReachableStep(State(queues, clients, false), NewClient);
  }

  lemma SubscriptionAdded()
    requires Reachable(State([ROOT, ROOT, ROOT], [], false))
    ensures Reachable(State([ROOT, PAYMENTS, ROOT, NewQueueOf(Some(PAYMENT_QUEUE), 0)], [], false))
  {
    ReachableStep(State([ROOT, ROOT, ROOT], [], false), Subscribe(PAYMENT_QUEUE));
    assert ROOT.subs + [NOTIFICATION_SUB] == [NOTIFICATION_SUB];
    assert [ROOT, ROOT, ROOT][PAYMENT_QUEUE := PAYMENTS] + [NewQueueOf(Some(PAYMENT_QUEUE), 0)]
        == [ROOT, PAYMENTS, ROOT, NewQueueOf(Some(PAYMENT_QUEUE), 0)];
  }

  lemma RootsAreReachable()
    ensures Reachable(State([ROOT, ROOT, ROOT], [], false))
  {
    assert Run([]) == Some(EMPTY);
    assert Reachable(State([], [], false));
    hide Reachable, NewQueueOf;
    QueueAdded([]);
    assert [] + [ROOT] == [ROOT];
    QueueAdded([ROOT]);
    assert [ROOT] + [ROOT] == [ROOT, ROOT];
    QueueAdded([ROOT, ROOT]);
    assert [ROOT, ROOT] + [ROOT] == [ROOT, ROOT, ROOT];
  }

  lemma ClientsAdded(queues: seq<Queue>)
    requires Reachable(State(queues, [], false))
    ensures Reachable(State(queues, FRESH_BROKER.clients, false))
  {
    hide Reachable;
    var free := Client(Free, []);
    ClientAdded(queues, []);
    assert [] + [free] == [free];
    ClientAdded(queues, [free]);
    assert [free] + [free] == [free, free];
    ClientAdded(queues, [free, free]);
    assert [free, free] + [free] == [free, free, free];
    ClientAdded(queues, [free, free, free]);
    assert [free, free, free] + [free] == [free, free, free, free];
  }

  lemma StartIsReachable()
    ensures Reachable(FRESH_BROKER)
  {
    hide Reachable, NewQueueOf;
    RootsAreReachable();
    SubscriptionAdded();
    var queues := [ROOT, PAYMENTS, ROOT, NewQueueOf(Some(PAYMENT_QUEUE), 0)];
    QueueAdded(queues);
    assert queues + [ROOT] == FRESH_BROKER.queues;
    ClientsAdded(FRESH_BROKER.queues);
  }

  // ------------------------------------------------------------ goroutines

  /** The one send a message goroutine has begun by now, if any. */
  function Letter(i: nat, w: Job): Option<(nat, Message)> {
    var poisonLetter := Some((PAYMENT_DLQ, DeadLetter(i, SchemaInvalid, 1, w.taken)));
    var failureLetter := Some((DeadLetterQueue(w.svc), DeadLetter(i, ProcessingError, MaxAttempts(w.svc), w.taken)));
    match w.pc
    case Poisoning => poisonLetter
    case Approving => Some((PAYMENT_QUEUE, Receipt(i)))
    case Burying => failureLetter
    case Done(DeadLettered) => if w.svc.Payment? && w.taken.poisoned then poisonLetter else failureLetter
    case Done(Succeeded) => if w.svc.Payment? then Some((PAYMENT_QUEUE, Receipt(i))) else None
    case _ => None
  }

  /** The program counter tells the attempts made and the counts taken. */
  predicate JobOk(w: Job) {
    var max := MaxAttempts(w.svc);
    var tried := w.taken.wellFormed && !(w.svc.Payment? && w.taken.poisoned)
        && !(w.svc.Fulfillment? && w.taken.declined);
    && !w.svc.Order?
    && match w.pc
       case Ready => w.errs == 0 && w.oks == 0
       case Asleep(n) => tried && 1 <= n <= max && w.errs == n - 1 && w.oks == 0
       case Failing(n) => tried && 1 <= n <= max && w.errs == n - 1 && w.oks == 0
       case BackingOff(n) => tried && 1 <= n < max && w.errs == n && w.oks == 0
       case GivingUp(n) => tried && n == max && w.errs == max && w.oks == 0 && !Discards(w.svc)
       case Rejecting => !w.taken.wellFormed && w.errs == 0 && w.oks == 0
       case Poisoning => w.svc.Payment? && w.taken.wellFormed && w.taken.poisoned && w.errs == 0 && w.oks == 0
       case Approving => w.svc.Payment? && tried && w.errs < max && w.oks == 0
       case Burying => tried && w.errs == max && w.oks == 0 && !Discards(w.svc)
       case Succeeding(d) => w.taken.wellFormed && !w.svc.Payment? && w.errs < max && w.oks == 0
           && (if d then w.svc.Fulfillment? && w.taken.declined && w.errs == 0 else tried)
       case Done(Malformed) => !w.taken.wellFormed && w.errs == 1 && w.oks == 0
       case Done(Succeeded) => tried && w.errs < max && w.oks == 1
       case Done(Declined) => w.taken.wellFormed && w.svc.Fulfillment? && w.taken.declined && w.errs == 0 && w.oks == 1
       case Done(DeadLettered) =>
         && !Discards(w.svc) && w.taken.wellFormed && w.oks == 0
         && (if w.svc.Payment? && w.taken.poisoned then w.errs == 1 else tried && w.errs == max)
       case Done(Discarded) => Discards(w.svc) && tried && w.errs == max && w.oks == 0
       case Done(Abandoned) => tried && w.errs < max && w.oks == 0
  }

  predicate InSend(pc: Pc) { pc.Poisoning? || pc.Approving? || pc.Burying? }

  lemma JobStepCounts(i: nat, w: Job, d: Draw)
    requires JobOk(w) && !w.pc.Done?
    ensures var (w', e) := JobStep(i, w, d);
      && JobOk(w') && w'.svc == w.svc && w'.taken == w.taken
      && w'.errs == w.errs + (if e.CountError? then 1 else 0)
      && w'.oks == w.oks + (if e.CountSuccess? then 1 else 0)
  {
    hide DeadLetter, Receipt, DeadLetterQueue;
  }

  lemma JobStepSends(i: nat, w: Job, d: Draw)
    requires JobOk(w) && !w.pc.Done?
    ensures var (w', e) := JobStep(i, w, d);
      && (e.SendTo? ==> Letter(i, w) == None && Letter(i, w') == Some((e.q, e.msg)) && InSend(w'.pc))
      && (!e.SendTo? ==> Letter(i, w') == Letter(i, w) && !InSend(w'.pc))
  {
    hide DeadLetter, Receipt, DeadLetterQueue;
  }

  lemma JobStepOk(i: nat, w: Job, d: Draw)
    requires JobOk(w) && !w.pc.Done?
    ensures var (w', e) := JobStep(i, w, d);
      && JobOk(w') && w'.svc == w.svc && w'.taken == w.taken
      && (e.SendTo? ==> Letter(i, w) == None && Letter(i, w') == Some((e.q, e.msg)) && InSend(w'.pc))
      && (!e.SendTo? ==> Letter(i, w') == Letter(i, w) && !InSend(w'.pc))
      && w'.errs == w.errs + (if e.CountError? then 1 else 0)
      && w'.oks == w.oks + (if e.CountSuccess? then 1 else 0)
  {
    hide *;
    JobStepCounts(i, w, d);
    JobStepSends(i, w, d);
  }

  /** A goroutine's own steps run out: no message is worked on for ever. */
  function Remaining(w: Job): nat {
    match w.pc
    case Ready => 20
    case Asleep(n) => if n <= 4 then 17 - 3 * n else 3
    case Failing(n) => if n <= 4 then 16 - 3 * n else 3
    case BackingOff(n) => if n <= 4 then 15 - 3 * n else 3
    case GivingUp(_) => 2
    case Done(_) => 0
    case _ => 1
  }

  lemma JobsEnd(i: nat, w: Job, d: Draw)
    requires JobOk(w) && !w.pc.Done?
    ensures Remaining(JobStep(i, w, d).0) < Remaining(w)
  {
  }

  // ------------------------------------------------- goroutines and their calls

  function InLetter(letter: Option<(nat, Message)>, q: nat, pick: Pick): nat {
    if letter.Some? && letter.value.0 == q && Picked(pick, letter.value.1) then 1 else 0
  }

  /** The goroutine has called Send exactly for this letter, once. */
  ghost predicate CalledFor(log: seq<Event>, letter: Option<(nat, Message)>) {
    forall q, pick :: Count(log, CallsTo(q, pick)) == InLetter(letter, q, pick)
  }

  /** The goroutine has called Send on the first n queues only, and with messages
      that bear no goroutine's id. */
  ghost predicate CalledOnly(log: seq<Event>, n: nat) {
    && (forall q, i :: Count(log, CallsTo(q, From(i))) == 0)
    && (forall q, pick :: q >= n ==> Count(log, CallsTo(q, pick)) == 0)
  }

  /** What is known of goroutine i from its own state. */
  ghost predicate ThreadOk(i: nat, t: Thread, c: Client) {
    match t
    case Worker(w) => JobOk(w) && CalledFor(c.log, Letter(i, w)) && (c.io != Free ==> InSend(w.pc) && c.io.Sending?)
    case Ticker(svc, pc) =>
      && !svc.Order? && (pc.Deciding? ==> svc.Payment?) && CalledFor(c.log, None)
      && (c.io != Free ==> pc.Holding? && (c.io == ToSubDepth(InQueue(svc)) || c.io == ToAddDequeued(InQueue(svc))))
    case OrderLoop(pc, reqs, lost, sent) =>
      && CalledOnly(c.log, 1) && (c.io != Free ==> pc.Enqueuing? && c.io.Sending?)
      && reqs == lost + sent + (if pc.Waiting? then 0 else 1)
      && Count(c.log, CallsTo(ORDER_QUEUE, All)) == sent + (if pc.Enqueuing? then 1 else 0)
      && Count(c.log, CallsTo(ORDER_QUEUE, Broken)) == 0
    case Outside => CalledOnly(c.log, 2) && (c.io != Free ==> c.io.Sending?)
  }

  lemma SameCalls(log: seq<Event>, e: Event)
    requires !e.Called?
    ensures forall q, pick :: Count(log + [e], CallsTo(q, pick)) == Count(log, CallsTo(q, pick))
  {
    forall q, pick ensures Count(log + [e], CallsTo(q, pick)) == Count(log, CallsTo(q, pick)) {
      LogSnoc(log, e, q, pick);
    }
  }

  lemma OneMoreCall(log: seq<Event>, q: nat, m: Message)
    ensures forall r, pick ::
      Count(log + [Called(q, m)], CallsTo(r, pick)) == Count(log, CallsTo(r, pick)) + InLetter(Some((q, m)), r, pick)
  {
    forall r, pick
      ensures Count(log + [Called(q, m)], CallsTo(r, pick))
              == Count(log, CallsTo(r, pick)) + InLetter(Some((q, m)), r, pick)
    {
      LogSnoc(log, Called(q, m), r, pick);
    }
  }

  /** Steps inside a queue operation call nothing. */
  lemma MicroKeepsThread(i: nat, t: Thread, qu: Queue, c: Client)
    requires ThreadOk(i, t, c) && (c.io.Sending? ==> c.io.todo != [])
    ensures ThreadOk(i, t, Micro(qu, c).1)
  {
    if c.io.Sending? && c.io.phase.ToPut? {
      SameCalls(c.log, Stored(c.io.todo[0], c.io.msg));
    }
    hide Count, JobOk, Letter;
  }

  lemma DropKeepsThread(i: nat, t: Thread, qu: Queue, c: Client)
    requires ThreadOk(i, t, c) && c.io.Sending? && c.io.todo != []
    ensures ThreadOk(i, t, DropStep(qu, c).1)
  {
    SameCalls(c.log, Lost(c.io.todo[0], c.io.msg));
    hide Count, JobOk, Letter;
  }

  /** A step of a message goroutine, with the call it makes. */
  lemma WorkKeepsThread(i: nat, w: Job, d: Draw, qu: Queue, c: Client)
    requires ThreadOk(i, Worker(w), c) && c.io == Free && !w.pc.Done?
    ensures var (w', e) := JobStep(i, w, d);
      ThreadOk(i, Worker(w'), if e.SendTo? then CallStep(qu, c, e.q, e.msg).1 else c)
  {
    JobStepOk(i, w, d);
    var (w', e) := JobStep(i, w, d);
    if e.SendTo? {
      OneMoreCall(c.log, e.q, e.msg);
      assert forall q, pick :: InLetter(None, q, pick) == 0;
    }
    hide Count, JobOk, Letter, JobStep;
  }

  /** A send by a goroutine that bears no id, on queue q < n. */
  lemma CallKeepsOnly(log: seq<Event>, n: nat, q: nat, m: Message)
    requires CalledOnly(log, n) && q < n && m.source.None?
    ensures CalledOnly(log + [Called(q, m)], n)
  {
    OneMoreCall(log, q, m);
    hide Count;
  }

  // ------------------------------------------------------------- invariant

  ghost predicate ThreadsOk(threads: seq<Thread>, clients: seq<Client>) {
    |threads| == |clients| && forall i: nat :: i < |threads| ==> ThreadOk(i, threads[i], clients[i])
  }

  /** One order loop and one ticker per consumer; everything else came later. */
  predicate Roles(threads: seq<Thread>) {
    && |threads| >= 4
    && threads[0].OrderLoop?
    && threads[1].Ticker? && threads[1].tsvc.Payment?
    && threads[2].Ticker? && threads[2].tsvc.Fulfillment?
    && threads[3].Ticker? && threads[3].tsvc.Notification?
    && forall i :: 4 <= i < |threads| ==> threads[i].Worker? || threads[i].Outside?
  }

  predicate GoesOn(t: Thread) {
    t.Ticker? && (t.tpc.Polling? || t.tpc.Holding? || t.tpc == Deciding(false))
  }

  /** The payment service polls only while it is not crashed. */
  predicate CrashOk(s: System) {
    |s.threads| > 1 && (GoesOn(s.threads[1]) ==> !s.crashed)
  }

  ghost predicate SystemOk(s: System) {
    Reachable(s.broker) && Wired(s.broker) && ThreadsOk(s.threads, s.broker.clients) && Roles(s.threads) && CrashOk(s)
  }

  lemma StartIsOk()
    ensures SystemOk(START)
  {
    StartIsReachable();
    hide Reachable, Count;
  }

  lemma SwapKeepsWiring(queues: seq<Queue>, q: nat, qu: Queue)
    requires WiredQueues(queues) && q < 5
    requires qu.subs == queues[q].subs && qu.parent == queues[q].parent && qu.since == queues[q].since
    requires q == NOTIFICATION_SUB ==> qu.called == queues[q].called
    ensures WiredQueues(queues[q := qu])
  {
  }

  /** No step changes the wiring, or calls Send on the subscription directly. */
  lemma WiringStays(b: State, a: Act)
    requires Wired(b) && Enabled(b, a) && !a.NewQueue? && !a.Subscribe?
    requires a.Call? ==> a.q != NOTIFICATION_SUB
    ensures Wired(Broker.Next(b, a))
  {
    var b' := Broker.Next(b, a);
    hide WiredQueues;
    match a
    case Call(i, q, m) => SwapKeepsWiring(b.queues, q, CallStep(b.queues[q], b.clients[i], q, m).0);
    case Proceed(i) =>
      var q := Target(b.clients[i].io);
      SwapKeepsWiring(b.queues, q, Micro(b.queues[q], b.clients[i]).0);
    case Drop(i) =>
      var q := Target(b.clients[i].io);
      SwapKeepsWiring(b.queues, q, DropStep(b.queues[q], b.clients[i]).0);
    case Take(i, q) => SwapKeepsWiring(b.queues, q, TakeStep(b.queues[q], b.clients[i], q).0);
    case FlushIn(q) => SwapKeepsWiring(b.queues, q, b'.queues[q]);
    case FlushOut(q) => SwapKeepsWiring(b.queues, q, b'.queues[q]);
    case _ =>
  }

  lemma BrokerStep(b: State, a: Act)
    requires Reachable(b) && Wired(b) && Enabled(b, a) && !a.NewQueue? && !a.Subscribe?
    requires a.Call? ==> a.q != NOTIFICATION_SUB
    ensures Reachable(Broker.Next(b, a)) && Wired(Broker.Next(b, a))
  {
    ReachableStep(b, a);
    WiringStays(b, a);
  }

  lemma SwapKeepsThreads(threads: seq<Thread>, clients: seq<Client>, i: nat, t: Thread, c: Client)
    requires ThreadsOk(threads, clients) && i < |threads| && ThreadOk(i, t, c)
    ensures ThreadsOk(threads[i := t], clients[i := c])
  {
    hide ThreadOk;
  }

  lemma AppendKeepsThreads(threads: seq<Thread>, clients: seq<Client>, t: Thread)
    requires ThreadsOk(threads, clients) && ThreadOk(|threads|, t, Client(Free, []))
    ensures ThreadsOk(threads + [t], clients + [Client(Free, [])])
  {
    hide ThreadOk;
  }

  lemma NewThreadsOk(i: nat, svc: Service, m: Message)
    requires !svc.Order?
    ensures ThreadOk(i, Worker(Job(svc, m, Ready, 0, 0)), Client(Free, []))
    ensures ThreadOk(i, Outside, Client(Free, []))
  {
  }

  lemma IoKeepsOk(s: System, i: nat, loses: bool)
    requires SystemOk(s) && Possible(s, if loses then Lose(i) else Io(i))
    ensures SystemOk(Pipeline.Next(s, if loses then Lose(i) else Io(i)))
  {
    var c, t := s.broker.clients[i], s.threads[i];
    var qu := s.broker.queues[Target(c.io)];
    if loses {
      BrokerStep(s.broker, Drop(i));
      DropKeepsThread(i, t, qu, c);
      SwapKeepsThreads(s.threads, s.broker.clients, i, t, DropStep(qu, c).1);
    } else {
      BrokerStep(s.broker, Proceed(i));
      MicroKeepsThread(i, t, qu, c);
      SwapKeepsThreads(s.threads, s.broker.clients, i, t, Micro(qu, c).1);
    }
    hide Reachable, Wired, ThreadOk;
    assert s.threads[i := t] == s.threads;
  }

  lemma WorkShape(s: System, i: nat, d: Draw)
    requires Possible(s, Work(i, d))
    ensures var s', r := Pipeline.Next(s, Work(i, d)), JobStep(i, s.threads[i].job, d);
      && s'.broker == Sent(s.broker, i, r.1)
      && s'.threads == s.threads[i := Worker(r.0)]
      && s'.crashed == s.crashed
      && forall svc :: MeterOf(s', svc) == if svc == s.threads[i].job.svc then Metered(MeterOf(s, svc), r.1)
          else MeterOf(s, svc)
  {
  }

  lemma SendKeepsThreads(b: State, threads: seq<Thread>, i: nat, w: Job, d: Draw)
    requires Wired(b) && ThreadsOk(threads, b.clients) && i < |threads| && threads[i] == Worker(w)
    requires b.clients[i].io == Free && !w.pc.Done?
    ensures var r := JobStep(i, w, d);
      && (r.1.SendTo? ==> Enabled(b, Call(i, r.1.q, r.1.msg)) && r.1.q != NOTIFICATION_SUB)
      && ThreadsOk(threads[i := Worker(r.0)], Sent(b, i, r.1).clients)
  {
    assert |b.queues| == 5;
    hide ThreadOk, Wired;
    var c := b.clients[i];
    var (w', e) := JobStep(i, w, d);
    LetterRoots(i, w, d);
    if e.SendTo? {
      WorkKeepsThread(i, w, d, b.queues[e.q], c);
      SwapKeepsThreads(threads, b.clients, i, Worker(w'), CallStep(b.queues[e.q], c, e.q, e.msg).1);
    } else {
      WorkKeepsThread(i, w, d, b.queues[0], c);
      SwapKeepsThreads(threads, b.clients, i, Worker(w'), c);
      assert b.clients[i := c] == b.clients;
    }
    hide JobStep;
  }

  lemma SwapKeepsRoles(threads: seq<Thread>, i: nat, t: Thread)
    requires Roles(threads) && i < |threads|
    requires (t.Worker? && threads[i].Worker?) || (t.OrderLoop? && threads[i].OrderLoop?)
    ensures Roles(threads[i := t]) && threads[i := t][1] == threads[1]
  {
  }

  lemma WorkKeepsOk(s: System, i: nat, d: Draw)
    requires SystemOk(s) && Possible(s, Work(i, d))
    ensures SystemOk(Pipeline.Next(s, Work(i, d)))
  {
    var e := JobStep(i, s.threads[i].job, d).1;
    SendKeepsThreads(s.broker, s.threads, i, s.threads[i].job, d);
    if e.SendTo? {
      BrokerStep(s.broker, Call(i, e.q, e.msg));
    }
    WorkShape(s, i, d);
    SwapKeepsRoles(s.threads, i, Worker(JobStep(i, s.threads[i].job, d).0));
    hide Reachable, Wired, ThreadsOk, JobStep, Pipeline.Next, Broker.Next, Roles, GoesOn;
  }

  lemma LetterRoots(i: nat, w: Job, d: Draw)
    ensures var e := JobStep(i, w, d).1;
      e.SendTo? ==> e.q < 5 && e.q != NOTIFICATION_SUB
  {
  }

  lemma TickKeepsCrash(s: System, i: nat, shouldCrash: bool)
    requires CrashOk(s) && Roles(s.threads) && Possible(s, Tick(i, shouldCrash))
    requires s.threads[i].tpc.Deciding? ==> s.threads[i].tsvc.Payment?
    ensures CrashOk(Pipeline.Next(s, Tick(i, shouldCrash))) && Roles(Pipeline.Next(s, Tick(i, shouldCrash)).threads)
  {
    hide Broker.Next, Enabled;
  }

  lemma TickKeepsThread(i: nat, t: Thread, t': Thread, c: Client)
    requires t.Ticker? && ThreadOk(i, t, c) && c.io == Free
    requires t'.Ticker? && t'.tsvc == t.tsvc && (t'.tpc.Deciding? ==> t.tsvc.Payment?)
    ensures ThreadOk(i, t', c)
  {
  }

  lemma TickKeepsThreads(s: System, i: nat, shouldCrash: bool)
    requires ThreadsOk(s.threads, s.broker.clients) && Possible(s, Tick(i, shouldCrash))
    ensures ThreadsOk(Pipeline.Next(s, Tick(i, shouldCrash)).threads,
        Pipeline.Next(s, Tick(i, shouldCrash)).broker.clients)
    ensures s.threads[i].tpc.Deciding? ==> s.threads[i].tsvc.Payment?
  {
    var t, c := s.threads[i], s.broker.clients[i];
    var s' := Pipeline.Next(s, Tick(i, shouldCrash));
    assert ThreadOk(i, t, c);
    TickKeepsThread(i, t, s'.threads[i], c);
    SwapKeepsThreads(s.threads, s.broker.clients, i, s'.threads[i], c);
    assert s.broker.clients[i := c] == s.broker.clients;
    if t.tpc.Holding? {
      NewThreadsOk(|s.threads|, t.tsvc, t.tpc.msg);
      AppendKeepsThreads(s.threads[i := s'.threads[i]], s.broker.clients, s'.threads[|s.threads|]);
    }
    hide ThreadOk;
  }

  lemma TickKeepsOk(s: System, i: nat, shouldCrash: bool)
    requires SystemOk(s) && Possible(s, Tick(i, shouldCrash))
    ensures SystemOk(Pipeline.Next(s, Tick(i, shouldCrash)))
  {
    TickKeepsThreads(s, i, shouldCrash);
    TickKeepsCrash(s, i, shouldCrash);
    BrokerStep(s.broker, NewClient);
    hide Reachable, Wired, ThreadsOk, Roles, CrashOk, Broker.Next;
  }

  lemma TakeKeepsThread(i: nat, svc: Service, left: nat, m: Message, qu: Queue, c: Client)
    requires ThreadOk(i, Ticker(svc, Polling(left)), c) && c.io == Free && left > 0 && qu.buf != []
    ensures ThreadOk(i, Ticker(svc, Holding(left - 1, m)), TakeStep(qu, c, InQueue(svc)).1)
  {
  }

  lemma TakeResult(s: System, i: nat)
    requires Possible(s, Move.Take(i)) && Roles(s.threads) && CrashOk(s)
    ensures var s', t := Pipeline.Next(s, Move.Take(i)), s.threads[i];
      && s'.broker == Broker.Next(s.broker, Act.Take(i, InQueue(t.tsvc)))
      && s'.threads == s.threads[i := Ticker(t.tsvc, Holding(t.tpc.left - 1, s.broker.queues[InQueue(t.tsvc)].buf[0]))]
      && s'.crashed == s.crashed && Roles(s'.threads) && CrashOk(s')
  {
    hide Broker.Next;
  }

  lemma TakeKeepsOk(s: System, i: nat)
    requires SystemOk(s) && Possible(s, Move.Take(i))
    ensures SystemOk(Pipeline.Next(s, Move.Take(i)))
  {
    var t, c := s.threads[i], s.broker.clients[i];
    var q := InQueue(t.tsvc);
    var qu := s.broker.queues[q];
    var t' := Ticker(t.tsvc, Holding(t.tpc.left - 1, qu.buf[0]));
    BrokerStep(s.broker, Act.Take(i, q));
    assert ThreadOk(i, t, c);
    TakeKeepsThread(i, t.tsvc, t.tpc.left, qu.buf[0], qu, c);
    SwapKeepsThreads(s.threads, s.broker.clients, i, t', TakeStep(qu, c, q).1);
    TakeResult(s, i);
    hide Reachable, Wired, ThreadOk, Pipeline.Next, Roles, CrashOk;
  }

  lemma EnqueueKeepsThread(i: nat, t: Thread, c: Client, qu: Queue, msg: Message)
    requires t.OrderLoop? && t.opc.Requested? && ThreadOk(i, t, c) && c.io == Free && FromOrder(msg)
    ensures ThreadOk(i, t.(opc := Enqueuing), CallStep(qu, c, ORDER_QUEUE, msg).1)
  {
    CallKeepsOnly(c.log, 1, ORDER_QUEUE, msg);
    LogSnoc(c.log, Called(ORDER_QUEUE, msg), ORDER_QUEUE, All);
    LogSnoc(c.log, Called(ORDER_QUEUE, msg), ORDER_QUEUE, Broken);
    hide Count, CalledOnly;
  }

  lemma OrderKeepsThread(i: nat, t: Thread, c: Client, fails: bool)
    requires t.OrderLoop? && ThreadOk(i, t, c) && c.io == Free && (t.opc.Requested? ==> fails)
    ensures ThreadOk(i, OrderStep(t, fails), c)
  {
    hide Count, CalledOnly;
  }

  lemma SentClients(b: State, i: nat, e: Effect)
    requires e.SendTo? ==> Enabled(b, Call(i, e.q, e.msg))
    ensures Sent(b, i, e).clients
            == if e.SendTo? then b.clients[i := CallStep(b.queues[e.q], b.clients[i], e.q, e.msg).1] else b.clients
  {
  }

  lemma OrderKeepsThreads(b: State, threads: seq<Thread>, i: nat, fails: bool, msg: Message)
    requires Wired(b) && ThreadsOk(threads, b.clients) && i < |threads| && threads[i].OrderLoop?
    requires b.clients[i].io == Free && FromOrder(msg)
    ensures var e := OrderEffect(threads[i], fails, msg);
      && (e.SendTo? ==> Enabled(b, Call(i, e.q, e.msg)))
      && ThreadsOk(threads[i := OrderStep(threads[i], fails)], Sent(b, i, e).clients)
  {
    assert |b.queues| == 5;
    hide ThreadOk, OrderStep, Wired, CallStep, FromOrder, Sent;
    var t, c, qu := threads[i], b.clients[i], b.queues[ORDER_QUEUE];
    assert ThreadOk(i, t, c);
    SentClients(b, i, OrderEffect(t, fails, msg));
    if t.opc.Requested? && !fails {
      EnqueueKeepsThread(i, t, c, qu, msg);
      SwapKeepsThreads(threads, b.clients, i, OrderStep(t, fails), CallStep(qu, c, ORDER_QUEUE, msg).1);
    } else {
      OrderKeepsThread(i, t, c, fails);
      SwapKeepsThreads(threads, b.clients, i, OrderStep(t, fails), c);
      assert b.clients[i := c] == b.clients;
    }
  }

  lemma OrderResult(s: System, i: nat, fails: bool, msg: Message)
    requires Possible(s, OrderTick(i, fails, msg))
    ensures var s' := Pipeline.Next(s, OrderTick(i, fails, msg));
      && s'.broker == Sent(s.broker, i, OrderEffect(s.threads[i], fails, msg))
      && s'.threads == s.threads[i := OrderStep(s.threads[i], fails)]
      && s'.crashed == s.crashed
  {
  }

  lemma OrderKeepsOk(s: System, i: nat, fails: bool, msg: Message)
    requires SystemOk(s) && Possible(s, OrderTick(i, fails, msg))
    ensures SystemOk(Pipeline.Next(s, OrderTick(i, fails, msg)))
  {
    OrderKeepsThreads(s.broker, s.threads, i, fails, msg);
    BrokerStep(s.broker, Call(i, ORDER_QUEUE, msg));
    OrderResult(s, i, fails, msg);
    SwapKeepsRoles(s.threads, i, OrderStep(s.threads[i], fails));
    hide Reachable, Wired, ThreadsOk, Broker.Next, Pipeline.Next, OrderStep, Roles, GoesOn;
  }

  lemma ProduceKeepsOk(s: System, i: nat, q: nat, msg: Message)
    requires SystemOk(s) && Possible(s, Produce(i, q, msg))
    ensures SystemOk(Pipeline.Next(s, Produce(i, q, msg)))
  {
    var c, qu := s.broker.clients[i], s.broker.queues[q];
    assert ThreadOk(i, Outside, c);
    CallKeepsOnly(c.log, 2, q, msg);
    BrokerStep(s.broker, Call(i, q, msg));
    SwapKeepsThreads(s.threads, s.broker.clients, i, Outside, CallStep(qu, c, q, msg).1);
    hide Reachable, Wired, ThreadOk;
    assert s.threads[i := Outside] == s.threads;
  }

  lemma ArriveKeepsOk(s: System)
    requires SystemOk(s)
    ensures SystemOk(Pipeline.Next(s, Arrive))
  {
    BrokerStep(s.broker, NewClient);
    NewThreadsOk(|s.threads|, Payment, Receipt(0));
    AppendKeepsThreads(s.threads, s.broker.clients, Outside);
    hide Reachable, Wired, ThreadOk;
  }

  /** Flushes, restarts and cancellation concern no goroutine. */
  lemma QuietKeepsOk(s: System, m: Move)
    requires SystemOk(s) && Possible(s, m)
    requires m.FlushIn? || m.FlushOut? || m.FlushMeter? || m.Restart? || m.Cancel?
    ensures SystemOk(Pipeline.Next(s, m))
  {
    hide Reachable, Wired, ThreadOk, Roles, GoesOn, Broker.Next;
    if m.FlushIn? {
      BrokerStep(s.broker, Act.FlushIn(m.q));
      SameClients(s.broker, Act.FlushIn(m.q));
    } else if m.FlushOut? {
      BrokerStep(s.broker, Act.FlushOut(m.q));
      SameClients(s.broker, Act.FlushOut(m.q));
    } else if m.Cancel? {
      BrokerStep(s.broker, Act.Cancel);
      SameClients(s.broker, Act.Cancel);
    }
  }

  lemma SameClients(b: State, a: Act)
    requires Enabled(b, a) && (a.FlushIn? || a.FlushOut? || a.Cancel?)
    ensures Broker.Next(b, a).clients == b.clients
  {
  }

  /** Every move of every goroutine keeps what the program counters say. */
  lemma MoveKeepsOk(s: System, m: Move)
    requires SystemOk(s) && Possible(s, m)
    ensures SystemOk(Pipeline.Next(s, m))
  {
    hide SystemOk, Possible, Pipeline.Next;
    match m
    case Io(i) => IoKeepsOk(s, i, false);
    case Lose(i) => IoKeepsOk(s, i, true);
    case Work(i, d) => WorkKeepsOk(s, i, d);
    case Tick(i, shouldCrash) => TickKeepsOk(s, i, shouldCrash);
    case Take(i) => TakeKeepsOk(s, i);
    case OrderTick(i, fails, msg) => OrderKeepsOk(s, i, fails, msg);
    case Produce(i, q, msg) => ProduceKeepsOk(s, i, q, msg);
    case Arrive => ArriveKeepsOk(s);
    case _ => QuietKeepsOk(s, m);
  }
}
