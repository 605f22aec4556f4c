/** The books of the services: what their meters and queues show agrees with the
    goroutines' own counts, in every reachable state. */
module Accounts {
  import opened Sequences
  import opened Messages
  import opened Broker
  import opened Pipeline
  import opened PipelineLaws

  datatype Column = Processed | Errors | Total

  function Live(m: Meter, col: Column): int {
    match col
    case Processed => m.processed
    case Errors => m.errors
    case Total => m.total
  }

  function Entry(col: Column, row: Row): int {
    match col
    case Processed => row.processed
    case Errors => row.errors
    case Total => row.total
  }

  function Entries(col: Column): Row -> int { (row: Row) => Entry(col, row) }

  /** Everything ever counted in a column: the flushed rows and the live count. */
  function Ever(m: Meter, col: Column): int { Sum(m.rows, Entries(col)) + Live(m, col) }

  /** What is kept account of: the messages a service took, and its columns. */
  datatype Book = Taken(svc: Service, pick: Pick) | Counted(svc: Service, col: Column)

  function Shown(s: System, book: Book): int
    requires |s.broker.queues| == 5
  {
    match book
    case Taken(svc, pick) => if svc.Order? then 0 else Tally(s.broker.queues[InQueue(svc)].got, pick)
    case Counted(svc, col) => Ever(MeterOf(s, svc), col)
  }

  function TakenBy(svc: Service, pick: Pick, t: Thread): int {
    match t
    case Worker(w) => if w.svc == svc && Picked(pick, w.taken) then 1 else 0
    case Ticker(tsvc, Holding(_, m)) => if tsvc == svc && Picked(pick, m) then 1 else 0
    case _ => 0
  }

  function CountedBy(svc: Service, col: Column, t: Thread): int {
    match t
    case Worker(w) =>
      if w.svc != svc then 0 else
      (match col
       case Processed => w.oks
       case Errors => w.errs
       case Total => w.oks + w.errs)
    case OrderLoop(_, reqs, lost, sent) =>
      if svc != Order then 0 else
      (match col
       case Processed => sent
       case Errors => lost
       case Total => reqs)
    case _ => 0
  }

  function PartOf(book: Book, t: Thread): int {
    match book
    case Taken(svc, pick) => if svc.Order? then 0 else TakenBy(svc, pick, t)
    case Counted(svc, col) => CountedBy(svc, col, t)
  }

  function Part(book: Book): Thread -> int { (t: Thread) => PartOf(book, t) }

  ghost predicate BooksKept(s: System) {
    |s.broker.queues| == 5 && forall book :: Shown(s, book) == Sum(s.threads, Part(book))
  }

  // ------------------------------------------------------------------ steps

  /** A move that changes goroutine i only, and the shown amounts as it does. */
  lemma SwapKeepsBooks(s: System, s': System, i: nat, t: Thread)
    requires BooksKept(s) && |s'.broker.queues| == 5 && i < |s.threads| && s'.threads == s.threads[i := t]
    requires forall book :: Shown(s', book) - Shown(s, book) == PartOf(book, t) - PartOf(book, s.threads[i])
    ensures BooksKept(s')
  {
    forall book ensures Shown(s', book) == Sum(s'.threads, Part(book)) {
      SumUpdate(s.threads, i, t, Part(book));
    }
  }

  lemma AppendKeepsBooks(s: System, s': System, t: Thread)
    requires BooksKept(s) && |s'.broker.queues| == 5 && s'.threads == s.threads + [t]
    requires forall book :: Shown(s', book) - Shown(s, book) == PartOf(book, t)
    ensures BooksKept(s')
  {
    forall book ensures Shown(s', book) == Sum(s'.threads, Part(book)) {
      assert s'.threads[..|s.threads|] == s.threads;
    }
  }

  lemma SameKeepsBooks(s: System, s': System)
    requires BooksKept(s) && |s'.broker.queues| == 5 && s'.threads == s.threads
    requires forall book :: Shown(s', book) == Shown(s, book)
    ensures BooksKept(s')
  {
  }

  /** Only a receive changes what came out of the queues. */
  ghost predicate SameGot(b: State, b': State) {
    |b.queues| == 5 && |b'.queues| == 5 && forall q :: 0 <= q < 5 ==> b'.queues[q].got == b.queues[q].got
  }

  lemma GotStays(b: State, a: Act)
    requires |b.queues| == 5 && Enabled(b, a) && !a.NewQueue? && !a.Subscribe? && !a.Take?
    ensures SameGot(b, Broker.Next(b, a))
  {
  }

  lemma MeteredEver(m: Meter, e: Effect, col: Column)
    ensures Ever(Metered(m, e), col) == Ever(m, col)
      + (if (e.CountError? && !col.Processed?) || (e.CountSuccess? && !col.Errors?) then 1 else 0)
  {
  }

  lemma FlushEver(m: Meter, col: Column)
    ensures Ever(Flush(m), col) == Ever(m, col)
  {
    assert Flush(m).rows[..|m.rows|] == m.rows;
  }

  lemma WorkCounts(i: nat, w: Job, d: Draw, m: Meter, svc: Service, col: Column)
    requires JobOk(w) && !w.pc.Done?
    ensures var (w', e) := JobStep(i, w, d);
      (if svc == w.svc then Ever(Metered(m, e), col) - Ever(m, col) else 0)
      == CountedBy(svc, col, Worker(w')) - CountedBy(svc, col, Worker(w))
  {
    JobStepOk(i, w, d);
    MeteredEver(m, JobStep(i, w, d).1, col);
    hide JobStep, JobOk, Letter, InSend, Ever, Metered;
  }

  lemma WorkShows(s: System, i: nat, d: Draw, book: Book)
    requires |s.broker.queues| == 5 && Possible(s, Work(i, d)) && JobOk(s.threads[i].job)
    ensures |Pipeline.Next(s, Work(i, d)).broker.queues| == 5
    ensures Shown(Pipeline.Next(s, Work(i, d)), book) - Shown(s, book)
            == PartOf(book, Worker(JobStep(i, s.threads[i].job, d).0)) - PartOf(book, s.threads[i])
  {
    var w := s.threads[i].job;
    WorkShape(s, i, d);
    SentGot(s.broker, i, JobStep(i, w, d).1);
    if book.Counted? {
      WorkCounts(i, w, d, MeterOf(s, w.svc), book.svc, book.col);
    }
    JobStepOk(i, w, d);
    hide JobStep, JobOk, Letter, InSend, Ever, Metered, MeterOf, Pipeline.Next, Sent, Tally, Picked, CountedBy;
  }

  lemma SentGot(b: State, i: nat, e: Effect)
    requires |b.queues| == 5 && (e.SendTo? ==> Enabled(b, Call(i, e.q, e.msg)))
    ensures SameGot(b, Sent(b, i, e))
  {
    if e.SendTo? {
      GotStays(b, Call(i, e.q, e.msg));
    }
  }

  lemma WorkKeepsBooks(s: System, i: nat, d: Draw)
    requires BooksKept(s) && Possible(s, Work(i, d)) && JobOk(s.threads[i].job)
    ensures BooksKept(Pipeline.Next(s, Work(i, d)))
  {
    WorkShape(s, i, d);
    WorkShows(s, i, d, Taken(Order, All));
    forall book
      ensures Shown(Pipeline.Next(s, Work(i, d)), book) - Shown(s, book)
              == PartOf(book, Worker(JobStep(i, s.threads[i].job, d).0)) - PartOf(book, s.threads[i])
    {
      WorkShows(s, i, d, book);
    }
    hide JobStep, Shown, PartOf, Pipeline.Next, Sent;
    SwapKeepsBooks(s, Pipeline.Next(s, Work(i, d)), i, Worker(JobStep(i, s.threads[i].job, d).0));
  }

  lemma TickShape(s: System, i: nat, shouldCrash: bool)
    requires |s.broker.queues| == 5 && Possible(s, Tick(i, shouldCrash))
    ensures var s' := Pipeline.Next(s, Tick(i, shouldCrash));
      && SameGot(s.broker, s'.broker)
      && (forall svc :: MeterOf(s', svc) == MeterOf(s, svc))
      && i < |s'.threads| && s'.threads[i].Ticker? && s'.threads[i].tsvc == s.threads[i].tsvc
          && !s'.threads[i].tpc.Holding?
      && s'.threads == s.threads[i := s'.threads[i]] + (
           if s.threads[i].tpc.Holding? then [Worker(Job(s.threads[i].tsvc, s.threads[i].tpc.msg, Ready, 0, 0))]
               else [])
  {
    GotStays(s.broker, NewClient);
    hide Broker.Next;
  }

  lemma ShownSame(s: System, s': System, book: Book)
    requires SameGot(s.broker, s'.broker) && forall svc :: MeterOf(s', svc) == MeterOf(s, svc)
    ensures Shown(s', book) == Shown(s, book)
  {
    hide Ever, Tally, MeterOf;
  }

  lemma TickKeepsBooks(s: System, i: nat, shouldCrash: bool)
    requires BooksKept(s) && Possible(s, Tick(i, shouldCrash))
    ensures BooksKept(Pipeline.Next(s, Tick(i, shouldCrash)))
  {
    var t := s.threads[i];
    var s' := Pipeline.Next(s, Tick(i, shouldCrash));
    TickShape(s, i, shouldCrash);
    forall book ensures Shown(s', book) == Shown(s, book) {
      ShownSame(s, s', book);
    }
    hide Shown, Pipeline.Next, BooksKept, MeterOf, SameGot;
    if t.tpc.Holding? {
      HandOver(s, s', i, s'.threads[i], Worker(Job(t.tsvc, t.tpc.msg, Ready, 0, 0)));
    } else {
      assert s.threads[i := s'.threads[i]] + [] == s.threads[i := s'.threads[i]];
      SwapKeepsBooks(s, s', i, s'.threads[i]);
    }
  }

  /** The ticker's part passes to the goroutine it starts. */
  lemma HandOver(s: System, s': System, i: nat, t: Thread, job: Thread)
    requires BooksKept(s) && |s'.broker.queues| == 5 && i < |s.threads| && s'.threads == s.threads[i := t] + [job]
    requires forall book :: Shown(s', book) == Shown(s, book)
    requires forall book :: PartOf(book, job) == PartOf(book, s.threads[i]) && PartOf(book, t) == 0
    ensures BooksKept(s')
  {
    forall book ensures Shown(s', book) == Sum(s'.threads, Part(book)) {
      SumUpdate(s.threads, i, t, Part(book));
      assert s'.threads[..|s.threads|] == s.threads[i := t];
    }
  }

  lemma TakeKeepsBooks(s: System, i: nat)
    requires BooksKept(s) && Possible(s, Move.Take(i)) && !s.threads[i].tsvc.Order?
    ensures BooksKept(Pipeline.Next(s, Move.Take(i)))
  {
    var t := s.threads[i];
    var q := InQueue(t.tsvc);
    var s' := Pipeline.Next(s, Move.Take(i));
    var m := s.broker.queues[q].buf[0];
    forall book
      ensures Shown(s', book) - Shown(s, book) == PartOf(book, s'.threads[i]) - PartOf(book, t)
    {
      if book.Taken? {
        TallySnoc(s.broker.queues[q].got, m, book.pick);
      }
      hide Ever, Picked, Tally;
    }
    SwapKeepsBooks(s, s', i, s'.threads[i]);
  }

  lemma OrderEver(m: Meter, pc: OrderPc, col: Column)
    ensures Ever(OrderMetered(m, pc), col)
            == Ever(m, col) + if (pc.Waiting? && col.Total?) || (pc.OrderFailing? && col.Errors?)
                || (pc.Enqueuing? && col.Processed?) then 1 else 0
  {
  }

  lemma OrderShape(s: System, i: nat, fails: bool, msg: Message)
    requires |s.broker.queues| == 5 && Possible(s, OrderTick(i, fails, msg))
    ensures var s' := Pipeline.Next(s, OrderTick(i, fails, msg));
      && SameGot(s.broker, s'.broker)
      && s'.threads == s.threads[i := OrderStep(s.threads[i], fails)]
      && forall svc: Service :: MeterOf(s', svc) == if svc.Order? then OrderMetered(s.order, s.threads[i].opc)
          else MeterOf(s, svc)
  {
    SentGot(s.broker, i, OrderEffect(s.threads[i], fails, msg));
    hide OrderStep, OrderMetered, Broker.Next;
  }

  lemma OrderShows(s: System, i: nat, fails: bool, msg: Message, book: Book)
    requires |s.broker.queues| == 5 && Possible(s, OrderTick(i, fails, msg))
    ensures |Pipeline.Next(s, OrderTick(i, fails, msg)).broker.queues| == 5
    ensures Shown(Pipeline.Next(s, OrderTick(i, fails, msg)), book) - Shown(s, book)
            == PartOf(book, OrderStep(s.threads[i], fails)) - PartOf(book, s.threads[i])
  {
    OrderShape(s, i, fails, msg);
    OrderEver(s.order, s.threads[i].opc, if book.Counted? then book.col else Total);
    hide Tally, Picked, Ever, OrderMetered, Pipeline.Next;
  }

  lemma OrderKeepsBooks(s: System, i: nat, fails: bool, msg: Message)
    requires BooksKept(s) && Possible(s, OrderTick(i, fails, msg))
    ensures BooksKept(Pipeline.Next(s, OrderTick(i, fails, msg)))
  {
    OrderShape(s, i, fails, msg);
    forall book
      ensures Shown(Pipeline.Next(s, OrderTick(i, fails, msg)), book) - Shown(s, book)
              == PartOf(book, OrderStep(s.threads[i], fails)) - PartOf(book, s.threads[i])
    {
      OrderShows(s, i, fails, msg, book);
    }
    hide Shown, PartOf, Pipeline.Next, OrderStep;
    SwapKeepsBooks(s, Pipeline.Next(s, OrderTick(i, fails, msg)), i, OrderStep(s.threads[i], fails));
  }

  /** Moves of the queues alone: what came out stays. */
  lemma QueueMoveKeepsBooks(s: System, s': System)
    requires BooksKept(s) && SameGot(s.broker, s'.broker) && s' == s.(broker := s'.broker)
    ensures BooksKept(s')
  {
    forall book ensures Shown(s', book) == Shown(s, book) {
      hide Ever, Tally;
    }
    SameKeepsBooks(s, s');
  }

  lemma FlushShape(s: System, svc: Service)
    ensures var s' := Pipeline.Next(s, FlushMeter(svc));
      && s'.broker == s.broker && s'.threads == s.threads
      && forall other: Service :: MeterOf(s', other) == if other == svc then Flush(MeterOf(s, svc))
          else MeterOf(s, other)
  {
    hide Flush;
  }

  lemma FlushKeepsBooks(s: System, svc: Service)
    requires BooksKept(s)
    ensures BooksKept(Pipeline.Next(s, FlushMeter(svc)))
  {
    var s' := Pipeline.Next(s, FlushMeter(svc));
    FlushShape(s, svc);
    hide Pipeline.Next, MeterOf, Flush;
    forall book ensures Shown(s', book) == Shown(s, book) {
      FlushEver(MeterOf(s, svc), if book.Counted? then book.col else Total);
      hide Ever, Tally;
    }
    SameKeepsBooks(s, s');
  }

  lemma ArriveKeepsBooks(s: System)
    requires BooksKept(s)
    ensures BooksKept(Pipeline.Next(s, Arrive))
  {
    var s' := Pipeline.Next(s, Arrive);
    forall book ensures Shown(s', book) - Shown(s, book) == PartOf(book, Outside) {
      hide Ever, Tally;
    }
    AppendKeepsBooks(s, s', Outside);
  }

  /** Every move keeps every book. */
  lemma MoveKeepsBooks(s: System, m: Move)
    requires SystemOk(s) && BooksKept(s) && Possible(s, m)
    ensures BooksKept(Pipeline.Next(s, m))
  {
    assert |s.broker.queues| == 5;
    hide Wired, BooksKept;
    match m
    case Io(i) =>
      GotStays(s.broker, Proceed(i));
      QueueMoveKeepsBooks(s, Pipeline.Next(s, m));
    case Lose(i) =>
      GotStays(s.broker, Drop(i));
      QueueMoveKeepsBooks(s, Pipeline.Next(s, m));
    case Work(i, d) =>
      assert ThreadOk(i, s.threads[i], s.broker.clients[i]);
      WorkKeepsBooks(s, i, d);
    case Tick(i, shouldCrash) => TickKeepsBooks(s, i, shouldCrash);
    case Take(i) =>
      assert ThreadOk(i, s.threads[i], s.broker.clients[i]);
      TakeKeepsBooks(s, i);
    case OrderTick(i, fails, msg) => OrderKeepsBooks(s, i, fails, msg);
    case Arrive => ArriveKeepsBooks(s);
    case Produce(i, q, msg) =>
      GotStays(s.broker, Call(i, q, msg));
      QueueMoveKeepsBooks(s, Pipeline.Next(s, m));
    case FlushIn(q) =>
      GotStays(s.broker, Act.FlushIn(q));
      QueueMoveKeepsBooks(s, Pipeline.Next(s, m));
    case FlushOut(q) =>
      GotStays(s.broker, Act.FlushOut(q));
      QueueMoveKeepsBooks(s, Pipeline.Next(s, m));
    case FlushMeter(svc) => FlushKeepsBooks(s, svc);
    case Restart => SameKeepsBooks(s, Pipeline.Next(s, m));
    case Cancel =>
      GotStays(s.broker, Act.Cancel);
      QueueMoveKeepsBooks(s, Pipeline.Next(s, m));
  }
}
