/** The services around the queues: one goroutine per message, one ticker per
    consumer, the order loop, and producers from outside, interleaved freely. */
module Pipeline {
  import opened Sequences
  import opened Messages
  import opened Broker

  const ORDER_QUEUE: nat := 0
  const PAYMENT_QUEUE: nat := 1
  const PAYMENT_DLQ: nat := 2
  const NOTIFICATION_SUB: nat := 3
  const NOTIFICATION_DLQ: nat := 4

  datatype Service = Order | Payment | Fulfillment | Notification

  /** The queue a consumer polls. */
  function InQueue(svc: Service): nat {
    match svc
    case Order => ORDER_QUEUE  // writes only
    case Payment => ORDER_QUEUE
    case Fulfillment => PAYMENT_QUEUE
    case Notification => NOTIFICATION_SUB
  }

  /** Messages polled in one tick. */
  function Burst(svc: Service): nat { if svc.Payment? then 5 else 3 }

  function MaxAttempts(svc: Service): nat { if svc.Notification? then 2 else 3 }

  /** Whether exhausted messages are dropped, and where they go otherwise. */
  predicate Discards(svc: Service) { svc.Fulfillment? }
  function DeadLetterQueue(svc: Service): nat { if svc.Notification? then NOTIFICATION_DLQ else PAYMENT_DLQ }

  // -------------------------------------------------------------- workers

  datatype Outcome = Malformed | Succeeded | Declined | DeadLettered | Discarded | Abandoned

  /** Where a message goroutine stands; the attempt counts from 1. */
  datatype Pc =
    | Ready
    | Asleep(attempt: nat)      // simulating the work, or about to be cancelled
    | Failing(attempt: nat)     // about to count a failed attempt
    | BackingOff(attempt: nat)
    | GivingUp(attempt: nat)    // retries exhausted, about to dead-letter
    | Rejecting                 // malformed, about to count the error
    | Poisoning                 // in the send of a schema_invalid letter
    | Approving                 // in the send of the payment
    | Burying                   // in the send of a processing_error letter
    | Succeeding(declined: bool)
    | Done(outcome: Outcome)

  /** A message goroutine with the errors and successes it has counted. */
  datatype Job = Job(svc: Service, taken: Message, pc: Pc, errs: nat, oks: nat)

  datatype Effect = Quiet | CountError | CountSuccess | SendTo(q: nat, msg: Message)

  /** The approved payment that goroutine i builds. */
  function Receipt(i: nat): Message { Message(Some(i), true, false, false, None) }

  function DeadLetter(i: nat, reason: Reason, attempts: nat, raw: Message): Message {
    Message(Some(i), true, false, false, Some(Envelope(reason, attempts, raw)))
  }

  /** What the dice and the context say at a step: the attempt fails; the
      cancelled branch of a select is taken. */
  datatype Draw = Draw(failed: bool, aborts: bool)

  /** One step of message goroutine i, outside any queue operation. */
  function JobStep(i: nat, w: Job, d: Draw): (Job, Effect) {
    match w.pc
    case Ready =>
      if !w.taken.wellFormed then (w.(pc := Rejecting), Quiet)
      else if w.svc.Payment? && w.taken.poisoned then
        (w.(pc := Poisoning), SendTo(PAYMENT_DLQ, DeadLetter(i, SchemaInvalid, 1, w.taken)))
      else if w.svc.Fulfillment? && w.taken.declined then (w.(pc := Succeeding(true)), Quiet)
      else (w.(pc := Asleep(1)), Quiet)
    case Asleep(n) =>
      if d.aborts then (w.(pc := Done(Abandoned)), Quiet)
      else if d.failed then (w.(pc := Failing(n)), Quiet)
      else if w.svc.Payment? then (w.(pc := Approving), SendTo(PAYMENT_QUEUE, Receipt(i)))
      else (w.(pc := Succeeding(false)), Quiet)
    case Failing(n) =>
      var w' := w.(errs := w.errs + 1);
      if n < MaxAttempts(w.svc) then (w'.(pc := BackingOff(n)), CountError)
      else (w'.(pc := if Discards(w.svc) then Done(Discarded) else GivingUp(n)), CountError)
    case BackingOff(n) => if d.aborts then (w.(pc := Done(Abandoned)), Quiet) else (w.(pc := Asleep(n + 1)), Quiet)
    case GivingUp(n) => (w.(pc := Burying), SendTo(DeadLetterQueue(w.svc), DeadLetter(i, ProcessingError, n, w.taken)))
    case Rejecting => (w.(pc := Done(Malformed), errs := w.errs + 1), CountError)
    case Poisoning => (w.(pc := Done(DeadLettered), errs := w.errs + 1), CountError)
    case Approving => (w.(pc := Done(Succeeded), oks := w.oks + 1), CountSuccess)
    case Burying => (w.(pc := Done(DeadLettered)), Quiet)
    case Succeeding(declined) =>
      (w.(pc := Done(if declined then Declined else Succeeded), oks := w.oks + 1), CountSuccess)
    case Done(_) => (w, Quiet)
  }

  // -------------------------------------------------------------- threads

  datatype TickerPc = Resting | Deciding(wasCrashed: bool) | Polling(left: nat) | Holding(left: nat, msg: Message)

  datatype OrderPc = Waiting | Requested | OrderFailing | Enqueuing

  datatype Thread =
    | OrderLoop(opc: OrderPc, reqs: nat, lost: nat, sent: nat)
    | Ticker(tsvc: Service, tpc: TickerPc)
    | Worker(job: Job)
    | Outside

  /** A service's counters, and the metric rows flushed from them so far. */
  datatype Row = Row(processed: nat, errors: nat, total: nat)
  datatype Meter = Meter(processed: nat, errors: nat, total: nat, rows: seq<Row>)

  datatype System = System(
    broker: State, threads: seq<Thread>, crashed: bool,
    order: Meter, payment: Meter, fulfillment: Meter, notification: Meter)

  function MeterOf(s: System, svc: Service): Meter {
    match svc
    case Order => s.order
    case Payment => s.payment
    case Fulfillment => s.fulfillment
    case Notification => s.notification
  }

  function WithMeter(s: System, svc: Service, m: Meter): System {
    match svc
    case Order => s.(order := m)
    case Payment => s.(payment := m)
    case Fulfillment => s.(fulfillment := m)
    case Notification => s.(notification := m)
  }

  /** Each of these is one mutex section. */
  function Succeed(m: Meter): Meter { m.(processed := m.processed + 1, total := m.total + 1) }
  function Err(m: Meter): Meter { m.(errors := m.errors + 1, total := m.total + 1) }
  function Flush(m: Meter): Meter { Meter(0, 0, 0, m.rows + [Row(m.processed, m.errors, m.total)]) }

  function ErrorRate(row: Row): real {
    if row.total > 0 then row.errors as real / row.total as real else 0.0
  }

  function Metered(m: Meter, e: Effect): Meter {
    match e
    case CountError => Err(m)
    case CountSuccess => Succeed(m)
    case _ => m
  }

  // ---------------------------------------------------------------- moves

  datatype Move =
    | Io(i: nat)                              // goroutine i proceeds inside a queue operation
    | Lose(i: nat)                            // ... or gives up a send at cancellation
    | Work(i: nat, draw: Draw)
    | Tick(i: nat, shouldCrash: bool)
    | Take(i: nat)                            // a polling ticker receives
    | OrderTick(i: nat, fails: bool, msg: Message)
    | Arrive                                  // a producer from outside appears
    | Produce(i: nat, q: nat, msg: Message)   // ... and sends
    | FlushIn(q: nat)
    | FlushOut(q: nat)
    | FlushMeter(svc: Service)
    | Restart
    | Cancel

  /** What the order service marshals; it may be poisoned. */
  predicate FromOrder(msg: Message) {
    msg.source.None? && msg.wellFormed && !msg.declined && msg.envelope.None?
  }

  predicate Idle(s: System, i: nat) {
    i < |s.threads| && i < |s.broker.clients| && s.broker.clients[i].io == Free
  }

  predicate Possible(s: System, m: Move) {
    match m
    case Io(i) => Enabled(s.broker, Proceed(i))
    case Lose(i) => Enabled(s.broker, Drop(i))
    case Work(i, d) =>
      && Idle(s, i) && s.threads[i].Worker? && !s.threads[i].job.pc.Done?
      && (d.aborts ==> s.broker.cancelled)
      && |s.broker.queues| == 5
    case Tick(i, _) => Idle(s, i) && s.threads[i].Ticker? && !PollsFull(s, i)
    case Take(i) => Idle(s, i) && PollsFull(s, i)
    case OrderTick(i, _, msg) => Idle(s, i) && s.threads[i].OrderLoop? && FromOrder(msg) && |s.broker.queues| == 5
    case Arrive => true
    case Produce(i, q, msg) =>
      && Idle(s, i) && s.threads[i].Outside? && msg.source.None?
      && (q == ORDER_QUEUE || q == PAYMENT_QUEUE) && |s.broker.queues| == 5
    case FlushIn(q) => q < |s.broker.queues|
    case FlushOut(q) => q < |s.broker.queues|
    case FlushMeter(_) => true
    case Restart => true
    case Cancel => true
  }

  /** The ticker is polling, may take more, and its queue has a message. */
  predicate PollsFull(s: System, i: nat) {
    && i < |s.threads| && s.threads[i].Ticker? && s.threads[i].tpc.Polling? && s.threads[i].tpc.left > 0
    && InQueue(s.threads[i].tsvc) < |s.broker.queues| && s.broker.queues[InQueue(s.threads[i].tsvc)].buf != []
  }

  // ----------------------------------------------------------------- step

  /** Enters Send, if the effect is one. */
  function Sent(b: State, i: nat, e: Effect): State
    requires e.SendTo? ==> Enabled(b, Call(i, e.q, e.msg))
  {
    if e.SendTo? then Broker.Next(b, Call(i, e.q, e.msg)) else b
  }

  function WithThread(s: System, i: nat, t: Thread): System
    requires i < |s.threads|
  {
    s.(threads := s.threads[i := t])
  }

  function WorkNext(s: System, i: nat, d: Draw): System
    requires Possible(s, Work(i, d))
  {
    var w := s.threads[i].job;
    var (w', e) := JobStep(i, w, d);
    WithMeter(WithThread(s, i, Worker(w')).(broker := Sent(s.broker, i, e)), w.svc, Metered(MeterOf(s, w.svc), e))
  }

  /** One step of a consumer's ticker outside a receive. */
  function TickNext(s: System, i: nat, shouldCrash: bool): System
    requires Possible(s, Tick(i, shouldCrash))
  {
    var svc := s.threads[i].tsvc;
    match s.threads[i].tpc
    case Resting => WithThread(s, i, Ticker(svc, if svc.Payment? then Deciding(s.crashed) else Polling(Burst(svc))))
    case Deciding(true) => WithThread(s, i, Ticker(svc, Resting)).(crashed := s.crashed && shouldCrash)
    case Deciding(false) =>
      if shouldCrash then WithThread(s, i, Ticker(svc, Resting)).(crashed := true)
      else WithThread(s, i, Ticker(svc, Polling(Burst(svc))))
    case Polling(_) => WithThread(s, i, Ticker(svc, Resting))
    case Holding(left, msg) =>
      s.(threads := s.threads[i := Ticker(svc, Polling(left))] + [Worker(Job(svc, msg, Ready, 0, 0))],
         broker := Broker.Next(s.broker, NewClient))
  }

  function TakeNext(s: System, i: nat): System
    requires Possible(s, Move.Take(i))
  {
    var svc, left := s.threads[i].tsvc, s.threads[i].tpc.left;
    var q := InQueue(svc);
    WithThread(s, i, Ticker(svc, Holding(left - 1, s.broker.queues[q].buf[0]))).(broker :=
        Broker.Next(s.broker, Act.Take(i, q)))
  }

  /** One step of the order loop: request, then error or send, then count. */
  function OrderStep(t: Thread, fails: bool): Thread
    requires t.OrderLoop?
  {
    match t.opc
    case Waiting => t.(opc := Requested, reqs := t.reqs + 1)
    case Requested => t.(opc := if fails then OrderFailing else Enqueuing)
    case OrderFailing => t.(opc := Waiting, lost := t.lost + 1)
    case Enqueuing => t.(opc := Waiting, sent := t.sent + 1)
  }

  function OrderMetered(m: Meter, pc: OrderPc): Meter {
    match pc
    case Waiting => m.(total := m.total + 1)
    case Requested => m
    case OrderFailing => m.(errors := m.errors + 1)
    case Enqueuing => m.(processed := m.processed + 1)
  }

  function OrderEffect(t: Thread, fails: bool, msg: Message): Effect
    requires t.OrderLoop?
  {
    if t.opc.Requested? && !fails then SendTo(ORDER_QUEUE, msg) else Quiet
  }

  function OrderNext(s: System, i: nat, fails: bool, msg: Message): System
    requires Possible(s, OrderTick(i, fails, msg))
  {
    var t := s.threads[i];
    WithThread(s, i, OrderStep(t, fails)).(broker := Sent(s.broker, i, OrderEffect(t, fails, msg)),
        order := OrderMetered(s.order, t.opc))
  }

  function Next(s: System, m: Move): System
    requires Possible(s, m)
  {
    match m
    case Io(i) => s.(broker := Broker.Next(s.broker, Proceed(i)))
    case Lose(i) => s.(broker := Broker.Next(s.broker, Drop(i)))
    case Work(i, d) => WorkNext(s, i, d)
    case Tick(i, shouldCrash) => TickNext(s, i, shouldCrash)
    case Take(i) => TakeNext(s, i)
    case OrderTick(i, fails, msg) => OrderNext(s, i, fails, msg)
    case Arrive => s.(threads := s.threads + [Outside], broker := Broker.Next(s.broker, NewClient))
    case Produce(i, q, msg) => s.(broker := Broker.Next(s.broker, Call(i, q, msg)))
    case FlushIn(q) => s.(broker := Broker.Next(s.broker, Act.FlushIn(q)))
    case FlushOut(q) => s.(broker := Broker.Next(s.broker, Act.FlushOut(q)))
    case FlushMeter(svc) => WithMeter(s, svc, Flush(MeterOf(s, svc)))
    case Restart => s.(crashed := false)
    case Cancel => s.(broker := Broker.Next(s.broker, Act.Cancel))
  }

  // ----------------------------------------------------------------- runs

  const NO_METER: Meter := Meter(0, 0, 0, [])

  const PAYMENTS: Queue := NewQueueOf(None, 0).(subs := [NOTIFICATION_SUB])

  /** The queues and goroutines the program starts with; the notification
      subscription exists before any service runs. */
  const FRESH_BROKER: State := State(
    [NewQueueOf(None, 0), PAYMENTS, NewQueueOf(None, 0), NewQueueOf(Some(PAYMENT_QUEUE), 0), NewQueueOf(None, 0)],
    [Client(Free, []), Client(Free, []), Client(Free, []), Client(Free, [])], false)

  const START: System := System(
    FRESH_BROKER,
    [OrderLoop(Waiting, 0, 0, 0), Ticker(Payment, Resting), Ticker(Fulfillment, Resting),
        Ticker(Notification, Resting)],
    false, NO_METER, NO_METER, NO_METER, NO_METER)

  /** Where a sequence of moves leads from the start; none if some move is not
      possible where it is made. */
  function Exec(moves: seq<Move>): Option<System> {
    if moves == [] then Some(START)
    else
      var before := Exec(moves[..|moves| - 1]);
      if before.Some? && Possible(before.value, moves[|moves| - 1])
      then Some(Next(before.value, moves[|moves| - 1])) else None
  }

  /** The states of the running system, under every interleaving. */
  ghost predicate Reached(s: System) {
    exists moves :: Exec(moves) == Some(s)
  }
}
