/** A run that fills the payment dead-letter queue with poisoned orders, until the
    goroutine of the next one hangs. */
module FullDeadLetters {
  import opened Sequences
  import opened Messages
  import opened Broker
  import opened Pipeline
  import opened PipelineRuns
  import opened DeadLetters

  const POISONED: Message := Message(None, true, true, false, None)

  const CALM: Draw := Draw(false, false)

  // ------------------------------------------------------------- steps

  ghost predicate Shape(s: System) {
    Reached(s) && |s.threads| == |s.broker.clients| && |s.broker.queues| == 5
  }

  /** Nothing differs but goroutine i, the contents of queue q and the meters. */
  predicate Only(s: System, s': System, i: nat, q: nat) {
    && |s'.threads| == |s.threads| && (forall j :: 0 <= j < |s.threads| && j != i ==> s'.threads[j] == s.threads[j])
    && |s'.broker.clients| == |s.broker.clients|
    && (forall j :: 0 <= j < |s.broker.clients| && j != i ==> s'.broker.clients[j] == s.broker.clients[j])
    && |s'.broker.queues| == |s.broker.queues|
    && (forall r :: 0 <= r < |s.broker.queues| && r != q ==> s'.broker.queues[r] == s.broker.queues[r])
    && (q < |s.broker.queues| ==> s'.broker.queues[q].subs == s.broker.queues[q].subs)
    && s'.crashed == s.crashed && s'.broker.cancelled == s.broker.cancelled
  }

  lemma ReachedShape(s: System)
    requires Reached(s)
    ensures Shape(s)
  {
    ReachedIsOk(s);
  }

  /** One atomic step of a goroutine inside a queue operation. */
  lemma IoStep(s: System, i: nat, q: nat) returns (s': System)
    requires Shape(s) && i < |s.threads| && q < 5 && Enabled(s.broker, Proceed(i)) && AtQueue(s.broker.clients[i].io, q)
    ensures Shape(s') && Only(s, s', i, q) && s'.threads == s.threads
    ensures var r := Micro(s.broker.queues[q], s.broker.clients[i]);
      s'.broker.queues[q] == r.0 && s'.broker.clients[i] == r.1
  {
    hide Reached;
    s' := Pipeline.Next(s, Io(i));
    ReachedNext(s, Io(i));
    ReachedShape(s');
  }

  /** A send that finds room goes through. */
  lemma SendStored(s: System, i: nat, q: nat, m: Message) returns (s': System)
    requires Shape(s) && i < |s.threads| && q < 5
    requires s.broker.clients[i].io == Sending(m, [q], ToPut)
    requires s.broker.queues[q].subs == [] && |s.broker.queues[q].buf| < BUFFER_SIZE
    ensures Shape(s') && Only(s, s', i, q) && s'.threads == s.threads
    ensures s'.broker.clients[i].io == Free && s'.broker.queues[q].buf == s.broker.queues[q].buf + [m]
  {
    hide Reached;
    var s1 := IoStep(s, i, q);
    var s2 := IoStep(s1, i, q);
    OnlyTwice(s, s1, s2, i, q);
    var s3 := IoStep(s2, i, q);
    OnlyTwice(s, s2, s3, i, q);
    assert [q][1..] == [];
    s' := IoStep(s3, i, q);
    OnlyTwice(s, s3, s', i, q);
  }

  /** A receive finishes. */
  lemma TakeCounted(s: System, i: nat, q: nat) returns (s': System)
    requires Shape(s) && i < |s.threads| && q < 5 && s.broker.clients[i].io == ToSubDepth(q)
    ensures Shape(s') && Only(s, s', i, q) && s'.threads == s.threads
    ensures s'.broker.clients[i].io == Free && s'.broker.queues[q].buf == s.broker.queues[q].buf
  {
    hide Reached;
    var s1 := IoStep(s, i, q);
    s' := IoStep(s1, i, q);
    OnlyTwice(s, s1, s', i, q);
  }

  lemma OnlyTwice(s: System, s1: System, s2: System, i: nat, q: nat)
    requires Only(s, s1, i, q) && Only(s1, s2, i, q)
    ensures Only(s, s2, i, q)
  {
  }

  // ------------------------------------------------------------- rounds

  /** With these orders waiting and n letters on the payment dead-letter queue,
      while the order loop and the payment ticker rest. */
  ghost predicate Between(s: System, orders: seq<Message>, n: nat) {
    && Shape(s) && |s.threads| >= 2 && !s.crashed && !s.broker.cancelled
    && s.threads[0].OrderLoop? && s.threads[0].opc.Waiting? && s.broker.clients[0].io == Free
    && s.threads[1] == Ticker(Payment, Resting) && s.broker.clients[1].io == Free
    && s.broker.queues[ORDER_QUEUE].buf == orders && s.broker.queues[ORDER_QUEUE].subs == []
    && |s.broker.queues[PAYMENT_DLQ].buf| == n && s.broker.queues[PAYMENT_DLQ].subs == []
  }

  /** A move outside the queue operations. */
  lemma MoveStep(s: System, m: Move) returns (s': System)
    requires Shape(s) && Possible(s, m)
    ensures s' == Pipeline.Next(s, m) && Shape(s')
  {
    ReachedNext(s, m);
    s' := Pipeline.Next(s, m);
    ReachedShape(s');
  }

  /** The order loop sends a poisoned order. */
  lemma Ordered(s: System, n: nat) returns (s': System)
    requires Between(s, [], n)
    ensures Between(s', [POISONED], n)
  {
    hide Reached;
    var tick := OrderTick(0, false, POISONED);
    var s1 := MoveStep(s, tick);
    var s2 := MoveStep(s1, tick);
    var s3 := SendStored(s2, 0, ORDER_QUEUE, POISONED);
    s' := MoveStep(s3, tick);
  }

  /** The payment ticker takes it. */
  lemma Taken(s: System, n: nat) returns (s': System)
    requires Between(s, [POISONED], n)
    ensures Shape(s') && Only(s, s', 1, ORDER_QUEUE) && s'.broker.queues[ORDER_QUEUE].buf == []
    ensures s'.threads[1] == Ticker(Payment, Holding(4, POISONED)) && s'.broker.clients[1].io == Free
  {
    hide Reached;
    var s1 := MoveStep(s, Tick(1, false));
    var s2 := MoveStep(s1, Tick(1, false));
    assert s2.threads[1] == Ticker(Payment, Polling(5));
    var s3 := MoveStep(s2, Move.Take(1));
    assert Only(s, s3, 1, ORDER_QUEUE) && s3.broker.queues[ORDER_QUEUE].buf == [];
    s' := TakeCounted(s3, 1, ORDER_QUEUE);
    OnlyTwice(s, s3, s', 1, ORDER_QUEUE);
  }

  /** ... and spawns a goroutine for it. */
  lemma Polled(s: System, n: nat) returns (s': System)
    requires Between(s, [POISONED], n)
    ensures Between(s', [], n) && |s'.threads| == |s.threads| + 1
    ensures s'.threads[|s.threads|] == Worker(Job(Payment, POISONED, Ready, 0, 0))
    ensures s'.broker.clients[|s.threads|] == Client(Free, [])
  {
    hide Reached;
    var s1 := Taken(s, n);
    var s2 := MoveStep(s1, Tick(1, false));
    s' := MoveStep(s2, Tick(1, false));
  }

  /** The goroutine sets out for the dead-letter queue. */
  lemma Bound(s: System, n: nat) returns (s': System, k: nat, m: Message)
    requires Between(s, [], n)
    ensures Between(s', [], n) && 2 <= k < |s'.threads|
    ensures s'.broker.clients[k].io == Sending(m, [PAYMENT_DLQ], ToPut)
  {
    hide Reached;
    var s1 := Ordered(s, n);
    k := |s1.threads|;
    m := DeadLetter(k, SchemaInvalid, 1, POISONED);
    var s2 := Polled(s1, n);
    s' := MoveStep(s2, Work(k, CALM));
  }

  /** Any number of letters fits, up to the buffer's size. */
  lemma {:induction false} Filled(n: nat) returns (s: System)
    requires n <= BUFFER_SIZE
    ensures Between(s, [], n)
  {
    hide Reached;
    if n == 0 {
      s := START;
      StartIsBetween();
    } else {
      var s0 := Filled(n - 1);
      var s1, k, m := Bound(s0, n - 1);
      s := SendStored(s1, k, PAYMENT_DLQ, m);
    }
  }

  lemma StartIsBetween()
    ensures Between(START, [], 0)
  {
    assert Exec([]) == Some(START);
  }

  /** The dead-letter queue does fill up, and somebody does hang. */
  lemma HangsSomewhere() returns (s: System, k: nat)
    ensures Reached(s) && k < |s.threads| && Hangs(s.broker, k, PAYMENT_DLQ)
  {
    var s0 := Filled(BUFFER_SIZE);
    var m;
    s, k, m := Bound(s0, BUFFER_SIZE);
  }
}
