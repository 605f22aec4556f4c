/** What holds of the queues in every reachable state. */
module BrokerRuns {
  import opened Sequences
  import opened Messages
  import opened Broker
  import opened BrokerLaws

  // --------------------------------------------------- calls and their fate

  /** For a queue that subscribes to nothing, each goroutine's own log tells the
      fate of its sends: stored, lost, or still in its hands. */
  ghost predicate Accounted(c: Client, q: nat, pick: Pick) {
    Count(c.log, CallsTo(q, pick))
    == Count(c.log, StoresIn(q, pick)) + Count(c.log, LossesAt(q, pick)) + Pending(c.io, q, pick)
  }

  ghost predicate Traced(s: State) {
    forall i: nat, q: nat, pick :: i < |s.clients| && q < |s.queues| && s.queues[q].parent.None? ==>
        Accounted(s.clients[i], q, pick)
  }

  /** Before cancellation nothing is lost. */
  ghost predicate LossFree(s: State) {
    !s.cancelled ==>
      && (forall q :: 0 <= q < |s.queues| ==> s.queues[q].dropped == [])
      && (forall i :: 0 <= i < |s.clients| ==> NoLoss(s.clients[i].log))
  }

  ghost predicate NoLoss(log: seq<Event>) {
    forall e :: 0 <= e < |log| ==> !log[e].Lost?
  }

  lemma NothingAccounted(c: Client, q: nat, pick: Pick)
    requires ClientOk(c, q) && Past(c.log, q)
    ensures Accounted(c, q, pick)
  {
    CountPositive(c.log, CallsTo(q, pick));
    CountPositive(c.log, StoresIn(q, pick));
    CountPositive(c.log, LossesAt(q, pick));
    if c.io.Sending? {
      CountPositive<nat>(c.io.todo, Is(q));
      CountPositive<nat>(c.io.todo[1..], Is(q));
    }
  }

  lemma CallAccounted(qu: Queue, c: Client, k: nat, m: Message, q: nat, pick: Pick)
    requires c.io == Free && Accounted(c, q, pick)
    ensures Accounted(CallStep(qu, c, k, m).1, q, pick)
  {
    LogSnoc(c.log, Called(k, m), q, pick);
    CountOne<nat>(k, Is(q));
    hide Count;
  }

  lemma RestKeeps(m: Message, todo: seq<nat>, q: nat, pick: Pick)
    ensures Pending(Rest(m, todo), q, pick) == if Picked(pick, m) then Count(todo, Is(q)) else 0
  {
  }

  lemma PutAccounted(qu: Queue, c: Client, q: nat, pick: Pick)
    requires c.io.Sending? && c.io.todo != [] && c.io.phase.ToPut? && Accounted(c, q, pick)
    ensures Accounted(Micro(qu, c).1, q, pick)
  {
    LogSnoc(c.log, Stored(c.io.todo[0], c.io.msg), q, pick);
    CountFirst(c.io.todo, q);
    hide Count, Picked;
  }

  lemma SnapshotAccounted(qu: Queue, c: Client, q: nat, pick: Pick)
    requires c.io.Sending? && c.io.todo != [] && c.io.phase.ToSnapshot? && Accounted(c, q, pick)
    requires Count(qu.subs, Is(q)) == 0
    ensures Accounted(Micro(qu, c).1, q, pick)
  {
    CountConcat(qu.subs, c.io.todo[1..], Is(q));
    RestKeeps(c.io.msg, qu.subs + c.io.todo[1..], q, pick);
    hide Count, Rest, Picked;
  }

  lemma MicroAccounted(qu: Queue, c: Client, q: nat, pick: Pick)
    requires c.io.Sending? ==> c.io.todo != []
    requires Count(qu.subs, Is(q)) == 0 && Accounted(c, q, pick)
    ensures Accounted(Micro(qu, c).1, q, pick)
  {
    if c.io.Sending? && c.io.phase.ToPut? {
      PutAccounted(qu, c, q, pick);
    } else if c.io.Sending? && c.io.phase.ToSnapshot? {
      SnapshotAccounted(qu, c, q, pick);
    } else {
      hide Count, Picked;
    }
  }

  lemma DropAccounted(qu: Queue, c: Client, q: nat, pick: Pick)
    requires c.io.Sending? && c.io.todo != [] && c.io.phase.ToPut? && Accounted(c, q, pick)
    ensures Accounted(DropStep(qu, c).1, q, pick)
  {
    LogSnoc(c.log, Lost(c.io.todo[0], c.io.msg), q, pick);
    CountFirst(c.io.todo, q);
    RestKeeps(c.io.msg, c.io.todo[1..], q, pick);
    hide Count, Rest, Picked;
  }

  lemma TakeAccounted(qu: Queue, c: Client, k: nat, q: nat, pick: Pick)
    requires qu.buf != [] && c.io == Free && Accounted(c, q, pick)
    ensures Accounted(TakeStep(qu, c, k).1, q, pick)
  {
  }

  /** The new state of the goroutine that takes the step. */
  lemma StepAccounted(s: State, a: Act, i: nat, q: nat, pick: Pick)
    requires Shaped(s) && Enabled(s, a) && i < |s.clients| && q < |s.queues| && s.queues[q].parent.None?
    requires Accounted(s.clients[i], q, pick)
    ensures Accounted(Next(s, a).clients[i], q, pick)
  {
    hide Count, Pending, Micro, DropStep, CallStep, Accounted;
    if a == Proceed(i) {
      assert Count(s.queues[Target(s.clients[i].io)].subs, Is(q)) == 0;
      MicroAccounted(s.queues[Target(s.clients[i].io)], s.clients[i], q, pick);
    } else if a == Drop(i) {
      DropAccounted(s.queues[Target(s.clients[i].io)], s.clients[i], q, pick);
    } else if a.Call? && a.i == i {
      CallAccounted(s.queues[a.q], s.clients[i], a.q, a.msg, q, pick);
    } else if a.Take? && a.i == i {
      TakeAccounted(s.queues[a.q], s.clients[i], a.q, q, pick);
    } else {
      assert Next(s, a).clients[i] == s.clients[i];
    }
  }

  /** A step adds at most one goroutine or one queue, and moves no parent. */
  lemma StepGrows(s: State, a: Act)
    requires Enabled(s, a)
    ensures var s' := Next(s, a);
      && |s.queues| <= |s'.queues| <= |s.queues| + 1 && |s.clients| <= |s'.clients| <= |s.clients| + 1
      && (|s'.clients| > |s.clients| ==> s'.clients[|s.clients|] == Client(Free, []))
      && (|s'.queues| > |s.queues| ==> s'.clients == s.clients)
      && forall q :: 0 <= q < |s.queues| ==> s'.queues[q].parent == s.queues[q].parent
  {
    hide QueueOk;
  }

  lemma StepKeepsTraced(s: State, a: Act)
    requires Shaped(s) && Logged(s) && Traced(s) && Enabled(s, a)
    ensures Traced(Next(s, a))
  {
    var s' := Next(s, a);
    StepGrows(s, a);
    hide Next, Enabled, Accounted, Forest, QueueOk;
    forall i: nat, q: nat, pick | i < |s'.clients| && q < |s'.queues| && s'.queues[q].parent.None?
      ensures Accounted(s'.clients[i], q, pick)
    {
      if i == |s.clients| {
        NothingAccounted(Client(Free, []), q, pick);
      } else if q == |s.queues| {
        NothingAccounted(s.clients[i], q, pick);
        assert s'.clients[i] == s.clients[i];
      } else {
        assert Accounted(s.clients[i], q, pick);
        StepAccounted(s, a, i, q, pick);
      }
    }
  }

  lemma StepKeepsLossFree(s: State, a: Act)
    requires LossFree(s) && Enabled(s, a)
    ensures LossFree(Next(s, a))
  {
  }

  // ------------------------------------------------------------- invariant

  ghost predicate Sound(s: State) {
    Shaped(s) && Logged(s) && Balanced(s) && Traced(s) && LossFree(s)
  }

  lemma EmptyIsSound()
    ensures Sound(EMPTY)
  {
  }

  lemma StepKeepsSound(s: State, a: Act)
    requires Sound(s) && Enabled(s, a)
    ensures Sound(Next(s, a))
  {
    StepKeepsShape(s, a);
    StepKeepsLogged(s, a);
    StepKeepsBalance(s, a);
    StepKeepsTraced(s, a);
    StepKeepsLossFree(s, a);
  }

  /** The invariant holds in every reachable state. */
  lemma {:induction false} RunIsSound(acts: seq<Act>)
    requires Run(acts).Some?
    ensures Sound(Run(acts).value)
  {
    if acts == [] {
      EmptyIsSound();
    } else {
      RunIsSound(acts[..|acts| - 1]);
      StepKeepsSound(Run(acts[..|acts| - 1]).value, acts[|acts| - 1]);
    }
  }

  /** The states that steps lead to from the empty one. */
  ghost predicate Reachable(s: State) {
    exists acts :: Run(acts) == Some(s)
  }

  lemma ReachableIsSound(s: State)
    requires Reachable(s)
    ensures Sound(s)
  {
    var acts :| Run(acts) == Some(s);
    RunIsSound(acts);
  }

  lemma ReachableStep(s: State, a: Act)
    requires Reachable(s) && Enabled(s, a)
    ensures Reachable(Next(s, a))
  {
    var acts :| Run(acts) == Some(s);
    assert (acts + [a])[..|acts|] == acts;
    assert Run(acts + [a]) == Some(Next(s, a));
  }

  // -------------------------------------------------------------- theorems

  predicate PutNotCounted(c: Client, q: nat) { AtQueue(c.io, q) && c.io.Sending? && c.io.phase.ToAddDepth? }
  predicate PutNotEnqueued(c: Client, q: nat) {
    AtQueue(c.io, q) && c.io.Sending? && (c.io.phase.ToAddDepth? || c.io.phase.ToAddEnqueued?)
  }
  predicate TakenNotCounted(c: Client, q: nat) { AtQueue(c.io, q) && c.io.ToSubDepth? }
  predicate TakenNotDequeued(c: Client, q: nat) { AtQueue(c.io, q) && (c.io.ToSubDepth? || c.io.ToAddDequeued?) }

  function PutsNotCounted(q: nat): Client -> bool { (c: Client) => PutNotCounted(c, q) }
  function PutsNotEnqueued(q: nat): Client -> bool { (c: Client) => PutNotEnqueued(c, q) }
  function TakesNotCounted(q: nat): Client -> bool { (c: Client) => TakenNotCounted(c, q) }
  function TakesNotDequeued(q: nat): Client -> bool { (c: Client) => TakenNotDequeued(c, q) }

  lemma {:induction false} SharesAreCounts(clients: seq<Client>, q: nat, pick: Pick)
    ensures Sum(clients, Share(Buffered, q, pick))
            == Count(clients, PutsNotCounted(q)) - Count(clients, TakesNotCounted(q))
    ensures Sum(clients, Share(Enqueued, q, pick)) == Count(clients, PutsNotEnqueued(q))
    ensures Sum(clients, Share(Dequeued, q, pick)) == Count(clients, TakesNotDequeued(q))
  {
    if clients == [] {
    } else {
      SharesAreCounts(clients[..|clients| - 1], q, pick);
    }
  }

  /** The counter laws, in every reachable state: each counter is off by exactly
      the goroutines between the channel operation and the atomic add. */
  lemma CounterLaw(s: State, q: nat)
    requires Reachable(s) && q < |s.queues|
    ensures var qu := s.queues[q];
      && qu.depth == |qu.buf| - Count(s.clients, PutsNotCounted(q)) + Count(s.clients, TakesNotCounted(q))
      && qu.flushedIn + qu.enqueued == |qu.put| - Count(s.clients, PutsNotEnqueued(q))
      && qu.flushedOut + qu.dequeued == |qu.got| - Count(s.clients, TakesNotDequeued(q))
      && (qu.flushedIn + qu.enqueued) - (qu.flushedOut + qu.dequeued)
         == |qu.buf| - Count(s.clients, PutsNotEnqueued(q)) + Count(s.clients, TakesNotDequeued(q))
  {
    ReachableIsSound(s);
    SharesAreCounts(s.clients, q, All);
    assert Held(Buffered, s.queues, q, All) == Sum(s.clients, Share(Buffered, q, All));
    assert Held(Enqueued, s.queues, q, All) == Sum(s.clients, Share(Enqueued, q, All));
    assert Held(Dequeued, s.queues, q, All) == Sum(s.clients, Share(Dequeued, q, All));
    assert QueueOk(s.queues[q]);
  }

  /** The depth gauge tells the number of buffered messages exactly when as many
      puts as takes are still uncounted. */
  lemma DepthExact(s: State, q: nat)
    requires Reachable(s) && q < |s.queues|
    ensures s.queues[q].depth == |s.queues[q].buf| <==>
        Count(s.clients, PutsNotCounted(q)) == Count(s.clients, TakesNotCounted(q))
  {
    CounterLaw(s, q);
  }

  /** Otherwise it may even be negative: a receiver overtakes the sender between
      the put and the add. */
  lemma NegativeDepth(m: Message) returns (s: State)
    ensures Reachable(s) && |s.queues| == 1 && s.queues[0].depth == -1 && s.queues[0].buf == []
  {
    assert Run([]) == Some(EMPTY);
    assert Reachable(EMPTY);
    hide Reachable;
    s := EMPTY;
    ReachableStep(s, NewQueue);
    s := Next(s, NewQueue);
    ReachableStep(s, NewClient);
    s := Next(s, NewClient);
    ReachableStep(s, NewClient);
    s := Next(s, NewClient);
    assert s == State([NewQueueOf(None, 0)], [Client(Free, []), Client(Free, [])], false);
    s := Overtaking(s, m);
  }

  lemma Overtaking(start: State, m: Message) returns (s: State)
    requires Reachable(start) && start == State([NewQueueOf(None, 0)], [Client(Free, []), Client(Free, [])], false)
    ensures Reachable(s) && |s.queues| == 1 && s.queues[0].depth == -1 && s.queues[0].buf == []
  {
    hide Reachable;
    var s1 := Next(start, Call(0, 0, m));
    ReachableStep(start, Call(0, 0, m));
    assert s1.clients[0].io == Sending(m, [0], ToPut) && s1.clients[1].io == Free && |s1.queues| == 1;
    var s2 := Next(s1, Proceed(0));
    ReachableStep(s1, Proceed(0));
    assert s2.queues[0].buf == [m] && s2.queues[0].depth == 0 && s2.clients[1].io == Free;
    var s3 := Next(s2, Take(1, 0));
    ReachableStep(s2, Take(1, 0));
    assert s3.queues[0].buf == [] && s3.queues[0].depth == 0 && s3.clients[1].io == ToSubDepth(0);
    ReachableStep(s3, Proceed(1));
    s := Next(s3, Proceed(1));
  }

  /** First in, first out, and never over capacity: receives come out in exactly
      the order of the puts. */
  lemma Fifo(s: State, q: nat)
    requires Reachable(s) && q < |s.queues|
    ensures var qu := s.queues[q];
      && qu.got <= qu.put && qu.buf == qu.put[|qu.got|..] && |qu.buf| <= 1000
  {
    ReachableIsSound(s);
    assert QueueOk(s.queues[q]);
  }

  /** Copies of picked messages that a goroutine holds between parent and
      subscription: put on the parent but not yet settled, or settled but not
      yet put on the subscription. */
  function HeldCopies(p: nat, q: nat, pick: Pick): Client -> int {
    (c: Client) => ShareOf(Settling, p, pick, c) + ShareOf(Owing, q, pick, c)
  }

  lemma {:induction false} SumOfShares(clients: seq<Client>, p: nat, q: nat, pick: Pick)
    ensures Sum(clients, HeldCopies(p, q, pick))
            == Sum(clients, Share(Settling, p, pick)) + Sum(clients, Share(Owing, q, pick))
  {
    if clients == [] {
    } else {
      SumOfShares(clients[..|clients| - 1], p, q, pick);
    }
  }

  /** Fan-out conservation in every reachable state, cancelled or not: what was
      put on the parent, less the sends settled before the subscription, plus
      direct calls, is what was put on the subscription, what was given up, and
      the copies in the hands of senders. */
  lemma FanOut(s: State, q: nat, pick: Pick)
    requires Reachable(s) && q < |s.queues| && s.queues[q].parent.Some?
    ensures var sub := s.queues[q];
      && sub.parent.value < q && sub.since <= |s.queues[sub.parent.value].settled|
      && var parent := s.queues[sub.parent.value];
      Tally(parent.put, pick) - Tally(parent.settled[..sub.since], pick) + Tally(sub.called, pick)
      == Tally(sub.put, pick) + Tally(sub.dropped, pick) + Sum(s.clients, HeldCopies(sub.parent.value, q, pick))
  {
    ReachableIsSound(s);
    var sub := s.queues[q];
    var p := sub.parent.value;
    SumOfShares(s.clients, p, q, pick);
    assert Held(Settling, s.queues, p, pick) == Sum(s.clients, Share(Settling, p, pick));
    assert Held(Owing, s.queues, q, pick) == Sum(s.clients, Share(Owing, q, pick));
    var settled := s.queues[p].settled;
    TallyConcat(settled[..sub.since], settled[sub.since..], pick);
    assert settled == settled[..sub.since] + settled[sub.since..];
  }

  lemma {:induction false} FreeHoldNothing(clients: seq<Client>, p: nat, q: nat, pick: Pick)
    requires forall i :: 0 <= i < |clients| ==> clients[i].io == Free
    ensures Sum(clients, HeldCopies(p, q, pick)) == 0
  {
    if clients == [] {
    } else {
      FreeHoldNothing(clients[..|clients| - 1], p, q, pick);
    }
  }

  /** Without cancellation and between sends, a subscription has received exactly
      the messages put on its parent since the subscription, as multisets. */
  lemma FanOutAtRest(s: State, q: nat)
    requires Reachable(s) && q < |s.queues| && s.queues[q].parent.Some?
    requires !s.cancelled && s.queues[q].called == []
    requires forall i :: 0 <= i < |s.clients| ==> s.clients[i].io == Free
    ensures var sub := s.queues[q];
      && sub.parent.value < q && sub.since <= |s.queues[sub.parent.value].settled|
      && var parent := s.queues[sub.parent.value];
      multiset(parent.put) == multiset(parent.settled[..sub.since]) + multiset(sub.put)
  {
    ReachableIsSound(s);
    FanOut(s, q, All);
    var sub := s.queues[q];
    var parent := s.queues[sub.parent.value];
    var before := parent.settled[..sub.since];
    forall m
      ensures multiset(parent.put)[m] == (multiset(before) + multiset(sub.put))[m]
    {
      FanOut(s, q, Just(m));
      FreeHoldNothing(s.clients, sub.parent.value, q, Just(m));
      TallyNone(Just(m));
      TallyIsMultiplicity(parent.put, m);
      TallyIsMultiplicity(before, m);
      TallyIsMultiplicity(sub.put, m);
    }
  }

  /** A goroutine inside a queue operation is stuck in exactly one place: before
      putting on a full buffer, with the context not cancelled. */
  lemma OnlyFullBufferBlocks(s: State, i: nat)
    requires Reachable(s) && i < |s.clients| && s.clients[i].io != Free
    ensures var io := s.clients[i].io;
      Busy(s, i) &&
      ((Enabled(s, Proceed(i)) || Enabled(s, Drop(i))) <==>
      !(io.Sending? && io.phase.ToPut? && |s.queues[Target(io)].buf| == BUFFER_SIZE && !s.cancelled))
  {
    ReachableIsSound(s);
    assert ClientOk(s.clients[i], |s.queues|);
    assert QueueOk(s.queues[Target(s.clients[i].io)]);
  }
}
