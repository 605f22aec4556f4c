/** The books of the queues: in every reachable state, what a queue shows and what
    its history says differ exactly by the goroutines in between. */
module BrokerLaws {
  import opened Sequences
  import opened Messages
  import opened Broker

  /** The accounts that are kept in balance. */
  datatype Law = Buffered | Enqueued | Dequeued | Stores | Settling | Owing | Calls

  /** What a subscription inherits: the sends its parent settled since. */
  function Inherited(queues: seq<Queue>, q: nat, pick: Pick): int
    requires q < |queues|
  {
    var qu := queues[q];
    if qu.parent.Some? && qu.parent.value < |queues| && qu.since <= |queues[qu.parent.value].settled|
    then Tally(queues[qu.parent.value].settled[qu.since..], pick) else 0
  }

  /** What one queue's counters and history show. */
  function Shown(law: Law, qu: Queue, pick: Pick): int {
    match law
    case Buffered => |qu.buf| - qu.depth
    case Enqueued => |qu.put| - qu.flushedIn - qu.enqueued
    case Dequeued => |qu.got| - qu.flushedOut - qu.dequeued
    case Stores => Tally(qu.put, pick)
    case Settling => Tally(qu.put, pick) - Tally(qu.settled, pick)
    case Owing => Tally(qu.called, pick) - Tally(qu.put, pick) - Tally(qu.dropped, pick)
    case Calls => Tally(qu.called, pick)
  }

  /** The queue's side of an account. */
  function Held(law: Law, queues: seq<Queue>, q: nat, pick: Pick): int
    requires q < |queues|
  {
    Shown(law, queues[q], pick) + if law.Owing? then Inherited(queues, q, pick) else 0
  }

  predicate IsCall(e: Event, q: nat, pick: Pick) { e.Called? && e.q == q && Picked(pick, e.msg) }
  predicate IsStore(e: Event, q: nat, pick: Pick) { e.Stored? && e.q == q && Picked(pick, e.msg) }
  predicate IsLoss(e: Event, q: nat, pick: Pick) { e.Lost? && e.q == q && Picked(pick, e.msg) }

  function CallsTo(q: nat, pick: Pick): Event -> bool { (e: Event) => IsCall(e, q, pick) }
  function StoresIn(q: nat, pick: Pick): Event -> bool { (e: Event) => IsStore(e, q, pick) }
  function LossesAt(q: nat, pick: Pick): Event -> bool { (e: Event) => IsLoss(e, q, pick) }

  function One(b: bool): int { if b then 1 else 0 }

  /** Copies of the message in hand that a goroutine has still to put on q. */
  function Pending(io: Io, q: nat, pick: Pick): int {
    if io.Sending? && io.todo != [] && Picked(pick, io.msg)
    then Count(if io.phase.ToPut? then io.todo else io.todo[1..], Is(q)) else 0
  }

  /** One goroutine's part of an account. */
  function ShareOf(law: Law, q: nat, pick: Pick, c: Client): int {
    match law
    case Buffered =>
        One(AtQueue(c.io, q) && c.io.Sending? && c.io.phase.ToAddDepth?) - One(AtQueue(c.io, q) && c.io.ToSubDepth?)
    case Enqueued => One(AtQueue(c.io, q) && c.io.Sending? && (c.io.phase.ToAddDepth? || c.io.phase.ToAddEnqueued?))
    case Dequeued => One(AtQueue(c.io, q) && (c.io.ToSubDepth? || c.io.ToAddDequeued?))
    case Stores => Count(c.log, StoresIn(q, pick))
    case Settling => One(AtQueue(c.io, q) && c.io.Sending? && !c.io.phase.ToPut? && Picked(pick, c.io.msg))
    case Owing => Pending(c.io, q, pick)
    case Calls => Count(c.log, CallsTo(q, pick))
  }

  function Share(law: Law, q: nat, pick: Pick): Client -> int { (c: Client) => ShareOf(law, q, pick, c) }

  /** Every account balances, for every queue and every choice of messages. */
  ghost predicate Balanced(s: State) {
    forall law, q: nat, pick :: q < |s.queues| ==> Held(law, s.queues, q, pick) == Sum(s.clients, Share(law, q, pick))
  }

  // ------------------------------------------------- one goroutine, one queue

  /** The step moves both sides of the account by the same amount. */
  ghost predicate Moves(law: Law, queues: seq<Queue>, k: nat, qu: Queue, c: Client, c': Client, q: nat, pick: Pick)
    requires k < |queues| && q < |queues|
  {
    Held(law, queues[k := qu], q, pick) - Held(law, queues, q, pick)
    == ShareOf(law, q, pick, c') - ShareOf(law, q, pick, c)
  }

  lemma BothKeepsBalance(s: State, k: nat, i: nat, r: (Queue, Client))
    requires Balanced(s) && k < |s.queues| && i < |s.clients|
    requires forall law, q: nat, pick :: q < |s.queues| ==> Moves(law, s.queues, k, r.0, s.clients[i], r.1, q, pick)
    ensures Balanced(Both(s, k, i, r))
  {
    forall law, q: nat, pick | q < |s.queues|
      ensures Held(law, s.queues[k := r.0], q, pick) == Sum(s.clients[i := r.1], Share(law, q, pick))
    {
      SumUpdate(s.clients, i, r.1, Share(law, q, pick));
      assert Moves(law, s.queues, k, r.0, s.clients[i], r.1, q, pick);
    }
  }

  /** The same, for a step that changes queue k from qu to qu' and what queue q
      inherits by `gained`. */
  ghost predicate Shifts(law: Law, k: nat, r: (Queue, Client), r': (Queue, Client), gained: int, q: nat, pick: Pick) {
    (if q == k then Shown(law, r'.0, pick) - Shown(law, r.0, pick) else 0) + (if law.Owing? then gained else 0)
    == ShareOf(law, q, pick, r'.1) - ShareOf(law, q, pick, r.1)
  }

  lemma ShiftMoves(law: Law, queues: seq<Queue>, k: nat, c: Client, r': (Queue, Client), gained: int, q: nat,
      pick: Pick)
    requires k < |queues| && q < |queues| && Shifts(law, k, (queues[k], c), r', gained, q, pick)
    requires Inherited(queues[k := r'.0], q, pick) == Inherited(queues, q, pick) + gained
    ensures Moves(law, queues, k, r'.0, c, r'.1, q, pick)
  {
  }

  lemma RestPending(m: Message, todo: seq<nat>, log: seq<Event>, law: Law, q: nat, pick: Pick)
    ensures ShareOf(law, q, pick, Client(Rest(m, todo), log))
            == match law
               case Owing => if Picked(pick, m) then Count(todo, Is(q)) else 0
               case Stores => Count(log, StoresIn(q, pick))
               case Calls => Count(log, CallsTo(q, pick))
               case _ => 0
  {
  }

  lemma InheritsSame(queues: seq<Queue>, k: nat, qu: Queue, q: nat, pick: Pick)
    requires k < |queues| && q < |queues|
    requires qu.settled == queues[k].settled && qu.parent == queues[k].parent && qu.since == queues[k].since
    ensures Inherited(queues[k := qu], q, pick) == Inherited(queues, q, pick)
  {
  }

  lemma {:induction false} CountFirst(todo: seq<nat>, q: nat)
    requires todo != []
    ensures Count(todo, Is(q)) == One(todo[0] == q) + Count(todo[1..], Is(q))
  {
    CountConcat<nat>([todo[0]], todo[1..], Is(q));
    CountOne<nat>(todo[0], Is(q));
    assert todo == [todo[0]] + todo[1..];
  }

  lemma LogSnoc(log: seq<Event>, e: Event, q: nat, pick: Pick)
    ensures Count(log + [e], CallsTo(q, pick)) == Count(log, CallsTo(q, pick)) + One(IsCall(e, q, pick))
    ensures Count(log + [e], StoresIn(q, pick)) == Count(log, StoresIn(q, pick)) + One(IsStore(e, q, pick))
    ensures Count(log + [e], LossesAt(q, pick)) == Count(log, LossesAt(q, pick)) + One(IsLoss(e, q, pick))
  {
    CountSnoc(log, e, CallsTo(q, pick));
    CountSnoc(log, e, StoresIn(q, pick));
    CountSnoc(log, e, LossesAt(q, pick));
  }

  lemma CallShifts(qu: Queue, k: nat, c: Client, m: Message, law: Law, q: nat, pick: Pick)
    requires c.io == Free
    ensures Shifts(law, k, (qu, c), CallStep(qu, c, k, m), 0, q, pick)
  {
    TallySnoc(qu.called, m, pick);
    LogSnoc(c.log, Called(k, m), q, pick);
    CountOne<nat>(k, Is(q));
    hide Tally, Picked, Count;
  }

  lemma PendingHead(m: Message, todo: seq<nat>, q: nat, pick: Pick)
    requires todo != []
    ensures Pending(Sending(m, todo, ToPut), q, pick)
            == Pending(Sending(m, todo, ToAddDepth), q, pick) + One(todo[0] == q && Picked(pick, m))
  {
    CountFirst(todo, q);
    hide Count, Picked;
  }

  lemma PutShifts(qu: Queue, k: nat, c: Client, law: Law, q: nat, pick: Pick)
    requires c.io.Sending? && c.io.todo != [] && c.io.todo[0] == k && c.io.phase.ToPut?
    ensures Shifts(law, k, (qu, c), Micro(qu, c), 0, q, pick)
  {
    TallySnoc(qu.put, c.io.msg, pick);
    LogSnoc(c.log, Stored(k, c.io.msg), q, pick);
    PendingHead(c.io.msg, c.io.todo, q, pick);
    hide Tally, Picked, Count, Pending;
    match law
    case Settling =>
    case _ =>
  }

  lemma CounterShifts(qu: Queue, k: nat, c: Client, law: Law, q: nat, pick: Pick)
    requires AtQueue(c.io, k)
    requires c.io.Sending? ==> c.io.phase.ToAddDepth? || c.io.phase.ToAddEnqueued?
    ensures Shifts(law, k, (qu, c), Micro(qu, c), 0, q, pick)
  {
    hide Tally, Picked, Count;
  }

  /** Settling a send on k adds one copy owed to each subscription of k. */
  lemma SettledInherits(queues: seq<Queue>, k: nat, qu: Queue, m: Message, q: nat, pick: Pick)
    requires Forest(queues) && k < |queues| && q < |queues|
    requires qu.settled == queues[k].settled + [m] && qu.parent == queues[k].parent && qu.since == queues[k].since
    ensures Inherited(queues[k := qu], q, pick)
            == Inherited(queues, q, pick) + One(queues[q].parent == Some(k) && Picked(pick, m))
  {
    if queues[q].parent == Some(k) {
      var before, since := queues[k].settled, queues[q].since;
      assert (before + [m])[since..] == before[since..] + [m];
      TallySnoc(before[since..], m, pick);
    }
  }

  lemma SnapshotShifts(qu: Queue, k: nat, c: Client, listed: int, law: Law, q: nat, pick: Pick)
    requires c.io.Sending? && c.io.todo != [] && c.io.todo[0] == k && c.io.phase.ToSnapshot?
    requires Count(qu.subs, Is(q)) == listed
    ensures Shifts(law, k, (qu, c), Micro(qu, c), if Picked(pick, c.io.msg) then listed else 0, q, pick)
  {
    var m, rest := c.io.msg, c.io.todo[1..];
    TallySnoc(qu.settled, m, pick);
    CountConcat(qu.subs, rest, Is(q));
    RestPending(m, qu.subs + rest, c.log, law, q, pick);
    hide Tally, Picked, Count, Rest;
  }

  lemma DropShifts(qu: Queue, k: nat, c: Client, law: Law, q: nat, pick: Pick)
    requires c.io.Sending? && c.io.todo != [] && c.io.todo[0] == k && c.io.phase.ToPut?
    ensures Shifts(law, k, (qu, c), DropStep(qu, c), 0, q, pick)
  {
    var m := c.io.msg;
    TallySnoc(qu.dropped, m, pick);
    LogSnoc(c.log, Lost(k, m), q, pick);
    CountFirst(c.io.todo, q);
    RestPending(m, c.io.todo[1..], c.log + [Lost(k, m)], law, q, pick);
    hide Tally, Picked, Count, Rest;
  }

  lemma TakeShifts(qu: Queue, k: nat, c: Client, law: Law, q: nat, pick: Pick)
    requires qu.buf != [] && c.io == Free
    ensures Shifts(law, k, (qu, c), TakeStep(qu, c, k), 0, q, pick)
  {
    hide Tally, Picked, Count;
  }

  lemma MicroMoves(queues: seq<Queue>, k: nat, c: Client, law: Law, q: nat, pick: Pick)
    requires Forest(queues) && k < |queues| && q < |queues| && AtQueue(c.io, k)
    ensures Moves(law, queues, k, Micro(queues[k], c).0, c, Micro(queues[k], c).1, q, pick)
  {
    var r := Micro(queues[k], c);
    if c.io.Sending? && c.io.phase.ToSnapshot? {
      SettledInherits(queues, k, r.0, c.io.msg, q, pick);
      SnapshotShifts(queues[k], k, c, One(queues[q].parent == Some(k)), law, q, pick);
      ShiftMoves(law, queues, k, c, r, One(queues[q].parent == Some(k) && Picked(pick, c.io.msg)), q, pick);
    } else {
      if c.io.Sending? && c.io.phase.ToPut? {
        PutShifts(queues[k], k, c, law, q, pick);
      } else {
        CounterShifts(queues[k], k, c, law, q, pick);
      }
      InheritsSame(queues, k, r.0, q, pick);
      ShiftMoves(law, queues, k, c, r, 0, q, pick);
    }
  }

  lemma PlainMoves(law: Law, queues: seq<Queue>, k: nat, c: Client, r: (Queue, Client), q: nat, pick: Pick)
    requires k < |queues| && q < |queues| && Shifts(law, k, (queues[k], c), r, 0, q, pick)
    requires r.0.settled == queues[k].settled && r.0.parent == queues[k].parent && r.0.since == queues[k].since
    ensures Moves(law, queues, k, r.0, c, r.1, q, pick)
  {
    InheritsSame(queues, k, r.0, q, pick);
    ShiftMoves(law, queues, k, c, r, 0, q, pick);
  }

  lemma MicroKeepsBalance(s: State, i: nat)
    requires Shaped(s) && Balanced(s) && Enabled(s, Proceed(i))
    ensures Balanced(Next(s, Proceed(i)))
  {
    var c := s.clients[i];
    var k := Target(c.io);
    forall law, q: nat, pick | q < |s.queues|
      ensures Moves(law, s.queues, k, Micro(s.queues[k], c).0, c, Micro(s.queues[k], c).1, q, pick)
    {
      MicroMoves(s.queues, k, c, law, q, pick);
    }
    BothKeepsBalance(s, k, i, Micro(s.queues[k], c));
  }

  // ------------------------------------------------------------ other steps

  /** Swapping a counter out moves its value to the flushed side. */
  lemma FlushKeepsBalance(s: State, k: nat, out: bool)
    requires Balanced(s) && k < |s.queues|
    ensures Balanced(Next(s, if out then FlushOut(k) else FlushIn(k)))
  {
    var s' := Next(s, if out then FlushOut(k) else FlushIn(k));
    forall law, q: nat, pick | q < |s'.queues|
      ensures Held(law, s'.queues, q, pick) == Sum(s'.clients, Share(law, q, pick))
    {
      InheritsSame(s.queues, k, s'.queues[k], q, pick);
      hide Inherited, Tally, Picked, Sum;
    }
  }

  lemma NewClientKeepsBalance(s: State)
    requires Balanced(s)
    ensures Balanced(Next(s, NewClient))
  {
    forall law, q: nat, pick | q < |s.queues|
      ensures Held(law, s.queues, q, pick) == Sum(s.clients + [Client(Free, [])], Share(law, q, pick))
    {
      assert (s.clients + [Client(Free, [])])[..|s.clients|] == s.clients;
      assert ShareOf(law, q, pick, Client(Free, [])) == 0;
    }
  }

  /** No goroutine has anything to do with a queue that does not exist yet. */
  lemma {:induction false} NoShareYet(clients: seq<Client>, n: nat, law: Law, pick: Pick)
    requires forall i :: 0 <= i < |clients| ==> ClientOk(clients[i], n) && Past(clients[i].log, n)
    ensures Sum(clients, Share(law, n, pick)) == 0
  {
    if clients == [] {
    } else {
      var c := clients[|clients| - 1];
      NoShareYet(clients[..|clients| - 1], n, law, pick);
      CountPositive(c.log, CallsTo(n, pick));
      CountPositive(c.log, StoresIn(n, pick));
      if c.io.Sending? {
        CountPositive<nat>(c.io.todo, Is(n));
        CountPositive<nat>(c.io.todo[1..], Is(n));
      }
      assert ShareOf(law, n, pick, c) == 0;
    }
  }

  /** The log speaks of the first n queues only. */
  ghost predicate Past(log: seq<Event>, n: nat) {
    forall e :: 0 <= e < |log| ==> log[e].q < n
  }

  ghost predicate Logged(s: State) {
    forall i :: 0 <= i < |s.clients| ==> Past(s.clients[i].log, |s.queues|)
  }

  lemma StepKeepsLogged(s: State, a: Act)
    requires Logged(s) && Enabled(s, a)
    ensures Logged(Next(s, a))
  {
  }

  lemma NewQueueKeepsBalance(s: State)
    requires Shaped(s) && Logged(s) && Balanced(s)
    ensures Balanced(Next(s, NewQueue))
  {
    var s' := Next(s, NewQueue);
    forall law, q: nat, pick | q < |s'.queues|
      ensures Held(law, s'.queues, q, pick) == Sum(s'.clients, Share(law, q, pick))
    {
      if q < |s.queues| {
        assert Held(law, s'.queues, q, pick) == Held(law, s.queues, q, pick);
      } else {
        NoShareYet(s.clients, q, law, pick);
        TallyNone(pick);
      }
    }
  }

  /** The queues after a new subscription to p. */
  function Subscribed(queues: seq<Queue>, p: nat): seq<Queue>
    requires p < |queues|
  {
    queues[p := queues[p].(subs := queues[p].subs + [|queues|])] + [NewQueueOf(Some(p), |queues[p].settled|)]
  }

  lemma SubscribedInherits(queues: seq<Queue>, p: nat, q: nat, pick: Pick)
    requires p < |queues| && q <= |queues|
        && (q < |queues| && queues[q].parent.Some? ==> queues[q].parent.value < |queues|)
    ensures Inherited(Subscribed(queues, p), q, pick) == if q < |queues| then Inherited(queues, q, pick) else 0
  {
    var after := Subscribed(queues, p);
    TallyNone(pick);
    assert queues[p].settled[|queues[p].settled|..] == [];
    if q < |queues| && queues[q].parent.Some? {
      assert after[queues[q].parent.value].settled == queues[queues[q].parent.value].settled;
    }
    hide Tally, Picked;
  }

  /** A new subscription starts owing nothing, and changes no other account. */
  lemma SubscribedHeld(queues: seq<Queue>, p: nat, law: Law, q: nat, pick: Pick)
    requires p < |queues| && q <= |queues|
        && (q < |queues| && queues[q].parent.Some? ==> queues[q].parent.value < |queues|)
    ensures Held(law, Subscribed(queues, p), q, pick) == if q < |queues| then Held(law, queues, q, pick) else 0
  {
    SubscribedInherits(queues, p, q, pick);
    TallyNone(pick);
    hide Tally, Picked, Inherited;
  }

  lemma SubscribeKeepsBalance(s: State, p: nat)
    requires Shaped(s) && Logged(s) && Balanced(s) && p < |s.queues|
    ensures Balanced(Next(s, Subscribe(p)))
  {
    var s' := Next(s, Subscribe(p));
    assert s'.queues == Subscribed(s.queues, p);
    forall law, q: nat, pick | q < |s'.queues|
      ensures Held(law, s'.queues, q, pick) == Sum(s'.clients, Share(law, q, pick))
    {
      SubscribedHeld(s.queues, p, law, q, pick);
      if q == |s.queues| {
        NoShareYet(s.clients, q, law, pick);
      }
    }
  }

  /** Every step of every goroutine keeps every account in balance. */
  lemma StepKeepsBalance(s: State, a: Act)
    requires Shaped(s) && Logged(s) && Balanced(s) && Enabled(s, a)
    ensures Balanced(Next(s, a))
  {
    match a
    case NewQueue => NewQueueKeepsBalance(s);
    case Subscribe(p) => SubscribeKeepsBalance(s, p);
    case NewClient => NewClientKeepsBalance(s);
    case Cancel =>
    case Call(i, k, m) =>
      forall law, q: nat, pick | q < |s.queues|
        ensures Moves(law, s.queues, k, CallStep(s.queues[k], s.clients[i], k, m).0, s.clients[i],
            CallStep(s.queues[k], s.clients[i], k, m).1, q, pick)
      {
        CallShifts(s.queues[k], k, s.clients[i], m, law, q, pick);
        PlainMoves(law, s.queues, k, s.clients[i], CallStep(s.queues[k], s.clients[i], k, m), q, pick);
      }
      BothKeepsBalance(s, k, i, CallStep(s.queues[k], s.clients[i], k, m));
    case Proceed(i) => MicroKeepsBalance(s, i);
    case Drop(i) =>
      var c := s.clients[i];
      var k := Target(c.io);
      forall law, q: nat, pick | q < |s.queues|
        ensures Moves(law, s.queues, k, DropStep(s.queues[k], c).0, c, DropStep(s.queues[k], c).1, q, pick)
      {
        DropShifts(s.queues[k], k, c, law, q, pick);
        PlainMoves(law, s.queues, k, c, DropStep(s.queues[k], c), q, pick);
      }
      BothKeepsBalance(s, k, i, DropStep(s.queues[k], c));
    case Take(i, k) =>
      forall law, q: nat, pick | q < |s.queues|
        ensures Moves(law, s.queues, k, TakeStep(s.queues[k], s.clients[i], k).0, s.clients[i],
            TakeStep(s.queues[k], s.clients[i], k).1, q, pick)
      {
        TakeShifts(s.queues[k], k, s.clients[i], law, q, pick);
        PlainMoves(law, s.queues, k, s.clients[i], TakeStep(s.queues[k], s.clients[i], k), q, pick);
      }
      BothKeepsBalance(s, k, i, TakeStep(s.queues[k], s.clients[i], k));
    case FlushIn(k) => FlushKeepsBalance(s, k, false);
    case FlushOut(k) => FlushKeepsBalance(s, k, true);
  }
}
