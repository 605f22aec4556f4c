/** The in-memory queues as an interleaved transition system: every channel
    operation, atomic add and mutex section is one step. */
module Broker {
  import opened Sequences
  import opened Messages

  const BUFFER_SIZE: nat := 1000

  /** The channel and counters of a queue, and its history: what was flushed to
      metric rows (sums), what Send was called with, what went into and came out
      of the buffer, which sends took their snapshot of the subscribers, and what
      was given up at cancellation. A subscription has a parent queue, and
      `since` says how many sends of the parent had settled by then. */
  datatype Queue = Queue(
    buf: seq<Message>, depth: int, enqueued: int, dequeued: int, subs: seq<nat>,
    flushedIn: int, flushedOut: int,
    called: seq<Message>, put: seq<Message>, got: seq<Message>, settled: seq<Message>, dropped: seq<Message>,
    parent: Option<nat>, since: nat)

  /** Where a Send stands for the queue at the head of `todo`. */
  datatype Phase = ToPut | ToAddDepth | ToAddEnqueued | ToSnapshot

  /** The queue operation a goroutine is inside of. `todo` is the stack of the
      recursive Send calls: the current queue first. */
  datatype Io =
    | Free
    | Sending(msg: Message, todo: seq<nat>, phase: Phase)
    | ToSubDepth(q: nat)
    | ToAddDequeued(q: nat)

  datatype Event =
    | Called(q: nat, msg: Message)
    | Stored(q: nat, msg: Message)
    | Lost(q: nat, msg: Message)

  datatype Client = Client(io: Io, log: seq<Event>)

  datatype State = State(queues: seq<Queue>, clients: seq<Client>, cancelled: bool)

  const EMPTY: State := State([], [], false)

  /** One step of some goroutine, or of the environment. */
  datatype Act =
    | NewQueue
    | Subscribe(p: nat)
    | NewClient
    | Cancel
    | Call(i: nat, q: nat, msg: Message)  // a goroutine enters Send
    | Proceed(i: nat)                     // the next atomic step inside Send or TryReceive
    | Drop(i: nat)                        // the select in Send takes the cancelled branch
    | Take(i: nat, q: nat)                // TryReceive gets the oldest message
    | FlushIn(q: nat)                     // the enqueued counter is swapped out
    | FlushOut(q: nat)                    // the dequeued counter is swapped out

  // ---------------------------------------------------------------- steps

  function NewQueueOf(parent: Option<nat>, since: nat): Queue {
    Queue([], 0, 0, 0, [], 0, 0, [], [], [], [], [], parent, since)
  }

  /** The rest of a recursive Send once its current queue is finished. */
  function Rest(m: Message, todo: seq<nat>): Io {
    if todo == [] then Free else Sending(m, todo, ToPut)
  }

  /** The queue a goroutine is working on. */
  predicate AtQueue(io: Io, q: nat) {
    match io
    case Free => false
    case Sending(_, todo, _) => todo != [] && todo[0] == q
    case ToSubDepth(r) => r == q
    case ToAddDequeued(r) => r == q
  }

  function Target(io: Io): nat
    requires io.Sending? ==> io.todo != []
  {
    match io
    case Free => 0
    case Sending(_, todo, _) => todo[0]
    case ToSubDepth(q) => q
    case ToAddDequeued(q) => q
  }

  /** The next atomic step of a queue operation, on the queue and the goroutine. */
  function Micro(qu: Queue, c: Client): (Queue, Client)
    requires c.io.Sending? ==> c.io.todo != []
  {
    match c.io
    case Free => (qu, c)
    case Sending(m, todo, ToPut) =>
      (qu.(buf := qu.buf + [m], put := qu.put + [m]),
       Client(Sending(m, todo, ToAddDepth), c.log + [Stored(todo[0], m)]))
    case Sending(m, todo, ToAddDepth) => (qu.(depth := qu.depth + 1), c.(io := Sending(m, todo, ToAddEnqueued)))
    case Sending(m, todo, ToAddEnqueued) => (qu.(enqueued := qu.enqueued + 1), c.(io := Sending(m, todo, ToSnapshot)))
    case Sending(m, todo, ToSnapshot) => (qu.(settled := qu.settled + [m]), c.(io := Rest(m, qu.subs + todo[1..])))
    case ToSubDepth(q) => (qu.(depth := qu.depth - 1), c.(io := ToAddDequeued(q)))
    case ToAddDequeued(_) => (qu.(dequeued := qu.dequeued + 1), c.(io := Free))
  }

  /** The goroutine is inside a queue operation on an existing queue. */
  predicate Busy(s: State, i: nat) {
    && i < |s.clients|
    && s.clients[i].io != Free
    && (s.clients[i].io.Sending? ==> s.clients[i].io.todo != [])
    && Target(s.clients[i].io) < |s.queues|
  }

  predicate Enabled(s: State, a: Act) {
    match a
    case NewQueue => true
    case Subscribe(p) => p < |s.queues|
    case NewClient => true
    case Cancel => true
    case Call(i, q, _) => i < |s.clients| && s.clients[i].io == Free && q < |s.queues|
    case Proceed(i) =>
      && Busy(s, i)
      && (s.clients[i].io.Sending? && s.clients[i].io.phase.ToPut? ==>
          |s.queues[Target(s.clients[i].io)].buf| < BUFFER_SIZE)
    case Drop(i) => Busy(s, i) && s.clients[i].io.Sending? && s.clients[i].io.phase.ToPut? && s.cancelled
    case Take(i, q) => i < |s.clients| && s.clients[i].io == Free && q < |s.queues| && s.queues[q].buf != []
    case FlushIn(q) => q < |s.queues|
    case FlushOut(q) => q < |s.queues|
  }

  /** A step of goroutine i on queue q. */
  function Both(s: State, q: nat, i: nat, r: (Queue, Client)): State
    requires q < |s.queues| && i < |s.clients|
  {
    s.(queues := s.queues[q := r.0], clients := s.clients[i := r.1])
  }

  function CallStep(qu: Queue, c: Client, q: nat, m: Message): (Queue, Client) {
    (qu.(called := qu.called + [m]), Client(Sending(m, [q], ToPut), c.log + [Called(q, m)]))
  }

  function DropStep(qu: Queue, c: Client): (Queue, Client)
    requires c.io.Sending? && c.io.todo != []
  {
    (qu.(dropped := qu.dropped + [c.io.msg]),
        Client(Rest(c.io.msg, c.io.todo[1..]), c.log + [Lost(c.io.todo[0], c.io.msg)]))
  }

  function TakeStep(qu: Queue, c: Client, q: nat): (Queue, Client)
    requires qu.buf != []
  {
    (qu.(buf := qu.buf[1..], got := qu.got + [qu.buf[0]]), c.(io := ToSubDepth(q)))
  }

  function Next(s: State, a: Act): State
    requires Enabled(s, a)
  {
    match a
    case NewQueue => s.(queues := s.queues + [NewQueueOf(None, 0)])
    case Subscribe(p) =>
      var parent := s.queues[p];
      s.(queues := s.queues[p := parent.(subs := parent.subs + [|s.queues|])] + [NewQueueOf(Some(p), |parent.settled|)])
    case NewClient => s.(clients := s.clients + [Client(Free, [])])
    case Cancel => s.(cancelled := true)
    case Call(i, q, m) => Both(s, q, i, CallStep(s.queues[q], s.clients[i], q, m))
    case Proceed(i) =>
      var q := Target(s.clients[i].io);
      Both(s, q, i, Micro(s.queues[q], s.clients[i]))
    case Drop(i) =>
      var q := Target(s.clients[i].io);
      Both(s, q, i, DropStep(s.queues[q], s.clients[i]))
    case Take(i, q) => Both(s, q, i, TakeStep(s.queues[q], s.clients[i], q))
    case FlushIn(q) =>
      var qu := s.queues[q];
      s.(queues := s.queues[q := qu.(flushedIn := qu.flushedIn + qu.enqueued, enqueued := 0)])
    case FlushOut(q) =>
      var qu := s.queues[q];
      s.(queues := s.queues[q := qu.(flushedOut := qu.flushedOut + qu.dequeued, dequeued := 0)])
  }

  /** Where a sequence of steps leads from the empty state; none if some step is
      not possible where it is taken. */
  function Run(acts: seq<Act>): Option<State> {
    if acts == [] then Some(EMPTY)
    else
      var before := Run(acts[..|acts| - 1]);
      if before.Some? && Enabled(before.value, acts[|acts| - 1])
      then Some(Next(before.value, acts[|acts| - 1])) else None
  }

  // ----------------------------------------------------------- the shape

  ghost predicate QueueOk(qu: Queue) {
    qu.put == qu.got + qu.buf && |qu.buf| <= BUFFER_SIZE
  }

  function Is(q: nat): nat -> bool { (r: nat) => r == q }

  /** Subscriptions form a forest: q is listed once by its parent, by no other. */
  ghost predicate Forest(queues: seq<Queue>) {
    && (forall q :: 0 <= q < |queues| && queues[q].parent.Some? ==>
          queues[q].parent.value < q && queues[q].since <= |queues[queues[q].parent.value].settled|)
    && (forall p, k :: 0 <= p < |queues| && 0 <= k < |queues[p].subs| ==> p < queues[p].subs[k] < |queues|)
    && (forall p: nat, q: nat :: p < |queues| && q < |queues| ==>
          Count(queues[p].subs, Is(q)) == if queues[q].parent == Some(p) then 1 else 0)
  }

  ghost predicate ClientOk(c: Client, n: nat) {
    match c.io
    case Free => true
    case Sending(_, todo, _) => todo != [] && forall k :: 0 <= k < |todo| ==> todo[k] < n
    case ToSubDepth(q) => q < n
    case ToAddDequeued(q) => q < n
  }

  ghost predicate Shaped(s: State) {
    && (forall q :: 0 <= q < |s.queues| ==> QueueOk(s.queues[q]))
    && Forest(s.queues)
    && (forall i :: 0 <= i < |s.clients| ==> ClientOk(s.clients[i], |s.queues|))
  }

  /** The step leaves the subscriptions of the queue alone. */
  ghost predicate SameWiring(a: Queue, b: Queue) {
    b.subs == a.subs && b.parent == a.parent && b.since == a.since && |b.settled| >= |a.settled|
  }

  lemma SwapKeepsForest(queues: seq<Queue>, q: nat, qu: Queue)
    requires Forest(queues) && q < |queues| && SameWiring(queues[q], qu)
    ensures Forest(queues[q := qu])
  {
  }

  lemma BothKeepsShape(s: State, q: nat, i: nat, r: (Queue, Client))
    requires Shaped(s) && q < |s.queues| && i < |s.clients|
    requires QueueOk(r.0) && SameWiring(s.queues[q], r.0) && ClientOk(r.1, |s.queues|)
    ensures Shaped(Both(s, q, i, r))
  {
    SwapKeepsForest(s.queues, q, r.0);
  }

  lemma RestOk(m: Message, todo: seq<nat>, log: seq<Event>, n: nat)
    requires forall k :: 0 <= k < |todo| ==> todo[k] < n
    ensures ClientOk(Client(Rest(m, todo), log), n)
  {
  }

  lemma MicroKeepsShape(s: State, i: nat)
    requires Shaped(s) && Enabled(s, Proceed(i))
    ensures Shaped(Next(s, Proceed(i)))
  {
    var c := s.clients[i];
    var q := Target(c.io);
    var r := Micro(s.queues[q], c);
    assert ClientOk(c, |s.queues|) && QueueOk(s.queues[q]);
    if c.io.Sending? && c.io.phase.ToSnapshot? {
      RestOk(c.io.msg, s.queues[q].subs + c.io.todo[1..], c.log, |s.queues|);
    }
    BothKeepsShape(s, q, i, r);
  }

  lemma SubscribeKeepsForest(queues: seq<Queue>, p: nat)
    requires Forest(queues) && p < |queues|
    ensures Forest(queues[p := queues[p].(subs := queues[p].subs + [|queues|])]
                   + [NewQueueOf(Some(p), |queues[p].settled|)])
  {
    var n := |queues|;
    hide Count;
    var after := queues[p := queues[p].(subs := queues[p].subs + [n])] + [NewQueueOf(Some(p), |queues[p].settled|)];
    forall r: nat, q: nat | r < |after| && q < |after|
      ensures Count(after[r].subs, Is(q)) == if after[q].parent == Some(r) then 1 else 0
    {
      CountSnoc<nat>(queues[p].subs, n, Is(q));
      if r < n && q == n {
        CountPositive(queues[r].subs, Is(n));
      }
    }
  }

  lemma NewQueueKeepsForest(queues: seq<Queue>)
    requires Forest(queues)
    ensures Forest(queues + [NewQueueOf(None, 0)])
  {
    var n := |queues|;
    forall r: nat | r < n
      ensures Count(queues[r].subs, Is(n)) == 0
    {
      CountPositive(queues[r].subs, Is(n));
    }
  }

  lemma FlushKeepsShape(s: State, q: nat, qu: Queue)
    requires Shaped(s) && q < |s.queues| && SameWiring(s.queues[q], qu)
    requires qu.buf == s.queues[q].buf && qu.put == s.queues[q].put && qu.got == s.queues[q].got
    ensures Shaped(s.(queues := s.queues[q := qu]))
  {
    SwapKeepsForest(s.queues, q, qu);
    assert QueueOk(s.queues[q]);
  }

  lemma MoreQueuesKeepShape(s: State, s': State)
    requires Shaped(s) && Forest(s'.queues) && s'.clients == s.clients && |s'.queues| == |s.queues| + 1
    requires forall q :: 0 <= q < |s.queues| ==>
      s'.queues[q].buf == s.queues[q].buf && s'.queues[q].put == s.queues[q].put && s'.queues[q].got == s.queues[q].got
    requires QueueOk(s'.queues[|s.queues|])
    ensures Shaped(s')
  {
    forall q | 0 <= q < |s'.queues| ensures QueueOk(s'.queues[q]) {
      assert q < |s.queues| ==> QueueOk(s.queues[q]);
    }
    forall i | 0 <= i < |s'.clients| ensures ClientOk(s'.clients[i], |s'.queues|) {
      assert ClientOk(s.clients[i], |s.queues|);
    }
  }

  /** FIFO order, the capacity bound and the subscription forest hold for ever:
      what was received, then what is buffered, is what was put, in order. */
  lemma StepKeepsShape(s: State, a: Act)
    requires Shaped(s) && Enabled(s, a)
    ensures Shaped(Next(s, a))
  {
    hide Forest;
    match a
    case NewQueue =>
      NewQueueKeepsForest(s.queues);
      MoreQueuesKeepShape(s, Next(s, a));
    case Subscribe(p) =>
      SubscribeKeepsForest(s.queues, p);
      MoreQueuesKeepShape(s, Next(s, a));
    case NewClient =>
    case Cancel =>
    case Call(i, q, m) => BothKeepsShape(s, q, i, CallStep(s.queues[q], s.clients[i], q, m));
    case Proceed(i) => MicroKeepsShape(s, i);
    case Drop(i) =>
      var c := s.clients[i];
      RestOk(c.io.msg, c.io.todo[1..], c.log + [Lost(c.io.todo[0], c.io.msg)], |s.queues|);
      BothKeepsShape(s, Target(c.io), i, DropStep(s.queues[Target(c.io)], c));
    case Take(i, q) => BothKeepsShape(s, q, i, TakeStep(s.queues[q], s.clients[i], q));
    case FlushIn(q) => FlushKeepsShape(s, q, Next(s, a).queues[q]);
    case FlushOut(q) => FlushKeepsShape(s, q, Next(s, a).queues[q]);
  }
}
