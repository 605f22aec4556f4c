/** Send, TryReceive and the metrics flush in the program's own sequential form,
    run by one goroutine while the others stand still. */
module Delivery {
  import opened Sequences
  import opened Messages
  import opened Broker
  import opened BrokerRuns

  // ---------------------------------------------------------------- effort

  /** Who subscribes to whom; subscriptions are younger than their parents. */
  type Wiring = seq<seq<nat>>

  ghost predicate Falls(w: Wiring) {
    forall p, k :: 0 <= p < |w| && 0 <= k < |w[p]| ==> p < w[p][k] < |w|
  }

  ghost predicate WiredAs(queues: seq<Queue>, w: Wiring) {
    |queues| == |w| && forall p :: 0 <= p < |w| ==> queues[p].subs == w[p]
  }

  ghost predicate Within(todo: seq<nat>, n: nat) { forall k :: 0 <= k < |todo| ==> todo[k] < n }

  /** Number of sends that a send on q comes to, itself included. */
  ghost function Size(w: Wiring, q: nat): nat
    requires Falls(w) && q < |w|
    decreases |w| - q, 1, 0
  {
    1 + Sizes(w, w[q], q)
  }

  ghost function Sizes(w: Wiring, qs: seq<nat>, above: nat): nat
    requires Falls(w) && above < |w| && forall k :: 0 <= k < |qs| ==> above < qs[k] < |w|
    decreases |w| - above, 0, |qs|
  {
    if qs == [] then 0 else Size(w, qs[0]) + Sizes(w, qs[1..], above)
  }

  ghost function Effort(w: Wiring, todo: seq<nat>): nat
    requires Falls(w) && Within(todo, |w|)
  {
    if todo == [] then 0 else Size(w, todo[0]) + Effort(w, todo[1..])
  }

  lemma {:induction false} SizesAreEffort(w: Wiring, qs: seq<nat>, above: nat)
    requires Falls(w) && above < |w| && forall k :: 0 <= k < |qs| ==> above < qs[k] < |w|
    ensures Sizes(w, qs, above) == Effort(w, qs)
  {
    if qs == [] {
    } else {
      SizesAreEffort(w, qs[1..], above);
    }
  }

  lemma {:induction false} EffortConcat(w: Wiring, a: seq<nat>, b: seq<nat>)
    requires Falls(w) && Within(a, |w|) && Within(b, |w|)
    ensures Within(a + b, |w|) && Effort(w, a + b) == Effort(w, a) + Effort(w, b)
  {
    if a == [] {
      assert a + b == b;
    } else {
      assert (a + b)[1..] == a[1..] + b;
      EffortConcat(w, a[1..], b);
    }
  }

  /** Replacing a queue by its subscriptions leaves less to do. */
  lemma LessEffort(w: Wiring, todo: seq<nat>)
    requires Falls(w) && Within(todo, |w|) && todo != []
    ensures Within(w[todo[0]] + todo[1..], |w|)
    ensures Effort(w, w[todo[0]] + todo[1..]) == Effort(w, todo) - 1
    ensures Effort(w, todo[1..]) < Effort(w, todo)
  {
    SizesAreEffort(w, w[todo[0]], todo[0]);
    EffortConcat(w, w[todo[0]], todo[1..]);
  }

  // -------------------------------------------------------------- delivery

  /** How the selects go: whether the cancelled branch is taken on a queue that
      also has room. */
  type Whim = nat -> bool

  predicate GivesUp(qu: Queue, q: nat, cancelled: bool, whim: Whim) {
    cancelled && (|qu.buf| >= BUFFER_SIZE || whim(q))
  }
  predicate Stuck(qu: Queue, cancelled: bool) { |qu.buf| >= BUFFER_SIZE && !cancelled }

  /** A queue after a whole undisturbed send on it. */
  function Filled(qu: Queue, m: Message): Queue {
    qu.(buf := qu.buf + [m], put := qu.put + [m], depth := qu.depth + 1, enqueued := qu.enqueued + 1,
        settled := qu.settled + [m])
  }

  /** Works off the stack of sends until it is empty or a send blocks: the queues
      then, and what is left. */
  ghost function Deliver(queues: seq<Queue>, w: Wiring, todo: seq<nat>, m: Message, cancelled: bool,
      whim: Whim): (r: (seq<Queue>, seq<nat>))
    requires Falls(w) && WiredAs(queues, w) && Within(todo, |w|)
    ensures WiredAs(r.0, w) && Within(r.1, |w|)
    decreases Effort(w, todo)
  {
    if todo == [] then (queues, [])
    else
      LessEffort(w, todo);
      var q := todo[0];
      var qu := queues[q];
      if GivesUp(qu, q, cancelled, whim)
      then Deliver(queues[q := qu.(dropped := qu.dropped + [m])], w, todo[1..], m, cancelled, whim)
      else if Stuck(qu, cancelled) then (queues, todo)
      else Deliver(queues[q := Filled(qu, m)], w, w[q] + todo[1..], m, cancelled, whim)
  }

  /** Sends in a row: the second starts when the first is done. */
  lemma {:induction false} DeliverConcat(queues: seq<Queue>, w: Wiring, a: seq<nat>, b: seq<nat>, m: Message,
      cancelled: bool, whim: Whim)
    requires Falls(w) && WiredAs(queues, w) && Within(a, |w|) && Within(b, |w|)
    ensures Within(a + b, |w|)
    ensures var (q1, left) := Deliver(queues, w, a, m, cancelled, whim);
      Deliver(queues, w, a + b, m, cancelled, whim) ==
      if left == [] then Deliver(q1, w, b, m, cancelled, whim) else (q1, left + b)
    decreases Effort(w, a)
  {
    hide GivesUp, Stuck, Size, Effort;
    if a == [] {
      assert a + b == b;
    } else {
      LessEffort(w, a);
      var q := a[0];
      var qu := queues[q];
      assert (a + b)[0] == q && (a + b)[1..] == a[1..] + b;
      if GivesUp(qu, q, cancelled, whim) {
        DeliverConcat(queues[q := qu.(dropped := qu.dropped + [m])], w, a[1..], b, m, cancelled, whim);
      } else if !Stuck(qu, cancelled) {
        assert w[q] + (a[1..] + b) == (w[q] + a[1..]) + b;
        DeliverConcat(queues[q := Filled(qu, m)], w, w[q] + a[1..], b, m, cancelled, whim);
      }
    }
  }

  /** How often a send that starts with this stack comes by queue x. */
  ghost function Visits(w: Wiring, todo: seq<nat>, x: nat): nat
    requires Falls(w) && Within(todo, |w|)
    decreases Effort(w, todo)
  {
    if todo == [] then 0
    else
      LessEffort(w, todo);
      (if todo[0] == x then 1 else 0) + Visits(w, w[todo[0]] + todo[1..], x)
  }

  /** Uncancelled and unblocked, a send leaves one copy on every queue it comes
      by, at the end and in order, and takes nothing away. */
  lemma {:induction false} EveryVisitOneCopy(queues: seq<Queue>, w: Wiring, todo: seq<nat>, m: Message, whim: Whim,
      x: nat)
    requires Falls(w) && WiredAs(queues, w) && Within(todo, |w|) && x < |w|
    requires Deliver(queues, w, todo, m, false, whim).1 == []
    ensures var qu, after := queues[x], Deliver(queues, w, todo, m, false, whim).0[x];
      && qu.put <= after.put && |after.put| == |qu.put| + Visits(w, todo, x)
      && (forall k :: |qu.put| <= k < |after.put| ==> after.put[k] == m)
      && after.got == qu.got && after.dropped == qu.dropped
    decreases Effort(w, todo)
  {
    if todo == [] {
    } else {
      LessEffort(w, todo);
      EveryVisitOneCopy(queues[todo[0] := Filled(queues[todo[0]], m)], w, w[todo[0]] + todo[1..], m, whim, x);
    }
  }

  // ---------------------------------------------- the same, as steps of a run

  /** The state s but for one queue and one goroutine. */
  function At(s: State, q: nat, qu: Queue, i: nat, c: Client): State
    requires q < |s.queues| && i < |s.clients|
  {
    s.(queues := s.queues[q := qu], clients := s.clients[i := c])
  }

  lemma AtStep(s: State, q: nat, qu: Queue, i: nat, c: Client)
    requires q < |s.queues| && i < |s.clients| && Reachable(At(s, q, qu, i, c))
    requires AtQueue(c.io, q) && (c.io.Sending? ==> !c.io.phase.ToPut?)
    ensures Reachable(At(s, q, Micro(qu, c).0, i, Micro(qu, c).1))
  {
    var s1, r := At(s, q, qu, i, c), Micro(qu, c);
    ReachableStep(s1, Proceed(i));
    assert Target(c.io) == q;
    hide Micro, Reachable;
    assert s1.queues[q := r.0] == s.queues[q := r.0] && s1.clients[i := r.1] == s.clients[i := r.1];
  }

  /** Goroutine i alone takes the four steps of a send on one queue. */
  lemma OneSend(s: State, i: nat, m: Message, todo: seq<nat>)
    requires Reachable(s) && i < |s.clients| && s.clients[i].io == Sending(m, todo, ToPut) && todo != []
    requires todo[0] < |s.queues| && |s.queues[todo[0]].buf| < BUFFER_SIZE
    ensures var q := todo[0];
      var qu := s.queues[q];
      Reachable(At(s, q, Filled(qu, m), i, Client(Rest(m, qu.subs + todo[1..]), s.clients[i].log + [Stored(q, m)])))
  {
    var q := todo[0];
    var qu := s.queues[q];
    var log := s.clients[i].log + [Stored(q, m)];
    var qu1 := qu.(buf := qu.buf + [m], put := qu.put + [m]);
    ReachableStep(s, Proceed(i));
    assert Next(s, Proceed(i)) == At(s, q, qu1, i, Client(Sending(m, todo, ToAddDepth), log));
    hide Reachable, At, Next, Enabled;
    AtStep(s, q, qu1, i, Client(Sending(m, todo, ToAddDepth), log));
    var qu2 := qu1.(depth := qu.depth + 1);
    AtStep(s, q, qu2, i, Client(Sending(m, todo, ToAddEnqueued), log));
    var qu3 := qu2.(enqueued := qu.enqueued + 1);
    AtStep(s, q, qu3, i, Client(Sending(m, todo, ToSnapshot), log));
  }

  lemma OneDrop(s: State, i: nat, m: Message, todo: seq<nat>)
    requires Reachable(s) && i < |s.clients| && s.clients[i].io == Sending(m, todo, ToPut) && todo != []
    requires todo[0] < |s.queues| && s.cancelled
    ensures var q := todo[0];
      var qu := s.queues[q];
      Reachable(At(s, q, qu.(dropped := qu.dropped + [m]), i,
          Client(Rest(m, todo[1..]), s.clients[i].log + [Lost(q, m)])))
  {
    ReachableStep(s, Drop(i));
  }

  /** Working off the stack is a legal run of the goroutine's own steps: from any
      reachable state it reaches these queues, with what is left still to do. */
  lemma {:induction false} DeliverIsRun(s: State, w: Wiring, i: nat, m: Message, todo: seq<nat>, whim: Whim)
      returns (s': State)
    requires Reachable(s) && Falls(w) && WiredAs(s.queues, w) && Within(todo, |w|)
    requires i < |s.clients| && s.clients[i].io == Rest(m, todo)
    ensures Reachable(s') && s'.cancelled == s.cancelled
    ensures var (queues, left) := Deliver(s.queues, w, todo, m, s.cancelled, whim);
      && s'.queues == queues
      && |s'.clients| == |s.clients| && s'.clients[i].io == Rest(m, left)
      && forall j :: 0 <= j < |s.clients| && j != i ==> s'.clients[j] == s.clients[j]
    decreases Effort(w, todo)
  {
    hide Reachable, Effort;
    s' := s;
    if todo == [] {
    } else {
      LessEffort(w, todo);
      var q := todo[0];
      var qu := s.queues[q];
      var log := s.clients[i].log;
      if GivesUp(qu, q, s.cancelled, whim) {
        OneDrop(s, i, m, todo);
        var next := At(s, q, qu.(dropped := qu.dropped + [m]), i, Client(Rest(m, todo[1..]), log + [Lost(q, m)]));
        s' := DeliverIsRun(next, w, i, m, todo[1..], whim);
      } else if !Stuck(qu, s.cancelled) {
        OneSend(s, i, m, todo);
        var next := At(s, q, Filled(qu, m), i, Client(Rest(m, w[q] + todo[1..]), log + [Stored(q, m)]));
        s' := DeliverIsRun(next, w, i, m, w[q] + todo[1..], whim);
      }
    }
  }

  /** A queue after a whole receive. */
  function Emptied(qu: Queue): Queue
    requires qu.buf != []
  {
    qu.(buf := qu.buf[1..], got := qu.got + [qu.buf[0]], depth := qu.depth - 1, dequeued := qu.dequeued + 1)
  }

  /** A receive, too, is a run: the channel operation and the two atomic adds. */
  lemma ReceiveIsRun(s: State, i: nat, q: nat)
    requires Reachable(s) && i < |s.clients| && s.clients[i].io == Free && q < |s.queues| && s.queues[q].buf != []
    ensures Reachable(At(s, q, Emptied(s.queues[q]), i, s.clients[i]))
  {
    var qu, log := s.queues[q], s.clients[i].log;
    var qu1 := qu.(buf := qu.buf[1..], got := qu.got + [qu.buf[0]]);
    ReachableStep(s, Take(i, q));
    assert Next(s, Take(i, q)) == At(s, q, qu1, i, Client(ToSubDepth(q), log));
    hide Reachable, At, Next, Enabled;
    AtStep(s, q, qu1, i, Client(ToSubDepth(q), log));
    AtStep(s, q, qu1.(depth := qu.depth - 1), i, Client(ToAddDequeued(q), log));
  }

  // ---------------------------------------------------------------- object

  /** The queues of a program; subscribers are named by index. */
  class Fabric {
    var queues: seq<Queue>
    ghost var w: Wiring

    ghost predicate Valid()
      reads this
    {
      Falls(w) && WiredAs(queues, w)
    }

    constructor (queues: seq<Queue>, ghost w: Wiring)
      requires Falls(w) && WiredAs(queues, w)
      ensures Valid() && this.queues == queues && this.w == w
    {
      this.queues := queues;
      this.w := w;
    }

    /** Sends to q, then to each subscriber of q in turn, as recursive calls. False:
        some put in the recursion blocks for good, with nobody else to help. */
    method Send(q: nat, m: Message, cancelled: bool, whim: Whim) returns (finished: bool)
      requires Valid() && q < |queues|
      modifies `queues
      ensures Valid()
      ensures var r := Deliver(old(queues), w, [q], m, cancelled, whim);
        queues == r.0 && (finished <==> r.1 == [])
      decreases |w| - q
    {
      ghost var before := queues;
      if cancelled && (|queues[q].buf| >= BUFFER_SIZE || whim(q)) {
        queues := queues[q := queues[q].(dropped := queues[q].dropped + [m])];
        return true;
      }
      if |queues[q].buf| >= BUFFER_SIZE {
        return false;
      }
      Put(q, m);
      var subs := queues[q].subs;
      ghost var goal := Deliver(before, w, [q], m, cancelled, whim);
      assert subs + [q][1..] == subs;
      for k := 0 to |subs|
        invariant Valid() && |queues| == |before|
        invariant Deliver(queues, w, subs[k..], m, cancelled, whim) == goal
      {
        DeliverConcat(queues, w, [subs[k]], subs[k + 1..], m, cancelled, whim);
        assert subs[k..] == [subs[k]] + subs[k + 1..];
        finished := Send(subs[k], m, cancelled, whim);
        if !finished {
          return;
        }
      }
      finished := true;
    }

    /** The taken branch of the select, the two atomic adds, and the snapshot of
        the subscribers. */
    method Put(q: nat, m: Message)
      requires Valid() && q < |queues| && |queues[q].buf| < BUFFER_SIZE
      modifies `queues
      ensures Valid() && queues == old(queues)[q := Filled(old(queues)[q], m)]
    {
      var qu := queues[q];
      qu := qu.(buf := qu.buf + [m], put := qu.put + [m]);
      qu := qu.(depth := qu.depth + 1);
      qu := qu.(enqueued := qu.enqueued + 1);
      qu := qu.(settled := qu.settled + [m]);
      queues := queues[q := qu];
    }

    method TryReceive(q: nat) returns (m: Option<Message>)
      requires Valid() && q < |queues|
      modifies `queues
      ensures Valid()
      ensures m == if old(queues)[q].buf == [] then None else Some(old(queues)[q].buf[0])
      ensures queues == if m.None? then old(queues) else old(queues)[q := Emptied(old(queues)[q])]
    {
      var qu := queues[q];
      if |qu.buf| == 0 {
        return None;
      }
      m := Some(qu.buf[0]);
      qu := qu.(buf := qu.buf[1..], got := qu.got + [qu.buf[0]]);
      qu := qu.(depth := qu.depth - 1);
      qu := qu.(dequeued := qu.dequeued + 1);
      queues := queues[q := qu];
    }

    /** The blocking receive: it waits while the queue is empty, and gives up only
        when the context is cancelled with nothing left to drain. */
    method Receive(q: nat, cancelled: bool) returns (m: Option<Message>, waits: bool)
      requires Valid() && q < |queues|
      modifies `queues
      ensures Valid()
      ensures waits <==> old(queues)[q].buf == [] && !cancelled
      ensures m.None? <==> old(queues)[q].buf == []
      ensures queues == if m.None? then old(queues) else old(queues)[q := Emptied(old(queues)[q])]
      ensures m.Some? ==> m.value == old(queues)[q].buf[0]
    {
      m := TryReceive(q);
      waits := m.None? && !cancelled;
    }

    /** Swaps both counters out; what they held goes into the metric row. */
    method WriteMetrics(q: nat) returns (enqueued: int, dequeued: int, depth: int)
      requires Valid() && q < |queues|
      modifies `queues
      ensures Valid()
      ensures var qu := old(queues)[q];
        && (enqueued, dequeued, depth) == (qu.enqueued, qu.dequeued, qu.depth)
        && queues == old(queues)[q := qu.(flushedIn := qu.flushedIn + enqueued, enqueued := 0,
            flushedOut := qu.flushedOut + dequeued, dequeued := 0)]
    {
      var qu := queues[q];
      enqueued, qu := qu.enqueued, qu.(flushedIn := qu.flushedIn + qu.enqueued, enqueued := 0);
      dequeued, qu := qu.dequeued, qu.(flushedOut := qu.flushedOut + qu.dequeued, dequeued := 0);
      depth := qu.depth;
      queues := queues[q := qu];
    }

    /** A new queue that receives a copy of every later send to p. */
    method Subscribe(p: nat) returns (q: nat)
      requires Valid() && p < |queues|
      modifies this
      ensures Valid() && q == |old(queues)|
      ensures queues == old(queues)[p :=
          old(queues)[p].(subs := old(queues)[p].subs + [q])] + [NewQueueOf(Some(p), |old(queues)[p].settled|)]
      ensures w == old(w)[p := old(w)[p] + [q]] + [[]]
    {
      q := |queues|;
      var sub := NewQueueOf(Some(p), |queues[p].settled|);
      queues := queues[p := queues[p].(subs := queues[p].subs + [q])] + [sub];
      w := w[p := w[p] + [q]] + [[]];
    }
  }
}
