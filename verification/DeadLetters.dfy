/** The dead-letter queues, which nothing ever reads: they fill up, and once one
    is full whatever is bound for it hangs. */
module DeadLetters {
  import opened Sequences
  import opened Broker
  import opened BrokerRuns
  import opened Pipeline
  import opened PipelineLaws
  import opened Accounts
  import opened PipelineRuns

  predicate IsDlq(q: nat) { q == PAYMENT_DLQ || q == NOTIFICATION_DLQ }

  lemma {:induction false} ExecTakesNoDeadLetter(moves: seq<Move>, q: nat)
    requires Exec(moves).Some? && IsDlq(q)
    ensures |Exec(moves).value.broker.queues| == 5 && Exec(moves).value.broker.queues[q].got == []
  {
    if moves == [] {
    } else {
      var init, m := moves[..|moves| - 1], moves[|moves| - 1];
      ExecIsOk(init);
      ExecTakesNoDeadLetter(init, q);
      GotOnlyByTake(Exec(init).value, m, q);
    }
  }

  /** In every reachable state a dead-letter queue still holds, in order, all that
      was ever put on it; so no more than a buffer's worth ever arrives. */
  lemma DlqHoldsAll(s: System, q: nat)
    requires Reached(s) && IsDlq(q)
    ensures |s.broker.queues| == 5
    ensures var dlq := s.broker.queues[q];
      dlq.got == [] && dlq.buf == dlq.put && |dlq.put| <= 1000
  {
    var moves :| Exec(moves) == Some(s);
    ExecTakesNoDeadLetter(moves, q);
    ReachedIsOk(s);
    Fifo(s.broker, q);
  }

  // ------------------------------------------------------------- hanging

  /** Whether goroutine i is in front of its put on q. */
  predicate BeforePut(b: State, i: nat, q: nat) {
    && i < |b.clients| && b.clients[i].io.Sending? && b.clients[i].io.phase.ToPut?
    && b.clients[i].io.todo != [] && b.clients[i].io.todo[0] == q
  }

  /** Goroutine i waits to put on q, which is full, and nothing is cancelled. */
  predicate Hangs(b: State, i: nat, q: nat) {
    !b.cancelled && q < |b.queues| && |b.queues[q].buf| >= BUFFER_SIZE && BeforePut(b, i, q)
  }

  /** Uncancelled, a goroutine in front of its put on a dead-letter queue hangs
      exactly when a buffer's worth of letters was ever put there; before that it
      can go on. */
  lemma HangsIffFull(s: System, i: nat, q: nat)
    requires Reached(s) && !s.broker.cancelled && IsDlq(q) && BeforePut(s.broker, i, q)
    ensures |s.broker.queues| == 5
    ensures Hangs(s.broker, i, q) <==> |s.broker.queues[q].put| == 1000
    ensures Possible(s, Io(i)) <==> |s.broker.queues[q].put| < 1000
  {
    DlqHoldsAll(s, q);
    ReachedIsOk(s);
    OnlyFullBufferBlocks(s.broker, i);
  }

  /** Nobody takes from q, so nobody can help. */
  lemma FullStays(b: State, a: Act, i: nat, q: nat)
    requires Hangs(b, i, q) && Enabled(b, a) && a != Act.Cancel && !(a.Take? && a.q == q)
    ensures Hangs(Broker.Next(b, a), i, q) && Broker.Next(b, a).clients[i] == b.clients[i]
  {
  }

  lemma SentStays(b: State, j: nat, e: Effect, i: nat, q: nat)
    requires Hangs(b, i, q) && (e.SendTo? ==> Enabled(b, Call(j, e.q, e.msg)))
    ensures Hangs(Sent(b, j, e), i, q) && Sent(b, j, e).clients[i] == b.clients[i]
  {
    if e.SendTo? {
      FullStays(b, Call(j, e.q, e.msg), i, q);
    }
  }

  /** A goroutine inside a queue operation does nothing else. */
  lemma BusyThreadStays(s: System, m: Move, i: nat)
    requires SystemOk(s) && Possible(s, m) && i < |s.threads| && s.broker.clients[i].io != Free
    ensures i < |Pipeline.Next(s, m).threads| && Pipeline.Next(s, m).threads[i] == s.threads[i]
  {
    hide Reachable, Wired, ThreadOk, JobStep, OrderStep, Broker.Next, Sent;
    if m.Work? {
      WorkShape(s, m.i, m.draw);
    } else if m.OrderTick? {
      OrderResult(s, m.i, m.fails, m.msg);
    } else if m.FlushMeter? {
      FlushShape(s, m.svc);
    }
  }

  /** While nothing is cancelled no move of anyone frees a goroutine that hangs on
      a dead-letter queue. */
  lemma MoveLeavesHanging(s: System, m: Move, i: nat, q: nat)
    requires SystemOk(s) && IsDlq(q) && Hangs(s.broker, i, q) && Possible(s, m) && m != Move.Cancel
    ensures Hangs(Pipeline.Next(s, m).broker, i, q)
  {
    hide Reachable, ThreadOk, Hangs, JobStep, OrderStep, Broker.Next;
    match m
    case Io(j) => FullStays(s.broker, Proceed(j), i, q);
    case Lose(j) => FullStays(s.broker, Drop(j), i, q);
    case Work(j, d) =>
      LetterRoots(j, s.threads[j].job, d);
      WorkShape(s, j, d);
      SentStays(s.broker, j, JobStep(j, s.threads[j].job, d).1, i, q);
    case Tick(j, crash) => FullStays(s.broker, NewClient, i, q);
    case Take(j) => FullStays(s.broker, Act.Take(j, InQueue(s.threads[j].tsvc)), i, q);
    case OrderTick(j, fails, msg) =>
      OrderResult(s, j, fails, msg);
      SentStays(s.broker, j, OrderEffect(s.threads[j], fails, msg), i, q);
    case Arrive => FullStays(s.broker, NewClient, i, q);
    case Produce(j, r, msg) => FullStays(s.broker, Call(j, r, msg), i, q);
    case FlushIn(r) => FullStays(s.broker, Act.FlushIn(r), i, q);
    case FlushOut(r) => FullStays(s.broker, Act.FlushOut(r), i, q);
    case FlushMeter(svc) => FlushShape(s, svc);
    case Restart =>
  }

  lemma HangsBusy(b: State, i: nat, q: nat)
    requires Hangs(b, i, q)
    ensures i < |b.clients| && b.clients[i].io != Free
  {
  }

  /** A goroutine bound for a full dead-letter queue never ends: through every
      continuation without cancellation it stays where it is, its message neither
      stored nor counted further, and the queue stays full. */
  lemma {:induction false} HangsForGood(moves: seq<Move>, more: seq<Move>, i: nat, q: nat)
    requires Exec(moves).Some? && Exec(moves + more).Some? && IsDlq(q)
    requires Hangs(Exec(moves).value.broker, i, q) && Move.Cancel !in more
    ensures Hangs(Exec(moves + more).value.broker, i, q)
    ensures i < |Exec(moves).value.threads| && i < |Exec(moves + more).value.threads|
    ensures Exec(moves + more).value.threads[i] == Exec(moves).value.threads[i]
  {
    ExecIsOk(moves);
    HangsBusy(Exec(moves).value.broker, i, q);
    if more == [] {
      assert moves + more == moves;
    } else {
      hide Possible, Pipeline.Next, Exec, Hangs;
      var init, m := more[..|more| - 1], more[|more| - 1];
      LastOfMore(moves, more);
      HangsForGood(moves, init, i, q);
      ExecIsOk(moves + init);
      var s := Exec(moves + init).value;
      HangsBusy(s.broker, i, q);
      BusyThreadStays(s, m, i);
      MoveLeavesHanging(s, m, i, q);
    }
  }
}
