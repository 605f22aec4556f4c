/** How many messages one tick of a consumer takes. */
module Polls {
  import opened BrokerRuns
  import opened Pipeline
  import opened PipelineLaws
  import opened Accounts
  import opened PipelineRuns

  /** The most that a tick takes. */
  function Quota(svc: Service): nat { if svc.Payment? then 5 else 3 }

  predicate AtWork(t: Thread) { t.Ticker? && (t.tpc.Polling? || t.tpc.Holding?) }

  /** Messages that ticker i has taken in the tick it is in, 0 between ticks. */
  function TakenInTick(moves: seq<Move>, i: nat): nat {
    if moves == [] || Exec(moves).None? || i >= |Exec(moves).value.threads| || !AtWork(Exec(moves).value.threads[i])
    then 0
    else TakenInTick(moves[..|moves| - 1], i) + if moves[|moves| - 1] == Move.Take(i) then 1 else 0
  }

  /** A ticker's own tick. */
  lemma OwnTick(s: System, i: nat, shouldCrash: bool)
    requires Possible(s, Tick(i, shouldCrash)) && (s.threads[i].tpc.Deciding? ==> s.threads[i].tsvc.Payment?)
    ensures i < |Pipeline.Next(s, Tick(i, shouldCrash)).threads|
    ensures var t, t' := s.threads[i], Pipeline.Next(s, Tick(i, shouldCrash)).threads[i];
      && t'.Ticker? && t'.tsvc == t.tsvc
      && match t.tpc
         case Resting => AtWork(t') ==> t'.tpc == Polling(Quota(t.tsvc))
         case Deciding(_) => AtWork(t') ==> t'.tpc == Polling(Quota(t.tsvc))
         case Polling(_) => t'.tpc == Resting
         case Holding(left, _) => t'.tpc == Polling(left)
  {
    hide Broker.Next;
  }

  /** Only its own tick and take move a ticker. */
  lemma TickerStays(s: System, m: Move, i: nat)
    requires Possible(s, m) && i < |s.threads| && s.threads[i].Ticker?
    requires !(m.Tick? && m.i == i) && m != Move.Take(i)
    ensures i < |Pipeline.Next(s, m).threads| && Pipeline.Next(s, m).threads[i] == s.threads[i]
  {
    hide JobStep, OrderStep, Broker.Next, Sent;
    if m.Work? {
      WorkShape(s, m.i, m.draw);
    } else if m.OrderTick? {
      OrderResult(s, m.i, m.fails, m.msg);
    } else if m.FlushMeter? {
      FlushShape(s, m.svc);
    }
  }

  lemma OwnTake(s: System, i: nat)
    requires Possible(s, Move.Take(i))
    ensures i < |Pipeline.Next(s, Move.Take(i)).threads|
    ensures var t, t' := s.threads[i], Pipeline.Next(s, Move.Take(i)).threads[i];
      && t.tpc.Polling? && t.tpc.left > 0
      && t'.Ticker? && t'.tsvc == t.tsvc && t'.tpc.Holding? && t'.tpc.left == t.tpc.left - 1
  {
    hide Broker.Next;
  }

  /** What a ticker may still take, and what it has taken, are its quota. */
  ghost predicate QuotaKept(t: Thread, taken: nat) {
    t.Ticker? ==>
      match t.tpc
      case Polling(left) => taken + left == Quota(t.tsvc)
      case Holding(left, _) => taken + left == Quota(t.tsvc) && taken > 0
      case _ => taken == 0
  }

  lemma {:induction false} TicksKeepQuota(moves: seq<Move>, i: nat)
    requires Exec(moves).Some? && i < |Exec(moves).value.threads|
    ensures QuotaKept(Exec(moves).value.threads[i], TakenInTick(moves, i))
  {
    if moves == [] {
    } else {
      var init, m := moves[..|moves| - 1], moves[|moves| - 1];
      var s := Exec(init).value;
      ExecIsOk(init);
      if i < |s.threads| && s.threads[i].Ticker? {
        TicksKeepQuota(init, i);
        assert ThreadOk(i, s.threads[i], s.broker.clients[i]);
        hide SystemOk, BooksKept, Possible, Pipeline.Next, PollsFull;
        if m.Tick? && m.i == i {
          OwnTick(s, i, m.shouldCrash);
        } else if m == Move.Take(i) {
          OwnTake(s, i);
        } else {
          TickerStays(s, m, i);
        }
      } else {
        NoNewTicker(s, m, i);
      }
    }
  }

  lemma NoNewTicker(s: System, m: Move, i: nat)
    requires SystemOk(s) && Possible(s, m) && (i < |s.threads| ==> !s.threads[i].Ticker?)
    ensures i < |Pipeline.Next(s, m).threads| ==> !Pipeline.Next(s, m).threads[i].Ticker?
  {
    hide Reachable, Wired, ThreadOk, JobStep, Broker.Next, Sent;
    if m.Work? {
      WorkShape(s, m.i, m.draw);
    } else if m.OrderTick? {
      OrderResult(s, m.i, m.fails, m.msg);
    } else if m.FlushMeter? {
      FlushShape(s, m.svc);
    }
  }

  /** In every reachable state a payment tick has taken at most five messages, any
      other at most three; it only ends with the queue empty or its quota taken. */
  lemma TickTakes(moves: seq<Move>, i: nat, shouldCrash: bool)
    requires Exec(moves).Some? && i < |Exec(moves).value.threads| && Exec(moves).value.threads[i].Ticker?
    ensures var t := Exec(moves).value.threads[i];
      TakenInTick(moves, i) <= if t.tsvc.Payment? then 5 else 3
    ensures var s := Exec(moves).value;
      var t := s.threads[i];
      t.tpc.Polling? && Possible(s, Tick(i, shouldCrash)) && InQueue(t.tsvc) < |s.broker.queues| ==>
        TakenInTick(moves, i) == (if t.tsvc.Payment? then 5 else 3) || s.broker.queues[InQueue(t.tsvc)].buf == []
  {
    TicksKeepQuota(moves, i);
    hide Exec, TakenInTick;
  }
}
