/** What becomes of a message, from start to end, in closed form. */
module Outcomes {
  import opened Sequences
  import opened Messages
  import opened Pipeline
  import opened PipelineLaws
  import opened Services

  function Tries(svc: Service): nat { if svc.Notification? then 2 else 3 }

  function Errors(n: nat): (es: seq<Effect>)
    ensures |es| == n && forall k :: 0 <= k < n ==> es[k] == CountError
  {
    if n == 0 then [] else [CountError] + Errors(n - 1)
  }

  /** The letter that goroutine i puts on queue q: its own message id, and around
      the message that failed the reason and the attempts made. */
  function LetterTo(q: nat, i: nat, reason: Reason, attempts: nat, raw: Message): Effect {
    SendTo(q, Message(Some(i), true, false, false, Some(Envelope(reason, attempts, raw))))
  }

  /** How a goroutine ends and what it does on the way, from its message and the
      first attempt that succeeds. */
  ghost predicate OutcomeRule(i: nat, svc: Service, raw: Message, first: nat, last: Job, es: seq<Effect>) {
    if !raw.wellFormed then
      last.pc == Done(Malformed) && es == [CountError]
    else if svc.Payment? && raw.poisoned then
      last.pc == Done(DeadLettered) && es == [LetterTo(2, i, SchemaInvalid, 1, raw), CountError]
    else if svc.Fulfillment? && raw.declined then
      last.pc == Done(Declined) && es == [CountSuccess]
    else if first <= Tries(svc) then
      && last.pc == Done(Succeeded) && first >= 1
      && es == Errors(first - 1)
         + (if svc.Payment? then [SendTo(1, Message(Some(i), true, false, false, None))] else []) + [CountSuccess]
    else if svc.Fulfillment? then
      last.pc == Done(Discarded) && es == Errors(3)
    else
      && last.pc == Done(DeadLettered)
      && es == Errors(Tries(svc))
         + [LetterTo(if svc.Payment? then 2 else 4, i, ProcessingError, Tries(svc), raw)]
  }

  /** One step and the rest. */
  lemma Onward(i: nat, w: Job, fortune: Fortune)
    requires JobOk(w) && !w.pc.Done?
    ensures var (next, e) := JobStep(i, w, fortune(w.pc));
      && JobOk(next)
      && RunJob(i, w, fortune) == (RunJob(i, next, fortune).0,
                                   (if e.Quiet? then [] else [e]) + RunJob(i, next, fortune).1)
  {
    JobStepOk(i, w, fortune(w.pc));
  }

  lemma Ended(i: nat, w: Job, fortune: Fortune)
    requires JobOk(w) && w.pc.Done?
    ensures RunJob(i, w, fortune) == (w, [])
  {
  }

  /** What is done after the last attempt that fails, or at the one that succeeds. */
  ghost function Ending(i: nat, w: Job, first: nat): seq<Effect> {
    if first <= Tries(w.svc)
    then (if w.svc.Payment? then [SendTo(1, Message(Some(i), true, false, false, None))] else []) + [CountSuccess]
    else if w.svc.Fulfillment? then []
    else [LetterTo(if w.svc.Payment? then 2 else 4, i, ProcessingError, Tries(w.svc), w.taken)]
  }

  lemma Succeeds(i: nat, w: Job, n: nat, fortune: Fortune)
    requires JobOk(w) && w.pc == Asleep(n) && Undisturbed(fortune) && !fortune(Asleep(n)).failed
    ensures RunJob(i, w, fortune).1 == Ending(i, w, n)
  {
    var w1 := w.(pc := if w.svc.Payment? then Approving else Succeeding(false));
    Onward(i, w, fortune);
    Onward(i, w1, fortune);
    Ended(i, w1.(pc := Done(Succeeded), oks := w.oks + 1), fortune);
    hide RunJob, JobOk;
  }

  lemma Fails(i: nat, w: Job, n: nat, fortune: Fortune)
    requires JobOk(w) && w.pc == Asleep(n) && Undisturbed(fortune) && fortune(Asleep(n)).failed
    requires n < Tries(w.svc)
    ensures var next := w.(pc := Asleep(n + 1), errs := w.errs + 1);
      JobOk(next) && RunJob(i, w, fortune).1 == [CountError] + RunJob(i, next, fortune).1
  {
    Onward(i, w, fortune);
    Onward(i, w.(pc := Failing(n)), fortune);
    Onward(i, w.(pc := BackingOff(n), errs := w.errs + 1), fortune);
    hide RunJob;
  }

  lemma Exhausted(i: nat, w: Job, n: nat, fortune: Fortune)
    requires JobOk(w) && w.pc == Asleep(n) && Undisturbed(fortune) && fortune(Asleep(n)).failed
    requires n == Tries(w.svc)
    ensures RunJob(i, w, fortune).1 == [CountError] + Ending(i, w, n + 1)
  {
    var tired := w.(pc := GivingUp(n), errs := n);
    Onward(i, w, fortune);
    Onward(i, w.(pc := Failing(n)), fortune);
    if w.svc.Fulfillment? {
      Ended(i, w.(pc := Done(Discarded), errs := n), fortune);
    } else {
      Onward(i, tired, fortune);
      Onward(i, tired.(pc := Burying), fortune);
      Ended(i, tired.(pc := Done(DeadLettered)), fortune);
    }
    hide RunJob;
  }

  lemma {:induction false} RetryEffects(i: nat, w: Job, n: nat, fortune: Fortune)
    requires JobOk(w) && w.pc == Asleep(n) && Undisturbed(fortune) && n <= Tries(w.svc)
    ensures var first := FirstSuccess(n, Tries(w.svc), fortune);
      RunJob(i, w, fortune).1 == Errors(first - n) + Ending(i, w, first)
    decreases Tries(w.svc) - n
  {
    hide RunJob, JobOk, Ending;
    var first := FirstSuccess(n, Tries(w.svc), fortune);
    if !fortune(Asleep(n)).failed {
      Succeeds(i, w, n, fortune);
      assert [] + Ending(i, w, n) == Ending(i, w, n);
    } else if n < Tries(w.svc) {
      Fails(i, w, n, fortune);
      var next := w.(pc := Asleep(n + 1), errs := w.errs + 1);
      RetryEffects(i, next, n + 1, fortune);
      SameEnding(i, w, next, first);
      assert [CountError] + (Errors(first - n - 1) + Ending(i, w, first))
          == ([CountError] + Errors(first - n - 1)) + Ending(i, w, first);
    } else {
      Exhausted(i, w, n, fortune);
      assert Errors(1) == [CountError];
    }
  }

  lemma SameEnding(i: nat, w: Job, w': Job, first: nat)
    requires w'.svc == w.svc && w'.taken == w.taken
    ensures Ending(i, w, first) == Ending(i, w', first)
  {
  }

  lemma TriesAreAttempts(svc: Service)
    requires !svc.Order?
    ensures Tries(svc) == MaxAttempts(svc) && (Discards(svc) <==> svc.Fulfillment?)
  {
  }

  /** Undisturbed, every message of every consumer ends as the rule says: one count
      for each attempt, and at most one send, whose letter tells what happened. */
  lemma JobOutcome(i: nat, svc: Service, raw: Message, fortune: Fortune)
    requires !svc.Order? && Undisturbed(fortune)
    ensures var first := FirstSuccess(1, Tries(svc), fortune);
      var (last, es) := RunJob(i, Fresh(svc, raw), fortune);
      OutcomeRule(i, svc, raw, first, last, es)
  {
    var w := Fresh(svc, raw);
    Onward(i, w, fortune);
    TriesAreAttempts(svc);
    if !raw.wellFormed {
      Onward(i, w.(pc := Rejecting), fortune);
      Ended(i, w.(pc := Done(Malformed), errs := 1), fortune);
    } else if svc.Payment? && raw.poisoned {
      Onward(i, w.(pc := Poisoning), fortune);
      Ended(i, w.(pc := Done(DeadLettered), errs := 1), fortune);
    } else if svc.Fulfillment? && raw.declined {
      Onward(i, w.(pc := Succeeding(true)), fortune);
      Ended(i, w.(pc := Done(Declined), oks := 1), fortune);
    } else {
      RetryEffects(i, w.(pc := Asleep(1)), 1, fortune);
      RetryOutcome(i, w.(pc := Asleep(1)), 1, fortune);
    }
    hide RunJob, FirstSuccess, JobOk;
  }
}
