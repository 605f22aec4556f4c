/** The services as objects: mutex-guarded counters, and the retry loop of a
    message goroutine in the program's own sequential form. */
module Services {
  import opened Sequences
  import opened Messages
  import opened Pipeline
  import opened PipelineLaws

  /** What the selects and the dice of one message goroutine come to, by the
      point it has reached. */
  type Fortune = Pc -> Draw

  // ------------------------------------------------------ the stepwise form

  function Recorded(es: seq<Effect>, e: Effect): seq<Effect> { if e.Quiet? then es else es + [e] }

  /** Steps a message goroutine to its end; its effects in order. */
  function RunJob(i: nat, w: Job, fortune: Fortune): (r: (Job, seq<Effect>))
    requires JobOk(w)
    ensures JobOk(r.0) && r.0.pc.Done? && r.0.svc == w.svc && r.0.taken == w.taken
    decreases Remaining(w)
  {
    if w.pc.Done? then (w, [])
    else
      JobStepOk(i, w, fortune(w.pc));
      JobsEnd(i, w, fortune(w.pc));
      var (w', e) := JobStep(i, w, fortune(w.pc));
      var (last, es) := RunJob(i, w', fortune);
      (last, (if e.Quiet? then [] else [e]) + es)
  }

  function Fresh(svc: Service, raw: Message): Job { Job(svc, raw, Ready, 0, 0) }

  // ------------------------------------------------------------ the outcome

  /** The first attempt from n on that does not fail; max + 1 if all do. */
  function FirstSuccess(n: nat, max: nat, fortune: Fortune): (r: nat)
    requires n <= max + 1
    ensures n <= r <= max + 1
    ensures r <= max ==> !fortune(Asleep(r)).failed
    ensures forall k :: n <= k < r ==> fortune(Asleep(k)).failed
    decreases max + 1 - n
  {
    if n > max then n
    else if !fortune(Asleep(n)).failed then n
    else FirstSuccess(n + 1, max, fortune)
  }

  /** The context is not cancelled while this goroutine runs. */
  ghost predicate Undisturbed(fortune: Fortune) {
    forall pc :: !fortune(pc).aborts
  }

  /** Retries in closed form: an undisturbed goroutine succeeds at its first
      attempt that does not fail, having counted one error for each before it; if
      all attempts fail it counts them all and dead-letters or discards. */
  lemma {:induction false} RetryOutcome(i: nat, w: Job, n: nat, fortune: Fortune)
    requires JobOk(w) && w.pc == Asleep(n) && Undisturbed(fortune)
    ensures var max := MaxAttempts(w.svc);
            var last, first := RunJob(i, w, fortune).0, FirstSuccess(n, max, fortune);
      && last.errs == first - 1
      && (first <= max ==> last.pc == Done(Succeeded))
      && (first > max ==> last.pc == Done(if Discards(w.svc) then Discarded else DeadLettered))
    decreases MaxAttempts(w.svc) + 1 - n
  {
    var max := MaxAttempts(w.svc);
    if !fortune(Asleep(n)).failed {
      AttemptSucceeds(i, w, n, fortune);
    } else if n < max {
      var next := w.(pc := Asleep(n + 1), errs := w.errs + 1);
      AttemptFails(i, w, n, fortune);
      RetryOutcome(i, next, n + 1, fortune);
    } else {
      LastFails(i, w, n, fortune);
    }
  }

  lemma RunOn(i: nat, w: Job, fortune: Fortune)
    requires JobOk(w) && !w.pc.Done?
    ensures JobOk(JobStep(i, w, fortune(w.pc)).0)
    ensures RunJob(i, w, fortune).0 == RunJob(i, JobStep(i, w, fortune(w.pc)).0, fortune).0
  {
    JobStepOk(i, w, fortune(w.pc));
  }

  lemma AttemptSucceeds(i: nat, w: Job, n: nat, fortune: Fortune)
    requires JobOk(w) && w.pc == Asleep(n) && Undisturbed(fortune) && !fortune(Asleep(n)).failed
    ensures RunJob(i, w, fortune).0 == w.(pc := Done(Succeeded), oks := 1)
  {
    var w1 := w.(pc := if w.svc.Payment? then Approving else Succeeding(false));
    RunOn(i, w, fortune);
    RunOn(i, w1, fortune);
  }

  lemma AttemptFails(i: nat, w: Job, n: nat, fortune: Fortune)
    requires JobOk(w) && w.pc == Asleep(n) && Undisturbed(fortune) && fortune(Asleep(n)).failed
        && n < MaxAttempts(w.svc)
    ensures JobOk(w.(pc := Asleep(n + 1), errs := w.errs + 1))
    ensures RunJob(i, w, fortune).0 == RunJob(i, w.(pc := Asleep(n + 1), errs := w.errs + 1), fortune).0
  {
    RunOn(i, w, fortune);
    RunOn(i, w.(pc := Failing(n)), fortune);
    RunOn(i, w.(pc := BackingOff(n), errs := w.errs + 1), fortune);
  }

  lemma LastFails(i: nat, w: Job, n: nat, fortune: Fortune)
    requires JobOk(w) && w.pc == Asleep(n) && Undisturbed(fortune) && fortune(Asleep(n)).failed
        && n == MaxAttempts(w.svc)
    ensures RunJob(i, w, fortune).0 == w.(pc := Done(if Discards(w.svc) then Discarded else DeadLettered), errs := n)
  {
    RunOn(i, w, fortune);
    RunOn(i, w.(pc := Failing(n)), fortune);
    if !Discards(w.svc) {
      RunOn(i, w.(pc := GivingUp(n), errs := n), fortune);
      RunOn(i, w.(pc := Burying, errs := n), fortune);
    }
  }

  // ---------------------------------------------------------------- object

  /** The counters after a goroutine's effects. */
  function Applied(m: Meter, es: seq<Effect>): Meter {
    if es == [] then m else Metered(Applied(m, es[..|es| - 1]), es[|es| - 1])
  }

  /** The sends among the effects. */
  function Sends(es: seq<Effect>): seq<(nat, Message)> {
    if es == [] then []
    else
      var e := es[|es| - 1];
      if e.SendTo? then Sends(es[..|es| - 1]) + [(e.q, e.msg)] else Sends(es[..|es| - 1])
  }

  /** The goroutine that started as `result` says has come to `at`, with `done`
      behind it. */
  ghost predicate OnTheWay(i: nat, at: Job, fortune: Fortune, done: seq<Effect>, result: (Job, seq<Effect>)) {
    JobOk(at) && result.0 == RunJob(i, at, fortune).0 && result.1 == done + RunJob(i, at, fortune).1
  }

  /** One more step on the way, with what it does to counters and sends. */
  lemma Along(i: nat, at: Job, fortune: Fortune, done: seq<Effect>, result: (Job, seq<Effect>), m: Meter)
    requires OnTheWay(i, at, fortune, done, result) && !at.pc.Done?
    ensures var (next, e) := JobStep(i, at, fortune(at.pc));
      && OnTheWay(i, next, fortune, Recorded(done, e), result)
      && Applied(m, Recorded(done, e)) == Metered(Applied(m, done), e)
      && Sends(Recorded(done, e)) == if e.SendTo? then Sends(done) + [(e.q, e.msg)] else Sends(done)
  {
    JobStepOk(i, at, fortune(at.pc));
    var (next, e) := JobStep(i, at, fortune(at.pc));
    var rest := RunJob(i, next, fortune).1;
    assert (done + [e]) + rest == done + ([e] + rest);
    assert [] + rest == rest;
    assert (done + [e])[..|done|] == done;
  }

  lemma Arrived(i: nat, at: Job, fortune: Fortune, done: seq<Effect>, result: (Job, seq<Effect>))
    requires OnTheWay(i, at, fortune, done, result) && at.pc.Done?
    ensures result == (at, done)
  {
    assert done + [] == done;
    assert result == (result.0, result.1);
  }

  lemma Begins(i: nat, w: Job, fortune: Fortune, m: Meter)
    requires JobOk(w)
    ensures OnTheWay(i, w, fortune, [], RunJob(i, w, fortune))
    ensures Applied(m, []) == m && Sends([]) == []
  {
    assert [] + RunJob(i, w, fortune).1 == RunJob(i, w, fortune).1;
  }

  class Consumer {
    const svc: Service
    var processed: nat
    var errors: nat
    var total: nat
    var rows: seq<Row>
    var outbox: seq<(nat, Message)>

    constructor (svc: Service)
      ensures this.svc == svc && Value() == Meter(0, 0, 0, []) && outbox == []
    {
      this.svc := svc;
      processed, errors, total := 0, 0, 0;
      rows := [];
      outbox := [];
    }

    function Value(): Meter
      reads this
    {
      Meter(processed, errors, total, rows)
    }

    method IncrError()
      modifies `errors, `total
      ensures Value() == Err(old(Value()))
    {
      errors := errors + 1;
      total := total + 1;
    }

    method CountProcessed()
      modifies `processed, `total
      ensures Value() == Succeed(old(Value()))
    {
      processed := processed + 1;
      total := total + 1;
    }

    method Send(q: nat, m: Message)
      modifies `outbox
      ensures outbox == old(outbox) + [(q, m)]
    {
      outbox := outbox + [(q, m)];
    }

    /** Takes the counters and resets them in one mutex section. */
    method WriteMetrics() returns (row: Row)
      modifies `processed, `errors, `total, `rows
      ensures Value() == Flush(old(Value())) && rows == old(rows) + [row]
    {
      row := Row(processed, errors, total);
      processed, errors, total := 0, 0, 0;
      rows := rows + [row];
    }

    /** Where the goroutine stands, and that counters and sends are as they were
        at its start plus what is behind it. */
    ghost predicate Follows(i: nat, at: Job, fortune: Fortune, done: seq<Effect>, result: (Job, seq<Effect>),
        m: Meter, sent: seq<(nat, Message)>)
      reads this
    {
      && at.svc == svc
      && OnTheWay(i, at, fortune, done, result)
      && Value() == Applied(m, done)
      && outbox == sent + Sends(done)
    }

    /** The body of the retry loop: one attempt. None: go on with the next. */
    method Attempt(i: nat, raw: Message, fortune: Fortune, attempt: nat,
                   ghost errs: nat, ghost done: seq<Effect>, ghost result: (Job, seq<Effect>), ghost m: Meter,
                       ghost sent: seq<(nat, Message)>)
      returns (outcome: Option<Outcome>, ghost done': seq<Effect>)
      requires Follows(i, Job(svc, raw, Asleep(attempt), errs, 0), fortune, done, result, m, sent)
      modifies this
      ensures outcome.Some? ==>
        Follows(i, result.0, fortune, result.1, result, m, sent) && result.0.pc == Done(outcome.value)
      ensures outcome.None? ==>
        attempt < MaxAttempts(svc) && Follows(i, Job(svc, raw, Asleep(attempt + 1), errs + 1, 0), fortune, done',
            result, m, sent)
    {
      hide RunJob, OnTheWay, Applied, Sends, JobOk;
      ghost var at := Job(svc, raw, Asleep(attempt), errs, 0);
      done' := done;
      var draw := fortune(Asleep(attempt));
      Along(i, at, fortune, done', result, m);
      if draw.aborts {
        at := at.(pc := Done(Abandoned));
        Arrived(i, at, fortune, done', result);
        return Some(Abandoned), done';
      }
      if !draw.failed {
        if svc.Payment? {
          Send(PAYMENT_QUEUE, Receipt(i));
          at, done' := at.(pc := Approving), done' + [SendTo(PAYMENT_QUEUE, Receipt(i))];
        } else {
          at := at.(pc := Succeeding(false));
        }
        CountAttempt(i, at, fortune, done', result, m, sent);
        return Some(Succeeded), done';
      }
      at := at.(pc := Failing(attempt));
      outcome, done' := AfterFailure(i, raw, fortune, attempt, errs, done', result, m, sent);
    }

    /** Counts the successful attempt and ends. */
    method CountAttempt(i: nat, ghost at: Job, fortune: Fortune,
                        ghost done: seq<Effect>, ghost result: (Job, seq<Effect>), ghost m: Meter,
                            ghost sent: seq<(nat, Message)>)
      requires Follows(i, at, fortune, done, result, m, sent) && (at.pc.Approving? || at.pc == Succeeding(false))
      modifies this
      ensures Follows(i, result.0, fortune, result.1, result, m, sent) && result.0.pc == Done(Succeeded)
    {
      hide RunJob, OnTheWay, Applied, Sends, JobOk;
      Along(i, at, fortune, done, result, m);
      CountProcessed();
      Arrived(i, at.(pc := Done(Succeeded), oks := at.oks + 1), fortune, done + [CountSuccess], result);
    }

    /** The failed attempt is counted; then back off, dead-letter or discard. */
    method AfterFailure(i: nat, raw: Message, fortune: Fortune, attempt: nat,
                        ghost errs: nat, ghost done: seq<Effect>, ghost result: (Job, seq<Effect>), ghost m: Meter,
                            ghost sent: seq<(nat, Message)>)
      returns (outcome: Option<Outcome>, ghost done': seq<Effect>)
      requires Follows(i, Job(svc, raw, Failing(attempt), errs, 0), fortune, done, result, m, sent)
      modifies this
      ensures outcome.Some? ==>
        Follows(i, result.0, fortune, result.1, result, m, sent) && result.0.pc == Done(outcome.value)
      ensures outcome.None? ==>
        attempt < MaxAttempts(svc) && Follows(i, Job(svc, raw, Asleep(attempt + 1), errs + 1, 0), fortune, done',
            result, m, sent)
    {
      hide RunJob, OnTheWay, Applied, Sends, JobOk;
      ghost var at := Job(svc, raw, Failing(attempt), errs, 0);
      Along(i, at, fortune, done, result, m);
      IncrError();
      done' := done + [CountError];
      if attempt < MaxAttempts(svc) {
        at := Job(svc, raw, BackingOff(attempt), errs + 1, 0);
        Along(i, at, fortune, done', result, m);
        if fortune(BackingOff(attempt)).aborts {
          Arrived(i, at.(pc := Done(Abandoned)), fortune, done', result);
          return Some(Abandoned), done';
        }
        return None, done';
      }
      if Discards(svc) {
        Arrived(i, Job(svc, raw, Done(Discarded), errs + 1, 0), fortune, done', result);
        return Some(Discarded), done';
      }
      GiveUp(i, raw, fortune, attempt, errs + 1, done', result, m, sent);
      outcome := Some(DeadLettered);
    }

    /** All retries exhausted: the message goes to the dead-letter queue. */
    method GiveUp(i: nat, raw: Message, fortune: Fortune, attempt: nat,
                  ghost errs: nat, ghost done: seq<Effect>, ghost result: (Job, seq<Effect>), ghost m: Meter,
                      ghost sent: seq<(nat, Message)>)
      requires Follows(i, Job(svc, raw, GivingUp(attempt), errs, 0), fortune, done, result, m, sent)
      modifies this
      ensures Follows(i, result.0, fortune, result.1, result, m, sent) && result.0.pc == Done(DeadLettered)
    {
      hide RunJob, OnTheWay, Applied, Sends, JobOk;
      ghost var at, letter := Job(svc, raw, GivingUp(attempt), errs, 0), DeadLetter(i, ProcessingError, attempt, raw);
      Along(i, at, fortune, done, result, m);
      Send(DeadLetterQueue(svc), DeadLetter(i, ProcessingError, attempt, raw));
      ghost var done' := done + [SendTo(DeadLetterQueue(svc), letter)];
      Along(i, at.(pc := Burying), fortune, done', result, m);
      Arrived(i, at.(pc := Done(DeadLettered)), fortune, done', result);
    }

    /** What is settled before the first attempt: malformed, poisoned and declined
        messages. None: go on to the attempts. */
    method Validate(i: nat, raw: Message, fortune: Fortune, ghost result: (Job, seq<Effect>), ghost m: Meter,
        ghost sent: seq<(nat, Message)>)
      returns (outcome: Option<Outcome>)
      requires Follows(i, Fresh(svc, raw), fortune, [], result, m, sent)
      modifies this
      ensures outcome.Some? ==>
        Follows(i, result.0, fortune, result.1, result, m, sent) && result.0.pc == Done(outcome.value)
      ensures outcome.None? ==> Follows(i, Job(svc, raw, Asleep(1), 0, 0), fortune, [], result, m, sent)
    {
      hide RunJob, OnTheWay, Applied, Sends, JobOk;
      ghost var at: Job, none: seq<Effect> := Fresh(svc, raw), [];
      Along(i, at, fortune, none, result, m);
      if !raw.wellFormed {
        Along(i, at.(pc := Rejecting), fortune, none, result, m);
        IncrError();
        Arrived(i, at.(pc := Done(Malformed), errs := 1), fortune, none + [CountError], result);
        return Some(Malformed);
      }
      if svc.Payment? && raw.poisoned {
        Poisoned(i, raw, fortune, result, m, sent);
        return Some(DeadLettered);
      }
      if svc.Fulfillment? && raw.declined {
        Along(i, at.(pc := Succeeding(true)), fortune, none, result, m);
        CountProcessed();
        Arrived(i, at.(pc := Done(Declined), oks := 1), fortune, none + [CountSuccess], result);
        return Some(Declined);
      }
      outcome := None;
    }

    /** A poisoned message goes to the dead-letter queue without retry. */
    method Poisoned(i: nat, raw: Message, fortune: Fortune, ghost result: (Job, seq<Effect>), ghost m: Meter,
        ghost sent: seq<(nat, Message)>)
      requires Follows(i, Fresh(svc, raw), fortune, [], result, m, sent) && svc.Payment? && raw.wellFormed
          && raw.poisoned
      modifies this
      ensures Follows(i, result.0, fortune, result.1, result, m, sent) && result.0.pc == Done(DeadLettered)
    {
      hide RunJob, OnTheWay, Applied, Sends, JobOk;
      ghost var at, letter := Fresh(svc, raw), DeadLetter(i, SchemaInvalid, 1, raw);
      ghost var none: seq<Effect> := [];
      Along(i, at, fortune, none, result, m);
      Send(PAYMENT_DLQ, DeadLetter(i, SchemaInvalid, 1, raw));
      Along(i, at.(pc := Poisoning), fortune, none + [SendTo(PAYMENT_DLQ, letter)], result, m);
      IncrError();
      Arrived(i, at.(pc := Done(DeadLettered), errs := 1), fortune,
          none + [SendTo(PAYMENT_DLQ, letter)] + [CountError], result);
    }

    /** One message from start to end, as the program writes it. It does what the
        stepwise goroutine does: same outcome, same counts, same sends. */
    method ProcessMessage(i: nat, raw: Message, fortune: Fortune) returns (outcome: Outcome)
      requires !svc.Order?
      modifies this
      ensures var r := RunJob(i, Fresh(svc, raw), fortune);
        && outcome == r.0.pc.outcome
        && Value() == Applied(old(Value()), r.1)
        && outbox == old(outbox) + Sends(r.1)
    {
      ghost var result := RunJob(i, Fresh(svc, raw), fortune);
      ghost var m, sent := Value(), outbox;
      Begins(i, Fresh(svc, raw), fortune, m);
      hide RunJob, OnTheWay, Applied, Sends, JobOk;
      var settled := Validate(i, raw, fortune, result, m, sent);
      if settled.Some? {
        return settled.value;
      }
      outcome := Retry(i, raw, fortune, result, m, sent);
    }

    /** The retry loop. */
    method Retry(i: nat, raw: Message, fortune: Fortune, ghost result: (Job, seq<Effect>), ghost m: Meter,
        ghost sent: seq<(nat, Message)>)
      returns (outcome: Outcome)
      requires Follows(i, Job(svc, raw, Asleep(1), 0, 0), fortune, [], result, m, sent)
      modifies this
      ensures Follows(i, result.0, fortune, result.1, result, m, sent) && result.0.pc == Done(outcome)
    {
      var attempt := 1;
      ghost var done: seq<Effect> := [];
      while true
        invariant attempt >= 1
        invariant Follows(i, Job(svc, raw, Asleep(attempt), attempt - 1, 0), fortune, done, result, m, sent)
        decreases MaxAttempts(svc) + 1 - attempt
      {
        var ended;
        ended, done := Attempt(i, raw, fortune, attempt, attempt - 1, done, result, m, sent);
        if ended.Some? {
          return ended.value;
        }
        attempt := attempt + 1;
      }
    }
  }
}
