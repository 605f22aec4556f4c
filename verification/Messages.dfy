/** What travels through the simulated pipeline. */
module Messages {
  import opened Sequences

  datatype Reason = SchemaInvalid | ProcessingError

  /** A dead-letter envelope around the message that failed. */
  datatype Envelope = Envelope(reason: Reason, attempts: nat, original: Message)

  /** A payload as its readers see it. `source` stands for the fresh message id:
      the goroutine that built the message, none for one from outside.
      `wellFormed` says whether it unmarshals. */
  datatype Message = Message(
    source: Option<nat>, wellFormed: bool, poisoned: bool, declined: bool, envelope: Option<Envelope>)

  /** Which messages a count looks at. */
  datatype Pick = All | Just(msg: Message) | From(source: nat) | Broken

  predicate Picked(pick: Pick, m: Message) {
    match pick
    case All => true
    case Just(x) => m == x
    case From(i) => m.source == Some(i)
    case Broken => !m.wellFormed
  }

  function Picks(pick: Pick): Message -> bool { (m: Message) => Picked(pick, m) }

  function Tally(s: seq<Message>, pick: Pick): nat { Count(s, Picks(pick)) }

  lemma {:induction false} TallySnoc(s: seq<Message>, x: Message, pick: Pick)
    ensures Tally(s + [x], pick) == Tally(s, pick) + if Picked(pick, x) then 1 else 0
  {
    CountSnoc(s, x, Picks(pick));
  }

  lemma {:induction false} TallyConcat(a: seq<Message>, b: seq<Message>, pick: Pick)
    ensures Tally(a + b, pick) == Tally(a, pick) + Tally(b, pick)
  {
    CountConcat(a, b, Picks(pick));
  }

  lemma {:induction false} TallyAll(s: seq<Message>)
    ensures Tally(s, All) == |s|
  {
    if s == [] {
    } else {
      TallyAll(s[..|s| - 1]);
    }
  }

  lemma {:induction false} TallyNone(pick: Pick)
    ensures Tally([], pick) == 0
  {
  }

  /** Equal tallies of every message are equal multisets. */
  lemma {:induction false} TallyIsMultiplicity(s: seq<Message>, m: Message)
    ensures Tally(s, Just(m)) == multiset(s)[m]
  {
    if s == [] {
    } else {
      var init := s[..|s| - 1];
      TallyIsMultiplicity(init, m);
      assert s == init + [s[|s| - 1]];
    }
  }
}
