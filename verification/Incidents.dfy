/** The incident table: creation, matching, timelines, resolution. */
module Incidents {
  import opened Sequences
  import opened Correlation
  import opened Sorting

  datatype Status = Active | Resolved

  datatype Incident = Incident(
    id: nat, startedAt: int, resolvedAt: Option<int>, rootCause: string, rootService: string,
    affected: seq<string>, faultType: Option<string>, timeline: seq<TimelineEvent>, status: Status)

  /** Row i of the table has id i + 1: ids are fresh, unique and never reused. */
  ghost predicate TableOk(rows: seq<Incident>) {
    forall i :: 0 <= i < |rows| ==> rows[i].id == i + 1
  }

  function NewIncident(id: nat, ev: CorrelatedEvent): Incident {
    Incident(id, ev.startTs, None, ev.rootCause, ev.rootService, ev.affected,
      if ev.faultType != "" then Some(ev.faultType) else None, ev.timeline, Active)
  }

  /** What a row keeps for ever of the event it was made from. */
  predicate StemsFrom(inc: Incident, ev: CorrelatedEvent) {
    && inc.startedAt == ev.startTs && inc.rootService == ev.rootService && inc.rootCause == ev.rootCause
    && inc.affected == ev.affected
    && inc.faultType == (if ev.faultType == "" then None else Some(ev.faultType))
  }

  /** A row as it is inserted. */
  predicate MadeFrom(inc: Incident, id: nat, ev: CorrelatedEvent) {
    StemsFrom(inc, ev) && inc.id == id && inc.timeline == ev.timeline && inc.status.Active? && inc.resolvedAt.None?
  }

  lemma NewIsMade(id: nat, ev: CorrelatedEvent)
    ensures MadeFrom(NewIncident(id, ev), id, ev)
  {
  }

  predicate IsActive(inc: Incident) { inc.status.Active? }

  predicate NewestFirst(a: Incident, b: Incident) { a.startedAt >= b.startedAt }

  /** A query for the active rows, newest first; ties come in any order. */
  ghost predicate ListsActive(listed: seq<Incident>, rows: seq<Incident>) {
    SortedPermutation(listed, Filter(rows, IsActive), NewestFirst)
  }

  // ------------------------------------------------------------- matching

  function FaultText(inc: Incident): string {
    if inc.faultType.Some? then inc.faultType.value else ""
  }

  /** What makes an event a continuation of an incident. */
  datatype Key = Key(rootService: string, faultType: string)

  function KeyOf(inc: Incident): Key { Key(inc.rootService, FaultText(inc)) }

  function EventKey(ev: CorrelatedEvent): Key { Key(ev.rootService, ev.faultType) }

  function FindMatch(actives: seq<Incident>, key: Key): Option<Incident> {
    if actives == [] then None
    else if KeyOf(actives[0]) == key then Some(actives[0])
    else FindMatch(actives[1..], key)
  }

  function AppendTimeline(rows: seq<Incident>, id: nat, more: seq<TimelineEvent>): seq<Incident>
    requires 1 <= id <= |rows|
  {
    rows[id - 1 := rows[id - 1].(timeline := rows[id - 1].timeline + more)]
  }

  /** Ids that name a row of a table with n rows. */
  ghost predicate Known(actives: seq<Incident>, n: nat) {
    forall i :: 0 <= i < |actives| ==> 1 <= actives[i].id <= n
  }

  function ReconcileOne(rows: seq<Incident>, actives: seq<Incident>, ev: CorrelatedEvent): (r: seq<Incident>)
    requires Known(actives, |rows|)
    ensures |r| >= |rows|
  {
    FindMatchIsMember(actives, EventKey(ev));
    var m := FindMatch(actives, EventKey(ev));
    if m.None? then rows + [NewIncident(|rows| + 1, ev)] else AppendTimeline(rows, m.value.id, ev.timeline)
  }

  /** Every event is matched against the list read at the start of the batch. */
  function ReconcileAll(rows: seq<Incident>, actives: seq<Incident>, events: seq<CorrelatedEvent>): (r: seq<Incident>)
    requires Known(actives, |rows|)
    ensures |r| >= |rows|
  {
    if events == [] then rows
    else ReconcileOne(ReconcileAll(rows, actives, events[..|events| - 1]), actives, events[|events| - 1])
  }

  lemma {:induction false} FindMatchIsMember(actives: seq<Incident>, key: Key)
    ensures FindMatch(actives, key).Some? ==>
      FindMatch(actives, key).value in actives && KeyOf(FindMatch(actives, key).value) == key
    ensures FindMatch(actives, key).Some? <==> exists inc :: inc in actives && KeyOf(inc) == key
  {
    if actives == [] {
    } else {
      FindMatchIsMember(actives[1..], key);
      assert actives == [actives[0]] + actives[1..];
    }
  }

  /** An event continues an incident with its root and its fault type, where no
      fault is the empty type. */
  predicate Continues(inc: Incident, ev: CorrelatedEvent) {
    && inc.rootService == ev.rootService
    && (if inc.faultType.Some? then inc.faultType.value == ev.faultType else ev.faultType == "")
  }

  ghost predicate FirstContinued(actives: seq<Incident>, i: int, ev: CorrelatedEvent) {
    0 <= i < |actives| && Continues(actives[i], ev) && forall j :: 0 <= j < i ==> !Continues(actives[j], ev)
  }

  lemma {:induction false} MatchIsFirst(actives: seq<Incident>, ev: CorrelatedEvent)
    ensures forall i :: FirstContinued(actives, i, ev) ==> FindMatch(actives, EventKey(ev)) == Some(actives[i])
    ensures (forall i :: 0 <= i < |actives| ==> !Continues(actives[i], ev)) ==> FindMatch(actives, EventKey(ev)).None?
  {
    if actives == [] {
    } else {
      var rest := actives[1..];
      MatchIsFirst(rest, ev);
      assert Continues(actives[0], ev) <==> KeyOf(actives[0]) == EventKey(ev);
      hide Continues, KeyOf, EventKey;
      forall i | FirstContinued(actives, i, ev) ensures FindMatch(actives, EventKey(ev)) == Some(actives[i]) {
        if i > 0 {
          assert forall j :: 0 <= j < |rest| ==> rest[j] == actives[j + 1];
          assert FirstContinued(rest, i - 1, ev);
        }
      }
    }
  }

  // ------------------------------------------------- shape of the outcome

  /** The events of the batch that matched nothing, in order. */
  function Unmatched(actives: seq<Incident>, events: seq<CorrelatedEvent>): seq<CorrelatedEvent> {
    if events == [] then []
    else
      var us, ev := Unmatched(actives, events[..|events| - 1]), events[|events| - 1];
      if FindMatch(actives, EventKey(ev)).None? then us + [ev] else us
  }

  /** The timelines of the events matched to one id, joined in order. */
  function MatchedTimeline(actives: seq<Incident>, events: seq<CorrelatedEvent>, id: nat): seq<TimelineEvent> {
    if events == [] then []
    else
      var tl, ev := MatchedTimeline(actives, events[..|events| - 1], id), events[|events| - 1];
      var m := FindMatch(actives, EventKey(ev));
      if m.Some? && m.value.id == id then tl + ev.timeline else tl
  }

  /** Old rows with longer timelines, then new rows for the events `us`. */
  ghost predicate BatchShape(rows: seq<Incident>, r: seq<Incident>, more: nat -> seq<TimelineEvent>,
      us: seq<CorrelatedEvent>) {
    && |r| == |rows| + |us|
    && (forall i :: 0 <= i < |rows| ==> r[i] == rows[i].(timeline := rows[i].timeline + more(i + 1)))
    && (forall k :: 0 <= k < |us| ==> r[|rows| + k] == NewIncident(|rows| + k + 1, us[k]))
  }

  lemma ShapeCreates(rows: seq<Incident>, r: seq<Incident>, more: nat -> seq<TimelineEvent>,
      us: seq<CorrelatedEvent>, ev: CorrelatedEvent)
    requires BatchShape(rows, r, more, us)
    ensures BatchShape(rows, r + [NewIncident(|r| + 1, ev)], more, us + [ev])
  {
    hide NewIncident;
  }

  lemma ShapeExtends(rows: seq<Incident>, r: seq<Incident>, more: nat -> seq<TimelineEvent>,
      more': nat -> seq<TimelineEvent>, us: seq<CorrelatedEvent>, id: nat, tl: seq<TimelineEvent>)
    requires BatchShape(rows, r, more, us) && 1 <= id <= |rows|
    requires more'(id) == more(id) + tl && forall k: nat :: k != id ==> more'(k) == more(k)
    ensures |r| >= id && BatchShape(rows, AppendTimeline(r, id, tl), more', us)
  {
    hide NewIncident;
    assert (rows[id - 1].timeline + more(id)) + tl == rows[id - 1].timeline + more'(id);
  }

  lemma ShapeSame(rows: seq<Incident>, r: seq<Incident>, more: nat -> seq<TimelineEvent>,
      more': nat -> seq<TimelineEvent>, us: seq<CorrelatedEvent>)
    requires BatchShape(rows, r, more, us) && forall k: nat :: more'(k) == more(k)
    ensures BatchShape(rows, r, more', us)
  {
  }

  function Matched(actives: seq<Incident>, events: seq<CorrelatedEvent>): nat -> seq<TimelineEvent> {
    (id: nat) => MatchedTimeline(actives, events, id)
  }

  lemma {:induction false} ReconcileShaped(rows: seq<Incident>, actives: seq<Incident>, events: seq<CorrelatedEvent>)
    requires Known(actives, |rows|)
    ensures BatchShape(rows, ReconcileAll(rows, actives, events), Matched(actives, events), Unmatched(actives, events))
  {
    if events == [] {
    } else {
      var init, ev := events[..|events| - 1], events[|events| - 1];
      ReconcileShaped(rows, actives, init);
      FindMatchIsMember(actives, EventKey(ev));
      var m := FindMatch(actives, EventKey(ev));
      hide BatchShape, FindMatch, KeyOf, EventKey, AppendTimeline, NewIncident;
      var r, us, before, after := ReconcileAll(rows, actives, init), Unmatched(actives, init),
          Matched(actives, init), Matched(actives, events);
      if m.None? {
        ShapeCreates(rows, r, before, us, ev);
        ShapeSame(rows, r + [NewIncident(|r| + 1, ev)], before, after, us + [ev]);
      } else {
        ShapeExtends(rows, r, before, after, us, m.value.id, ev.timeline);
      }
    }
  }

  /** The whole outcome of a batch: old rows keep everything but their timeline,
      which gains the matched events' timelines in order, and each unmatched
      event becomes a new row, in order. */
  lemma ReconcileShape(rows: seq<Incident>, actives: seq<Incident>, events: seq<CorrelatedEvent>)
    requires Known(actives, |rows|)
    ensures var r, us := ReconcileAll(rows, actives, events), Unmatched(actives, events);
      && |r| == |rows| + |us|
      && (forall i :: 0 <= i < |rows| ==>
            r[i] == rows[i].(timeline := rows[i].timeline + MatchedTimeline(actives, events, i + 1)))
      && (forall k :: 0 <= k < |us| ==>
            r[|rows| + k] == NewIncident(|rows| + k + 1, us[k]) && MadeFrom(r[|rows| + k], |rows| + k + 1, us[k]))
  {
    ReconcileShaped(rows, actives, events);
    hide ReconcileAll, Unmatched, MatchedTimeline, NewIncident, MadeFrom;
    forall k: nat | k < |Unmatched(actives, events)|
      ensures MadeFrom(ReconcileAll(rows, actives, events)[|rows| + k], |rows| + k + 1, Unmatched(actives, events)[k])
    {
      NewIsMade(|rows| + k + 1, Unmatched(actives, events)[k]);
    }
  }

  /** A row that was not listed as active comes out unchanged. */
  lemma {:induction false} UnlistedUntouched(rows: seq<Incident>, actives: seq<Incident>,
      events: seq<CorrelatedEvent>, i: nat)
    requires Known(actives, |rows|) && i < |rows|
    requires forall inc :: inc in actives ==> inc.id != i + 1
    ensures ReconcileAll(rows, actives, events)[i] == rows[i]
  {
    ReconcileShape(rows, actives, events);
    NothingMatched(actives, events, i + 1);
  }

  lemma {:induction false} NothingMatched(actives: seq<Incident>, events: seq<CorrelatedEvent>, id: nat)
    requires forall inc :: inc in actives ==> inc.id != id
    ensures MatchedTimeline(actives, events, id) == []
  {
    if events == [] {
    } else {
      NothingMatched(actives, events[..|events| - 1], id);
      FindMatchIsMember(actives, EventKey(events[|events| - 1]));
    }
  }

  /** Total number of timeline entries in the table. */
  function Entries(rows: seq<Incident>): nat {
    if rows == [] then 0 else Entries(rows[..|rows| - 1]) + |rows[|rows| - 1].timeline|
  }

  function EventEntries(events: seq<CorrelatedEvent>): nat {
    if events == [] then 0 else EventEntries(events[..|events| - 1]) + |events[|events| - 1].timeline|
  }

  lemma {:induction false} EntriesConcat(a: seq<Incident>, b: seq<Incident>)
    ensures Entries(a + b) == Entries(a) + Entries(b)
  {
    if b == [] {
      assert a + b == a;
    } else {
      assert (a + b)[..|a + b| - 1] == a + b[..|b| - 1];
      EntriesConcat(a, b[..|b| - 1]);
    }
  }

  lemma EntriesUpdate(rows: seq<Incident>, i: nat, x: Incident)
    requires i < |rows|
    ensures Entries(rows[i := x]) + |rows[i].timeline| == Entries(rows) + |x.timeline|
  {
    var a, b := rows[..i], rows[i + 1..];
    assert rows == (a + [rows[i]]) + b && rows[i := x] == (a + [x]) + b;
    EntriesConcat(a + [rows[i]], b);
    EntriesConcat(a + [x], b);
    EntriesConcat(a, [rows[i]]);
    EntriesConcat(a, [x]);
    assert [x][..0] == [] && [rows[i]][..0] == [];
  }

  /** No timeline entry of a batch is lost or repeated. */
  lemma {:induction false} EntriesConserved(rows: seq<Incident>, actives: seq<Incident>, events: seq<CorrelatedEvent>)
    requires Known(actives, |rows|)
    ensures Entries(ReconcileAll(rows, actives, events)) == Entries(rows) + EventEntries(events)
  {
    if events == [] {
    } else {
      var ev := events[|events| - 1];
      var r := ReconcileAll(rows, actives, events[..|events| - 1]);
      EntriesConserved(rows, actives, events[..|events| - 1]);
      FindMatchIsMember(actives, EventKey(ev));
      var m := FindMatch(actives, EventKey(ev));
      if m.None? {
        var created := NewIncident(|r| + 1, ev);
        assert (r + [created])[..|r|] == r;
      } else {
        EntriesUpdate(r, m.value.id - 1, r[m.value.id - 1].(timeline := r[m.value.id - 1].timeline + ev.timeline));
      }
    }
  }

  // ------------------------------------------------------- counting law

  function ActiveWith(key: Key): Incident -> bool { (inc: Incident) => inc.status.Active? && KeyOf(inc) == key }

  function WithEventKey(key: Key): CorrelatedEvent -> bool { (ev: CorrelatedEvent) => EventKey(ev) == key }

  function ActiveCount(rows: seq<Incident>, key: Key): nat { Count(rows, ActiveWith(key)) }

  lemma ListedMembers(listed: seq<Incident>, rows: seq<Incident>)
    requires ListsActive(listed, rows)
    ensures forall inc :: inc in listed ==> inc in rows && inc.status.Active?
    ensures forall inc :: inc in rows && inc.status.Active? ==> inc in listed
    ensures TableOk(rows) ==> Known(listed, |rows|)
  {
    PermutationMembers(listed, Filter(rows, IsActive));
    forall i | 0 <= i < |listed| && TableOk(rows)
      ensures 1 <= listed[i].id <= |rows|
    {
      assert listed[i] in rows;
    }
  }

  lemma ListedHasKey(listed: seq<Incident>, rows: seq<Incident>, key: Key)
    requires ListsActive(listed, rows)
    ensures FindMatch(listed, key).Some? <==> ActiveCount(rows, key) > 0
  {
    ListedMembers(listed, rows);
    FindMatchIsMember(listed, key);
    CountPositive(rows, ActiveWith(key));
    if FindMatch(listed, key).Some? {
      var inc := FindMatch(listed, key).value;
      var i :| 0 <= i < |rows| && rows[i] == inc;
      assert ActiveWith(key)(rows[i]);
    }
  }

  /** An event adds an active incident to its own key if it matches nothing. */
  lemma ActiveAfterOne(rows: seq<Incident>, listed: seq<Incident>, ev: CorrelatedEvent, key: Key)
    requires Known(listed, |rows|)
    ensures ActiveCount(ReconcileOne(rows, listed, ev), key)
            == ActiveCount(rows, key) + if FindMatch(listed, EventKey(ev)).None? && EventKey(ev) == key then 1 else 0
  {
    hide Count;
    FindMatchIsMember(listed, EventKey(ev));
    var m := FindMatch(listed, EventKey(ev));
    if m.None? {
      CountSnoc(rows, NewIncident(|rows| + 1, ev), ActiveWith(key));
    } else {
      var i := m.value.id - 1;
      CountUpdate(rows, i, rows[i].(timeline := rows[i].timeline + ev.timeline), ActiveWith(key));
    }
  }

  /** For every (root, fault type): the number of active incidents is unchanged
      if it was positive, and otherwise becomes the number of batch events with
      that key. */
  lemma {:induction false} ReconcileCounts(rows: seq<Incident>, listed: seq<Incident>, events: seq<CorrelatedEvent>,
      key: Key)
    requires TableOk(rows) && ListsActive(listed, rows) && Known(listed, |rows|)
    ensures ActiveCount(ReconcileAll(rows, listed, events), key)
            == if ActiveCount(rows, key) > 0 then ActiveCount(rows, key) else Count(events, WithEventKey(key))
  {
    if events == [] {
    } else {
      var ev, init := events[|events| - 1], events[..|events| - 1];
      ReconcileCounts(rows, listed, init, key);
      ListedHasKey(listed, rows, EventKey(ev));
      ActiveAfterOne(ReconcileAll(rows, listed, init), listed, ev, key);
      CountSnoc(init, ev, WithEventKey(key));
      assert init + [ev] == events;
      hide ActiveCount, ReconcileOne, FindMatch;
    }
  }

  ghost predicate AtMostOnePerKey(rows: seq<Incident>) {
    forall key :: ActiveCount(rows, key) <= 1
  }

  /** A batch keeps "at most one active incident per key" exactly when no key
      without an active incident occurs in it twice. */
  lemma AtMostOneKept(rows: seq<Incident>, listed: seq<Incident>, events: seq<CorrelatedEvent>)
    requires TableOk(rows) && ListsActive(listed, rows) && Known(listed, |rows|) && AtMostOnePerKey(rows)
    ensures AtMostOnePerKey(ReconcileAll(rows, listed, events)) <==>
            forall key :: ActiveCount(rows, key) == 0 ==> Count(events, WithEventKey(key)) <= 1
  {
    var r := ReconcileAll(rows, listed, events);
    forall key
      ensures ActiveCount(r, key) <= 1 <==> (ActiveCount(rows, key) == 0 ==> Count(events, WithEventKey(key)) <= 1)
    {
      ReconcileCounts(rows, listed, events, key);
      assert ActiveCount(rows, key) <= 1;
    }
  }

  /** Any two events of a batch that share a key without an active incident make
      two active incidents: each event of that key makes its own. */
  lemma DuplicateBatch(rows: seq<Incident>, listed: seq<Incident>, events: seq<CorrelatedEvent>, i: nat, j: nat)
    requires TableOk(rows) && ListsActive(listed, rows) && Known(listed, |rows|)
    requires i < j < |events| && EventKey(events[i]) == EventKey(events[j])
    requires ActiveCount(rows, EventKey(events[i])) == 0
    ensures var key := EventKey(events[i]);
      ActiveCount(ReconcileAll(rows, listed, events), key) == Count(events, WithEventKey(key)) >= 2
  {
    var key := EventKey(events[i]);
    ReconcileCounts(rows, listed, events, key);
    var a, b := events[..j], events[j..];
    assert events == a + b;
    CountConcat(a, b, WithEventKey(key));
    assert a[i] == events[i] && b[0] == events[j];
    CountPositive(a, WithEventKey(key));
    CountPositive(b, WithEventKey(key));
  }

  // ----------------------------------------------------------- resolution

  function MarkResolved(rows: seq<Incident>, id: nat, at: int): seq<Incident> {
    if 1 <= id <= |rows| then rows[id - 1 := rows[id - 1].(status := Resolved, resolvedAt := Some(at))] else rows
  }

  /** Marks a list of ids; the updates in `failing` have no effect. */
  function MarkAll(rows: seq<Incident>, ids: seq<nat>, at: int, failing: set<nat>): (r: seq<Incident>)
    ensures |r| == |rows|
  {
    if ids == [] then rows
    else
      var r, id := MarkAll(rows, ids[..|ids| - 1], at, failing), ids[|ids| - 1];
      if id in failing then r else MarkResolved(r, id, at)
  }

  lemma {:induction false} MarkAllAt(rows: seq<Incident>, ids: seq<nat>, at: int, failing: set<nat>, i: nat)
    requires i < |rows|
    ensures MarkAll(rows, ids, at, failing)[i]
            == if i + 1 in ids && i + 1 !in failing then rows[i].(status := Resolved, resolvedAt := Some(at))
                else rows[i]
  {
    if ids == [] {
    } else {
      var init := ids[..|ids| - 1];
      assert ids == init + [ids[|ids| - 1]];
      MarkAllAt(rows, init, at, failing, i);
    }
  }

  /** Where a batch of database statements fails, if it does. */
  datatype DbFault = NoFault | ListFails | WriteFails(at: nat) | RelistFails

  /** How many events were written before the failure. */
  function Written(fault: DbFault, events: nat): (n: nat)
    ensures n <= events
  {
    match fault
    case ListFails => 0
    case WriteFails(at) => if at < events then at else events
    case _ => events
  }

  predicate Succeeds(fault: DbFault, events: nat) {
    fault.NoFault? || (fault.WriteFails? && fault.at >= events)
  }

  class IncidentStore {
    var rows: seq<Incident>

    ghost predicate Valid()
      reads this
    {
      TableOk(rows)
    }

    constructor ()
      ensures Valid() && rows == []
    {
      rows := [];
    }

    method ListActive() returns (listed: seq<Incident>)
      ensures ListsActive(listed, rows)
      ensures forall i, j :: 0 <= i < j < |listed| ==> listed[i].startedAt >= listed[j].startedAt
    {
      var found: seq<Incident> := [];
      for i := 0 to |rows|
        invariant found == Filter(rows[..i], IsActive)
      {
        assert rows[..i + 1][..i] == rows[..i];
        if rows[i].status.Active? {
          found := found + [rows[i]];
        }
      }
      assert rows[..|rows|] == rows;
      listed := Sort(found, NewestFirst);
    }

    method FindMatchingIncident(actives: seq<Incident>, ev: CorrelatedEvent) returns (m: Option<Incident>)
      ensures m == FindMatch(actives, EventKey(ev))
      ensures forall i :: FirstContinued(actives, i, ev) ==> m == Some(actives[i])
      ensures (forall i :: 0 <= i < |actives| ==> !Continues(actives[i], ev)) ==> m.None?
    {
      MatchIsFirst(actives, ev);
      for i := 0 to |actives|
        invariant FindMatch(actives, EventKey(ev)) == FindMatch(actives[i..], EventKey(ev))
      {
        assert actives[i..][1..] == actives[i + 1..];
        var inc := actives[i];
        if inc.rootService != ev.rootService {
          continue;
        }
        var text := if inc.faultType.Some? then inc.faultType.value else "";
        if text == ev.faultType {
          return Some(inc);
        }
      }
      m := None;
    }

    /** Writes one event: extends the matching incident or creates one. */
    method Write(current: seq<Incident>, ev: CorrelatedEvent)
      requires Valid() && Known(current, |rows|)
      modifies this
      ensures Valid() && rows == ReconcileOne(old(rows), current, ev)
      ensures (forall inc :: inc in current ==> KeyOf(inc) != EventKey(ev)) ==>
        |rows| == |old(rows)| + 1 && rows[..|old(rows)|] == old(rows) && MadeFrom(rows[|old(rows)|], |rows|, ev)
    {
      var m := FindMatchingIncident(current, ev);
      FindMatchIsMember(current, EventKey(ev));
      if m.None? {
        rows := rows + [NewIncident(|rows| + 1, ev)];
      } else {
        rows := AppendTimeline(rows, m.value.id, ev.timeline);
      }
    }

    /** Applies a batch; stops at the first failing statement. None is an error. */
    method Reconcile(events: seq<CorrelatedEvent>, fault: DbFault)
      returns (actives: Option<seq<Incident>>, ghost listed: seq<Incident>)
      requires Valid()
      modifies this
      ensures Valid()
      ensures ListsActive(listed, old(rows)) && Known(listed, |old(rows)|)
      ensures rows == ReconcileAll(old(rows), listed, events[..Written(fault, |events|)])
      ensures actives.Some? <==> Succeeds(fault, |events|)
      ensures actives.Some? ==> ListsActive(actives.value, rows)
    {
      var current := ListActive();
      listed := current;
      ListedMembers(listed, rows);
      if fault.ListFails? {
        return None, listed;
      }
      ghost var before := rows;
      for i := 0 to |events|
        invariant Valid() && |rows| >= |before|
        invariant rows == ReconcileAll(before, listed, events[..i])
        invariant fault.WriteFails? ==> i <= fault.at
      {
        if fault.WriteFails? && fault.at == i {
          return None, listed;
        }
        assert events[..i + 1][..i] == events[..i];
        Write(current, events[i]);
      }
      assert events[..|events|] == events;
      if fault.RelistFails? {
        return None, listed;
      }
      var now := ListActive();
      actives := Some(now);
    }

    method SetResolved(id: nat, at: int)
      requires Valid()
      modifies this
      ensures Valid() && rows == MarkResolved(old(rows), id, at)
    {
      if 1 <= id <= |rows| {
        rows := rows[id - 1 := rows[id - 1].(status := Resolved, resolvedAt := Some(at))];
      }
    }
  }
}
