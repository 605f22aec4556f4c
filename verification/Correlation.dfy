/** From active signals to correlated events: root nomination, blast radius,
    fault matching, and the correlator object. */
module Correlation {
  import opened Sequences
  import opened Signals
  import opened ActiveSignals
  import opened Sorting

  datatype TimelineEvent = TimelineEvent(ts: int, message: string)

  datatype CorrelatedEvent = CorrelatedEvent(
    startTs: int, rootService: string, rootCause: string, faultType: string,
    affected: seq<string>, signals: seq<Signal>, timeline: seq<TimelineEvent>)

  // ----------------------------------------------------------------- root

  const FAULT_LOOKBACK: nat := 5000
  const FAULT_LOOKAHEAD: nat := 2000

  predicate Evidence(fe: FaultEvent, start: int) {
    fe.action.Start? && start - FAULT_LOOKBACK <= fe.ts <= start
  }

  predicate NamesService(sigs: seq<Signal>, service: string) {
    exists i :: 0 <= i < |sigs| && ServiceForSignal(sigs[i]) == service
  }

  /** The origin of the first fault start that names a service of the group. */
  function EvidenceRoot(faults: seq<FaultEvent>, start: int, sigs: seq<Signal>): (r: Option<string>)
    ensures r.Some? ==> NamesService(sigs, r.value)
    ensures r.Some? <==>
      exists k :: 0 <= k < |faults| && Evidence(faults[k], start) && NamesService(sigs, faults[k].origin)
  {
    if faults == [] then None
    else
      var r, fe := EvidenceRoot(faults[..|faults| - 1], start, sigs), faults[|faults| - 1];
      if r.Some? then r
      else if Evidence(fe, start) && NamesService(sigs, fe.origin) then Some(fe.origin)
      else None
  }

  /** The evidence used is the first in the list of fault events. */
  lemma {:induction false} EvidenceIsFirst(faults: seq<FaultEvent>, start: int, sigs: seq<Signal>) returns (k: nat)
    requires EvidenceRoot(faults, start, sigs).Some?
    ensures k < |faults| && EvidenceRoot(faults, start, sigs) == Some(faults[k].origin)
    ensures Evidence(faults[k], start) && NamesService(sigs, faults[k].origin)
    ensures forall j :: 0 <= j < k ==> !(Evidence(faults[j], start) && NamesService(sigs, faults[j].origin))
  {
    var init := faults[..|faults| - 1];
    hide NamesService;
    if EvidenceRoot(init, start, sigs).Some? {
      k := EvidenceIsFirst(init, start, sigs);
      assert forall j :: 0 <= j <= k ==> init[j] == faults[j];
    } else {
      k := |faults| - 1;
      assert forall j :: 0 <= j < k ==> init[j] == faults[j];
    }
  }

  predicate HasServiceSignal(sigs: seq<Signal>) {
    exists i :: 0 <= i < |sigs| && sigs[i].service != ""
  }

  predicate OwnedQueue(s: Signal) { s.queue != "" && QueueOwner(s.queue).Some? }

  /** The owner of the first queue in the group that has one. */
  function FirstOwner(sigs: seq<Signal>): (r: Option<string>)
    ensures r.Some? <==> exists i :: 0 <= i < |sigs| && OwnedQueue(sigs[i])
    ensures r.Some? ==> exists i :: 0 <= i < |sigs| && OwnedQueue(sigs[i]) && QueueOwner(sigs[i].queue) == r
  {
    if sigs == [] then None
    else
      var r, s := FirstOwner(sigs[..|sigs| - 1]), sigs[|sigs| - 1];
      if r.Some? then r else if OwnedQueue(s) then QueueOwner(s.queue) else None
  }

  /** That queue is the first owned one in the group. */
  lemma {:induction false} OwnerIsFirst(sigs: seq<Signal>) returns (i: nat)
    requires FirstOwner(sigs).Some?
    ensures i < |sigs| && OwnedQueue(sigs[i]) && FirstOwner(sigs) == QueueOwner(sigs[i].queue)
    ensures forall j :: 0 <= j < i ==> !OwnedQueue(sigs[j])
  {
    var init := sigs[..|sigs| - 1];
    hide OwnedQueue;
    if FirstOwner(init).Some? {
      i := OwnerIsFirst(init);
      assert forall j :: 0 <= j <= i ==> init[j] == sigs[j];
    } else {
      i := |sigs| - 1;
      assert forall j :: 0 <= j < i ==> init[j] == sigs[j];
    }
  }

  datatype Candidate = Candidate(service: string, depth: nat, ts: int)

  /** One step of the search for the most upstream, then earliest, signal. */
  function Better(c: Candidate, s: Signal): Candidate {
    var service := ServiceForSignal(s);
    var depth := Rank(service);
    if depth < c.depth || (depth == c.depth && (c.service == "" || s.ts < c.ts))
    then Candidate(service, depth, s.ts) else c
  }

  function Scan(sigs: seq<Signal>): Candidate {
    if sigs == [] then Candidate("", UNKNOWN_DEPTH, 0) else Better(Scan(sigs[..|sigs| - 1]), sigs[|sigs| - 1])
  }

  function RootOf(sigs: seq<Signal>, start: int, faults: seq<FaultEvent>): string {
    var evidence := EvidenceRoot(faults, start, sigs);
    if evidence.Some? then evidence.value
    else
      var owner := if HasServiceSignal(sigs) then None else FirstOwner(sigs);
      if owner.Some? then owner.value else Scan(sigs).service
  }

  /** Where a signal stands: pipeline rank, then time. */
  datatype Place = Place(depth: nat, ts: int)

  function PlaceOf(s: Signal): Place { Place(Rank(ServiceForSignal(s)), s.ts) }

  predicate Before(a: Place, b: Place) {
    a.depth < b.depth || (a.depth == b.depth && a.ts < b.ts)
  }

  function Places(sigs: seq<Signal>): seq<Place> {
    seq(|sigs|, i requires 0 <= i < |sigs| => PlaceOf(sigs[i]))
  }

  /** ps[i] is the first of the lexicographically least places. */
  ghost predicate FirstLeast(ps: seq<Place>, i: int) {
    && 0 <= i < |ps|
    && (forall j :: 0 <= j < |ps| ==> !Before(ps[j], ps[i]))
    && (forall j :: 0 <= j < i ==> Before(ps[i], ps[j]))
  }

  lemma FirstLeastSnoc(ps: seq<Place>, i: int, p: Place)
    requires FirstLeast(ps, i)
    ensures FirstLeast(ps + [p], if Before(p, ps[i]) then |ps| else i)
  {
    if Before(p, ps[i]) {
      forall j | 0 <= j < |ps| ensures Before(p, ps[j]) { assert !Before(ps[j], ps[i]); }
    }
  }

  lemma {:induction false} ScanIsMostUpstream(sigs: seq<Signal>) returns (i: int)
    requires sigs != [] && forall s :: s in sigs ==> Named(s)
    ensures FirstLeast(Places(sigs), i)
    ensures Scan(sigs) == Candidate(ServiceForSignal(sigs[i]), Places(sigs)[i].depth, Places(sigs)[i].ts)
  {
    var rest, s := sigs[..|sigs| - 1], sigs[|sigs| - 1];
    assert Places(sigs) == Places(rest) + [PlaceOf(s)];
    assert s in sigs;
    NamedHasService(s);
    if rest == [] {
      i := 0;
      RankAtMostUnknown(ServiceForSignal(s));
    } else {
      assert forall x :: x in rest ==> x in sigs;
      i := ScanIsMostUpstream(rest);
      NamedHasService(rest[i]);
      FirstLeastSnoc(Places(rest), i, PlaceOf(s));
      if Before(PlaceOf(s), Places(rest)[i]) {
        i := |rest|;
      }
    }
  }

  lemma RankAtMostUnknown(service: string)
    ensures Rank(service) <= UNKNOWN_DEPTH
  {
  }

  /** The root is always the service of some signal of the group. */
  lemma {:induction false} RootIsNamed(sigs: seq<Signal>, start: int, faults: seq<FaultEvent>)
    requires sigs != [] && forall s :: s in sigs ==> Named(s)
    ensures NamesService(sigs, RootOf(sigs, start, faults))
  {
    var i := ScanIsMostUpstream(sigs);
    if !HasServiceSignal(sigs) && FirstOwner(sigs).Some? {
      var k :| 0 <= k < |sigs| && OwnedQueue(sigs[k]) && QueueOwner(sigs[k].queue) == FirstOwner(sigs);
      assert ServiceForSignal(sigs[k]) == FirstOwner(sigs).value;
    }
  }

  /** Inference without direct evidence: with a service signal in the group the
      root is the most upstream, then earliest, signal's service. */
  lemma {:induction false} InferredRoot(sigs: seq<Signal>, start: int, faults: seq<FaultEvent>) returns (i: int)
    requires sigs != [] && HasServiceSignal(sigs) && forall s :: s in sigs ==> Named(s)
    requires forall k :: 0 <= k < |faults| ==> !(Evidence(faults[k], start) && NamesService(sigs, faults[k].origin))
    ensures FirstLeast(Places(sigs), i) && RootOf(sigs, start, faults) == ServiceForSignal(sigs[i])
  {
    i := ScanIsMostUpstream(sigs);
  }

  /** A fault start shortly before the group whose origin the group names. */
  ghost predicate Blames(fe: FaultEvent, sigs: seq<Signal>, start: int) {
    fe.action.Start? && start - 5000 <= fe.ts <= start && exists s :: s in sigs && ServiceForSignal(s) == fe.origin
  }

  ghost predicate FirstBlame(faults: seq<FaultEvent>, k: int, sigs: seq<Signal>, start: int) {
    0 <= k < |faults| && Blames(faults[k], sigs, start) && forall j :: 0 <= j < k ==> !Blames(faults[j], sigs, start)
  }

  ghost predicate FirstOwned(sigs: seq<Signal>, i: int) {
    && 0 <= i < |sigs| && sigs[i].queue != "" && QueueOwner(sigs[i].queue).Some?
    && forall j :: 0 <= j < i ==> sigs[j].queue == "" || QueueOwner(sigs[j].queue).None?
  }

  /** Which service is the root, in every case: the origin of the first fault start
      that names a service of the group; without one, if there are only queue
      signals, the owner of the first queue that has one; else the service of the
      first signal least in (depth, time). */
  ghost predicate RootRule(sigs: seq<Signal>, start: int, faults: seq<FaultEvent>, root: string) {
    && (forall k :: FirstBlame(faults, k, sigs, start) ==> root == faults[k].origin)
    && ((forall k :: 0 <= k < |faults| ==> !Blames(faults[k], sigs, start)) ==>
          if (forall s :: s in sigs ==> s.service == "") && exists i :: FirstOwned(sigs, i)
          then exists i :: FirstOwned(sigs, i) && root == QueueOwner(sigs[i].queue).value
          else sigs != [] && (forall s :: s in sigs ==> Named(s)) ==>
            exists i :: FirstLeast(Places(sigs), i) && root == ServiceForSignal(sigs[i]))
  }

  lemma BlamesIs(fe: FaultEvent, sigs: seq<Signal>, start: int)
    ensures Blames(fe, sigs, start) <==> Evidence(fe, start) && NamesService(sigs, fe.origin)
  {
    if NamesService(sigs, fe.origin) {
      var i :| 0 <= i < |sigs| && ServiceForSignal(sigs[i]) == fe.origin;
      assert sigs[i] in sigs;
    }
  }

  lemma {:induction false} BlameIsRoot(sigs: seq<Signal>, start: int, faults: seq<FaultEvent>, k: int)
    requires FirstBlame(faults, k, sigs, start)
    ensures EvidenceRoot(faults, start, sigs) == Some(faults[k].origin)
  {
    BlamesIs(faults[k], sigs, start);
    var n := EvidenceIsFirst(faults, start, sigs);
    BlamesIs(faults[n], sigs, start);
  }

  lemma OwnedIsOwner(sigs: seq<Signal>, i: int)
    requires FirstOwned(sigs, i)
    ensures FirstOwner(sigs) == QueueOwner(sigs[i].queue)
  {
    assert OwnedQueue(sigs[i]);
    var n := OwnerIsFirst(sigs);
    assert OwnedQueue(sigs[n]);
  }

  lemma NoOwnerFound(sigs: seq<Signal>)
    requires FirstOwner(sigs).Some?
    ensures exists i :: FirstOwned(sigs, i)
  {
    var i := OwnerIsFirst(sigs);
    assert FirstOwned(sigs, i);
  }

  lemma RootFollowsRule(sigs: seq<Signal>, start: int, faults: seq<FaultEvent>)
    ensures RootRule(sigs, start, faults, RootOf(sigs, start, faults))
  {
    forall k | FirstBlame(faults, k, sigs, start) ensures RootOf(sigs, start, faults) == faults[k].origin {
      BlameIsRoot(sigs, start, faults, k);
    }
    if forall k :: 0 <= k < |faults| ==> !Blames(faults[k], sigs, start) {
      UnblamedRoot(sigs, start, faults);
    }
  }

  lemma UnblamedRoot(sigs: seq<Signal>, start: int, faults: seq<FaultEvent>)
    requires forall k :: 0 <= k < |faults| ==> !Blames(faults[k], sigs, start)
    ensures RootRule(sigs, start, faults, RootOf(sigs, start, faults))
  {
    assert EvidenceRoot(faults, start, sigs).None? by {
      forall k | 0 <= k < |faults| ensures !(Evidence(faults[k], start) && NamesService(sigs, faults[k].origin)) {
        BlamesIs(faults[k], sigs, start);
      }
    }
    assert HasServiceSignal(sigs) <==> !(forall s :: s in sigs ==> s.service == "") by {
      if s :| s in sigs && s.service != "" { assert HasServiceSignal(sigs); }
    }
    hide Blames, HasServiceSignal, EvidenceRoot;
    if FirstOwner(sigs).Some? { NoOwnerFound(sigs); }
    if i :| FirstOwned(sigs, i) { OwnedIsOwner(sigs, i); }
    if sigs != [] && forall s :: s in sigs ==> Named(s) {
      var i := ScanIsMostUpstream(sigs);
    }
  }

  // ------------------------------------------------------------- affected

  /** Strictly further down the pipeline; false when either is unknown. */
  predicate Downstream(root: string, service: string) {
    TopologyDepth(root).Some? && TopologyDepth(service).Some?
        && TopologyDepth(service).value > TopologyDepth(root).value
  }

  /** Sorted, without repeats, and exactly the root plus the signalled services
      downstream of it. */
  ghost predicate IsAffected(out: seq<string>, root: string, sigs: seq<Signal>) {
    && SortedBy(out, StringLe)
    && (forall i, j :: 0 <= i < j < |out| ==> out[i] != out[j])
    && (forall x :: x in out <==> x == root || (Downstream(root, x) && NamesService(sigs, x)))
  }

  lemma HeadIsLeast(a: seq<string>, x: string)
    requires SortedBy(a, StringLe) && x in a
    ensures StringLe(a[0], x)
  {
    hide StringLe;
    var k :| 0 <= k < |a| && a[k] == x;
    StringLeTotal(a[0], a[0]);
  }

  /** IsAffected pins the list down: there is only one such list. */
  lemma {:induction false} AffectedUnique(a: seq<string>, b: seq<string>)
    requires SortedBy(a, StringLe) && SortedBy(b, StringLe)
    requires forall i, j :: 0 <= i < j < |a| ==> a[i] != a[j]
    requires forall i, j :: 0 <= i < j < |b| ==> b[i] != b[j]
    requires forall x :: x in a <==> x in b
    ensures a == b
  {
    DistinctCardinality(a);
    DistinctCardinality(b);
    assert (set x | x in a) == (set x | x in b);
    if a == [] {
    } else {
      assert a[0] in b && b[0] in a;
      HeadIsLeast(a, b[0]);
      HeadIsLeast(b, a[0]);
      StringLeAntisymmetric(a[0], b[0]);
      hide StringLe;
      forall x ensures x in a[1..] <==> x in b[1..] {
        TailMembers(a, x);
        TailMembers(b, x);
      }
      assert SortedBy(a[1..], StringLe) && SortedBy(b[1..], StringLe);
      hide SortedBy;
      AffectedUnique(a[1..], b[1..]);
      assert a == [a[0]] + a[1..] && b == [b[0]] + b[1..];
    }
  }

  lemma TailMembers(a: seq<string>, x: string)
    requires a != [] && forall i, j :: 0 <= i < j < |a| ==> a[i] != a[j]
    ensures x in a[1..] <==> x in a && x != a[0]
  {
    assert a == [a[0]] + a[1..];
    if x in a[1..] {
      var j :| 0 <= j < |a[1..]| && a[1..][j] == x;
      assert a[j + 1] == x;
    }
  }

  // --------------------------------------------------------------- faults

  predicate MatchesFault(fe: FaultEvent, root: string, start: int) {
    fe.action.Start? && fe.origin == root && start - FAULT_LOOKBACK <= fe.ts <= start + FAULT_LOOKAHEAD
  }

  /** The type of the first matching fault start, "" if there is none. */
  function FaultTypeOf(root: string, start: int, faults: seq<FaultEvent>): string {
    if faults == [] then ""
    else if MatchesFault(faults[0], root, start) then faults[0].faultType
    else FaultTypeOf(root, start, faults[1..])
  }

  /** The fault matched is the first in the list; "" means that none matches, or
      that the first has no type. */
  lemma {:induction false} FaultIsFirst(root: string, start: int, faults: seq<FaultEvent>, k: nat)
    requires k <= |faults| && forall j :: 0 <= j < k ==> !MatchesFault(faults[j], root, start)
    requires k < |faults| ==> MatchesFault(faults[k], root, start)
    ensures FaultTypeOf(root, start, faults) == if k < |faults| then faults[k].faultType else ""
  {
    hide MatchesFault;
    if k > 0 {
      assert forall j :: 0 <= j < k ==> !MatchesFault(faults[j], root, start);
      FaultIsFirst(root, start, faults[1..], k - 1);
    }
  }

  function RootCause(root: string, sigs: seq<Signal>, faultType: string): string {
    if !HasServiceSignal(sigs) then root + ": silent failure \U{2014} no correlated upstream anomaly"
    else if faultType != "" then root + ": " + faultType
    else root + ": anomaly detected"
  }

  // --------------------------------------------------------------- events

  ghost predicate EventFor(ev: CorrelatedEvent, group: seq<Signal>, faults: seq<FaultEvent>)
    requires group != []
  {
    var start := group[0].ts;
    && ev.startTs == start && ev.signals == group
    && ev.rootService == RootOf(group, start, faults)
    && IsAffected(ev.affected, ev.rootService, group)
    && ev.faultType == FaultTypeOf(ev.rootService, start, faults)
    && ev.rootCause == RootCause(ev.rootService, group, ev.faultType)
    && ev.timeline == [TimelineEvent(start, "anomaly detected: " + ev.rootCause)]
  }

  /** A start of the root's fault from 5 s before to 2 s after the group's start. */
  predicate Charges(fe: FaultEvent, root: string, start: int) {
    fe.action.Start? && fe.origin == root && start - 5000 <= fe.ts <= start + 2000
  }

  ghost predicate FirstCharge(faults: seq<FaultEvent>, k: int, root: string, start: int) {
    0 <= k < |faults| && Charges(faults[k], root, start) && forall j :: 0 <= j < k ==> !Charges(faults[j], root, start)
  }

  ghost predicate FaultRule(faultType: string, root: string, start: int, faults: seq<FaultEvent>) {
    && (forall k :: FirstCharge(faults, k, root, start) ==> faultType == faults[k].faultType)
    && ((forall k :: 0 <= k < |faults| ==> !Charges(faults[k], root, start)) ==> faultType == "")
  }

  /** Sorted, without repeats: the root, and what the group names below it. */
  ghost predicate AffectedRule(out: seq<string>, root: string, sigs: seq<Signal>) {
    && SortedBy(out, StringLe)
    && (forall i, j :: 0 <= i < j < |out| ==> out[i] != out[j])
    && (forall x :: x in out <==> x == root || (IsBelow(x, root) && exists s :: s in sigs && ServiceForSignal(s) == x))
  }

  ghost function CauseRule(root: string, sigs: seq<Signal>, faultType: string): string {
    root + if forall s :: s in sigs ==> s.service == ""
           then ": silent failure \U{2014} no correlated upstream anomaly"
           else ": " + if faultType != "" then faultType else "anomaly detected"
  }

  /** Each field of an event, from the event's signals and the faults read. */
  ghost predicate EventRule(ev: CorrelatedEvent, faults: seq<FaultEvent>) {
    && ev.signals != [] && ev.startTs == ev.signals[0].ts
    && RootRule(ev.signals, ev.startTs, faults, ev.rootService)
    && FaultRule(ev.faultType, ev.rootService, ev.startTs, faults)
    && AffectedRule(ev.affected, ev.rootService, ev.signals)
    && ev.rootCause == CauseRule(ev.rootService, ev.signals, ev.faultType)
    && ev.timeline == [TimelineEvent(ev.startTs, "anomaly detected: " + ev.rootCause)]
  }

  /** The pipeline: order, then payment, then fulfillment and notification, with the
      gateway above them. */
  predicate IsBelow(x: string, root: string) {
    || (root == "api-gateway" && x in ["order", "payment", "fulfillment", "notification"])
    || (root == "order" && x in ["payment", "fulfillment", "notification"])
    || (root == "payment" && x in ["fulfillment", "notification"])
  }

  lemma BelowIsDownstream(x: string, root: string)
    ensures IsBelow(x, root) <==> Downstream(root, x)
  {
  }

  lemma NamedBySome(sigs: seq<Signal>, x: string)
    ensures NamesService(sigs, x) <==> exists s :: s in sigs && ServiceForSignal(s) == x
  {
    if NamesService(sigs, x) {
      var i :| 0 <= i < |sigs| && ServiceForSignal(sigs[i]) == x;
      assert sigs[i] in sigs;
    }
  }

  lemma ServiceInSome(sigs: seq<Signal>)
    ensures HasServiceSignal(sigs) <==> !(forall s :: s in sigs ==> s.service == "")
  {
    if s :| s in sigs && s.service != "" {
      assert HasServiceSignal(sigs);
    }
  }

  lemma FaultFollowsRule(root: string, start: int, faults: seq<FaultEvent>)
    ensures FaultRule(FaultTypeOf(root, start, faults), root, start, faults)
  {
    assert forall fe :: Charges(fe, root, start) <==> MatchesFault(fe, root, start);
    hide Charges, MatchesFault, FaultTypeOf;
    forall k | FirstCharge(faults, k, root, start) ensures FaultTypeOf(root, start, faults) == faults[k].faultType {
      FaultIsFirst(root, start, faults, k);
    }
    if forall k :: 0 <= k < |faults| ==> !Charges(faults[k], root, start) {
      FaultIsFirst(root, start, faults, |faults|);
    }
  }

  lemma AffectedFollowsRule(out: seq<string>, root: string, sigs: seq<Signal>)
    requires IsAffected(out, root, sigs)
    ensures AffectedRule(out, root, sigs)
  {
    hide IsBelow, Downstream, ServiceForSignal, NamesService, StringLe;
    forall x
      ensures x in out <==> x == root || (IsBelow(x, root) && exists s :: s in sigs && ServiceForSignal(s) == x)
    {
      BelowIsDownstream(x, root);
      NamedBySome(sigs, x);
    }
  }

  lemma CauseFollowsRule(root: string, sigs: seq<Signal>, faultType: string)
    ensures RootCause(root, sigs, faultType) == CauseRule(root, sigs, faultType)
  {
    ServiceInSome(sigs);
    hide HasServiceSignal;
    assert forall t :: root + ": " + t == root + (": " + t);
    if !HasServiceSignal(sigs) {
    } else if faultType != "" {
    } else {
      assert root + ": anomaly detected" == root + (": " + "anomaly detected");
    }
  }

  lemma EventFollowsRule(ev: CorrelatedEvent, group: seq<Signal>, faults: seq<FaultEvent>)
    requires group != [] && EventFor(ev, group, faults)
    ensures EventRule(ev, faults)
  {
    hide RootRule, RootOf, FaultRule, FaultTypeOf, IsAffected, AffectedRule, RootCause, CauseRule;
    RootFollowsRule(group, ev.startTs, faults);
    FaultFollowsRule(ev.rootService, ev.startTs, faults);
    AffectedFollowsRule(ev.affected, ev.rootService, group);
    CauseFollowsRule(ev.rootService, group, ev.faultType);
  }

  /** A lone signal is promoted to an event only if it is a DLQ signal. */
  predicate Promoted(g: seq<Signal>) { !(|g| == 1 && !IsDlqSignal(g[0])) }

  predicate Skipped(g: seq<Signal>) { !Promoted(g) }

  ghost predicate EventsFor(events: seq<CorrelatedEvent>, groups: seq<seq<Signal>>, faults: seq<FaultEvent>) {
    && |events| == |groups|
    && forall i :: 0 <= i < |groups| ==> groups[i] != [] && EventFor(events[i], groups[i], faults)
  }

  /** What Correlate may return, for the order `sorted` that the sort chose. */
  ghost predicate Correlates(active: seq<Signal>, sorted: seq<Signal>, faults: seq<FaultEvent>,
      events: seq<CorrelatedEvent>) {
    && SortedPermutation(sorted, active, ByTime)
    && EventsFor(events, Filter(Groups(sorted, GROUP_WINDOW), Promoted), faults)
  }

  /** The same, whatever that order was. */
  ghost predicate Correlated(active: seq<Signal>, faults: seq<FaultEvent>, events: seq<CorrelatedEvent>) {
    exists sorted :: Correlates(active, sorted, faults, events)
  }

  lemma OrderExists(active: seq<Signal>, sorted: seq<Signal>, faults: seq<FaultEvent>, events: seq<CorrelatedEvent>)
    requires Correlates(active, sorted, faults, events)
    ensures Correlated(active, faults, events)
  {
  }

  lemma {:induction false} FilterSplits(gs: seq<seq<Signal>>)
    ensures multiset(Flatten(Filter(gs, Promoted))) + multiset(Flatten(Filter(gs, Skipped))) == multiset(Flatten(gs))
  {
    if gs == [] {
    } else {
      var init, g := gs[..|gs| - 1], gs[|gs| - 1];
      FilterSplits(init);
      FlattenLast(Filter(init, Promoted), g);
      FlattenLast(Filter(init, Skipped), g);
      assert Filter(gs, Promoted) == if Promoted(g) then Filter(init, Promoted) + [g] else Filter(init, Promoted);
      assert Filter(gs, Skipped) == if Promoted(g) then Filter(init, Skipped) else Filter(init, Skipped) + [g];
      assert Flatten(gs) == Flatten(init) + g;
      hide Filter, Flatten, Promoted;
    }
  }

  function SignalsOf(events: seq<CorrelatedEvent>): seq<seq<Signal>> {
    seq(|events|, i requires 0 <= i < |events| => events[i].signals)
  }

  /** What a group must be to make an event. */
  predicate Worth(g: seq<Signal>) { |g| == 1 ==> g[0].metric.DlqDepth? }

  lemma {:induction false} FilterSame<T>(s: seq<T>, p: T -> bool, q: T -> bool)
    requires forall x :: p(x) == q(x)
    ensures Filter(s, p) == Filter(s, q)
  {
    if s == [] {
    } else {
      FilterSame(s[..|s| - 1], p, q);
    }
  }

  /** The events' signals are, in order, the groups of 10 s that have several
      signals or a DLQ signal. Every active signal is in exactly one event, except
      the lone signals that are not DLQ signals; nothing else is in an event. */
  lemma {:induction false} EventsPartitionSignals(active: seq<Signal>, sorted: seq<Signal>, faults: seq<FaultEvent>,
      events: seq<CorrelatedEvent>)
    requires Correlates(active, sorted, faults, events)
    ensures SignalsOf(events) == Filter(Groups(sorted, 10000), Worth)
    ensures var lone := Filter(Groups(sorted, 10000), Skipped);
      && multiset(Flatten(SignalsOf(events))) + multiset(Flatten(lone)) == multiset(active)
      && (forall g: seq<Signal> :: g in lone <==> g in Groups(sorted, 10000) && |g| == 1 && !g[0].metric.DlqDepth?)
  {
    var groups := Groups(sorted, GROUP_WINDOW);
    GroupsWellGrouped(sorted, GROUP_WINDOW);
    FilterSplits(groups);
    assert SignalsOf(events) == Filter(groups, Promoted);
    FilterSame(groups, Promoted, Worth);
  }

  /** Every event follows the rule. */
  lemma EventsFollowRule(active: seq<Signal>, sorted: seq<Signal>, faults: seq<FaultEvent>,
      events: seq<CorrelatedEvent>)
    requires Correlates(active, sorted, faults, events)
    ensures forall k :: 0 <= k < |events| ==> EventRule(events[k], faults)
  {
    hide EventFor, EventRule, Groups, Promoted, SortedPermutation;
    var groups := Filter(Groups(sorted, GROUP_WINDOW), Promoted);
    forall k | 0 <= k < |events| ensures EventRule(events[k], faults) {
      EventFollowsRule(events[k], groups[k], faults);
    }
  }

  /** Three group widths of signals give at most three events. */
  lemma {:induction false} AtMostThreeEvents(active: seq<Signal>, sorted: seq<Signal>, faults: seq<FaultEvent>,
      events: seq<CorrelatedEvent>, now: int)
    requires Correlates(active, sorted, faults, events)
    requires forall s :: s in active ==> now - SIGNAL_WINDOW <= s.ts <= now
    ensures |events| <= 3
  {
    PermutationMembers(sorted, active);
    AtMostThreeGroups(sorted, now - SIGNAL_WINDOW);
  }

  /** Each event's root is the service of an active signal, heads its own
      affected list, and its start is an active signal's time. */
  lemma {:induction false} EventRoots(active: seq<Signal>, sorted: seq<Signal>, faults: seq<FaultEvent>,
      events: seq<CorrelatedEvent>, k: nat)
    requires Correlates(active, sorted, faults, events) && k < |events|
    requires forall s :: s in active ==> Named(s)
    ensures NamesService(active, events[k].rootService)
    ensures events[k].rootService in events[k].affected
    ensures exists s :: s in active && s.ts == events[k].startTs
  {
    var groups := Groups(sorted, GROUP_WINDOW);
    var g := Filter(groups, Promoted)[k];
    assert g in Filter(groups, Promoted);
    var n :| 0 <= n < |groups| && groups[n] == g;
    GroupsWellGrouped(sorted, GROUP_WINDOW);
    PermutationMembers(sorted, active);
    forall s | s in g
      ensures s in active
    {
      FlattenHas(groups, n, s);
    }
    RootIsNamed(g, g[0].ts, faults);
    var i :| 0 <= i < |g| && ServiceForSignal(g[i]) == events[k].rootService;
    assert g[i] in g && g[0] in g;
    var j :| 0 <= j < |active| && active[j] == g[i];
  }

  // ----------------------------------------------------------- procedures

  method NominateRoot(sigs: seq<Signal>, start: int, faults: seq<FaultEvent>) returns (root: string)
    ensures root == RootOf(sigs, start, faults) && RootRule(sigs, start, faults, root)
  {
    RootFollowsRule(sigs, start, faults);
    hide RootRule;
    var evidence := FindEvidence(sigs, start, faults);
    if evidence.Some? {
      return evidence.value;
    }
    if !HasServiceSignal(sigs) {
      var owner := FindOwner(sigs);
      if owner.Some? {
        return owner.value;
      }
    }
    var best := Candidate("", UNKNOWN_DEPTH, 0);
    for k := 0 to |sigs|
      invariant best == Scan(sigs[..k])
    {
      assert sigs[..k + 1][..k] == sigs[..k];
      best := Better(best, sigs[k]);
    }
    assert sigs[..|sigs|] == sigs;
    root := best.service;
  }

  method FindEvidence(sigs: seq<Signal>, start: int, faults: seq<FaultEvent>) returns (r: Option<string>)
    ensures r == EvidenceRoot(faults, start, sigs)
  {
    for k := 0 to |faults|
      invariant EvidenceRoot(faults[..k], start, sigs) == None
    {
      assert faults[..k + 1][..k] == faults[..k];
      if Evidence(faults[k], start) && NamesService(sigs, faults[k].origin) {
        EvidenceStays(faults, k + 1, start, sigs);
        return Some(faults[k].origin);
      }
    }
    assert faults[..|faults|] == faults;
    r := None;
  }

  method FindOwner(sigs: seq<Signal>) returns (r: Option<string>)
    ensures r == FirstOwner(sigs)
  {
    for k := 0 to |sigs|
      invariant FirstOwner(sigs[..k]) == None
    {
      assert sigs[..k + 1][..k] == sigs[..k];
      if OwnedQueue(sigs[k]) {
        FirstOwnerStays(sigs, k + 1);
        return QueueOwner(sigs[k].queue);
      }
    }
    assert sigs[..|sigs|] == sigs;
    r := None;
  }

  lemma {:induction false} EvidenceStays(faults: seq<FaultEvent>, k: nat, start: int, sigs: seq<Signal>)
    requires k <= |faults| && EvidenceRoot(faults[..k], start, sigs).Some?
    ensures EvidenceRoot(faults, start, sigs) == EvidenceRoot(faults[..k], start, sigs)
  {
    if k == |faults| {
      assert faults[..k] == faults;
    } else {
      var f0 := faults[..|faults| - 1];
      assert f0[..k] == faults[..k];
      EvidenceStays(f0, k, start, sigs);
    }
  }

  lemma {:induction false} FirstOwnerStays(sigs: seq<Signal>, k: nat)
    requires k <= |sigs| && FirstOwner(sigs[..k]).Some?
    ensures FirstOwner(sigs) == FirstOwner(sigs[..k])
  {
    if k == |sigs| {
      assert sigs[..k] == sigs;
    } else {
      var s0 := sigs[..|sigs| - 1];
      assert s0[..k] == sigs[..k];
      FirstOwnerStays(s0, k);
    }
  }

  method BuildAffected(root: string, sigs: seq<Signal>) returns (out: seq<string>)
    ensures IsAffected(out, root, sigs)
  {
    var seen := {root};
    for k := 0 to |sigs|
      invariant forall x :: x in seen <==> x == root || (Downstream(root, x) && NamesService(sigs[..k], x))
    {
      var service := ServiceForSignal(sigs[k]);
      ghost var before := seen;
      if Downstream(root, service) {
        seen := seen + {service};
      }
      forall x ensures NamesService(sigs[..k + 1], x) <==> NamesService(sigs[..k], x) || x == service {
        NamesSnoc(sigs, k, x);
      }
    }
    assert sigs[..|sigs|] == sigs;
    var list := SetToSeq(seen);
    StringLePreorder();
    out := Sort(list, StringLe);
    PermutationMembers(out, list);
    PermutationDistinct(out, list);
  }

  lemma NamesSnoc(sigs: seq<Signal>, k: nat, x: string)
    requires k < |sigs|
    ensures NamesService(sigs[..k + 1], x) <==> NamesService(sigs[..k], x) || x == ServiceForSignal(sigs[k])
  {
    hide ServiceForSignal;
    var a, b := sigs[..k], sigs[..k + 1];
    if NamesService(b, x) {
      var i :| 0 <= i < |b| && ServiceForSignal(b[i]) == x;
      if i < k { assert a[i] == b[i]; }
    }
    if NamesService(a, x) {
      var i :| 0 <= i < |a| && ServiceForSignal(a[i]) == x;
      assert b[i] == a[i];
    }
    assert b[k] == sigs[k];
  }

  method SetToSeq(xs: set<string>) returns (out: seq<string>)
    ensures forall i, j :: 0 <= i < j < |out| ==> out[i] != out[j]
    ensures forall x :: x in out <==> x in xs
  {
    var left := xs;
    out := [];
    while left != {}
      invariant left <= xs
      invariant forall i, j :: 0 <= i < j < |out| ==> out[i] != out[j]
      invariant forall x :: x in xs <==> x in left || x in out
      invariant forall x :: x in left ==> x !in out
      decreases left
    {
      var x :| x in left;
      left := left - {x};
      out := out + [x];
    }
  }

  method MatchFaultType(root: string, start: int, faults: seq<FaultEvent>) returns (faultType: string)
    ensures faultType == FaultTypeOf(root, start, faults)
  {
    for k := 0 to |faults|
      invariant FaultTypeOf(root, start, faults[k..]) == FaultTypeOf(root, start, faults)
    {
      assert faults[k..][1..] == faults[k + 1..];
      if MatchesFault(faults[k], root, start) {
        return faults[k].faultType;
      }
    }
    faultType := "";
  }

  method BuildEvent(group: seq<Signal>, faults: seq<FaultEvent>) returns (ev: CorrelatedEvent)
    requires group != []
    ensures EventFor(ev, group, faults) && EventRule(ev, faults)
  {
    hide EventRule;
    var start := group[0].ts;
    var root := NominateRoot(group, start, faults);
    var affected := BuildAffected(root, group);
    var faultType := MatchFaultType(root, start, faults);
    var cause := RootCause(root, group, faultType);
    ev := CorrelatedEvent(start, root, cause, faultType, affected, group,
      [TimelineEvent(start, "anomaly detected: " + cause)]);
    EventFollowsRule(ev, group, faults);
  }

  lemma GroupsSnoc(s: seq<Signal>, i: nat)
    requires i < |s|
    ensures Groups(s[..i + 1], GROUP_WINDOW) == AddToGroups(Groups(s[..i], GROUP_WINDOW), s[i], GROUP_WINDOW)
    ensures i == 0 ==> Groups(s[..i + 1], GROUP_WINDOW) == [[s[0]]]
  {
    assert s[..i + 1][..i] == s[..i];
  }

  lemma AddToLast(groups: seq<seq<Signal>>, current: seq<Signal>, s: Signal)
    requires |current| > 0 && NonEmptyGroups(groups + [current])
    ensures AddToGroups(groups + [current], s, GROUP_WINDOW)
            == if s.ts - current[0].ts <= GROUP_WINDOW then groups + [current + [s]] else (groups + [current]) + [[s]]
  {
    var gs := groups + [current];
    assert gs[|gs| - 1] == current && gs[..|gs| - 1] == groups;
  }

  lemma ByTimePreorder()
    ensures TotalPreorder(ByTime)
  {
  }

  /** The active set lives in a growable buffer whose live part is buf[..len]. */
  class Correlator {
    var buf: array<Signal>
    var len: nat

    ghost predicate Valid()
      reads this
    {
      len <= buf.Length
    }

    ghost function Active(): seq<Signal>
      requires Valid()
      reads this, buf
    {
      buf[..len]
    }

    constructor ()
      ensures Valid() && fresh(buf) && Active() == []
    {
      buf := new Signal[0];
      len := 0;
    }

    /** Filters in place: survivors slide down over the pruned entries while the
        scan reads ahead of the writes. */
    method SlideDown(cutoff: int, ghost was: seq<Signal>) returns (kept: nat, ghost out: seq<Signal>)
      requires len <= buf.Length && |was| == len && forall j :: 0 <= j < len ==> buf[j] == was[j]
      modifies buf
      ensures kept == |out| <= len && forall j :: 0 <= j < kept ==> buf[j] == out[j]
      ensures out == Prune(was, cutoff)
    {
      hide *;
      PruneNone(was, cutoff);
      kept, out := 0, [];
      for i := 0 to len
        invariant kept == |out| <= i
        invariant forall j :: i <= j < len ==> buf[j] == was[j]
        invariant forall j :: 0 <= j < kept ==> buf[j] == out[j]
        invariant out == Prune(was[..i], cutoff)
      {
        PruneSnoc(was, i, cutoff);
        if buf[i].ts >= cutoff {
          buf[kept] := buf[i];
          out := out + [was[i]];
          kept := kept + 1;
        }
      }
      assert was[..|was|] == was;
    }

    method PruneInPlace(cutoff: int)
      requires Valid()
      modifies `len, buf
      ensures Valid() && Active() == Prune(old(Active()), cutoff)
    {
      ghost var out;
      len, out := SlideDown(cutoff, Active());
      assert buf[..len] == out;
    }

    method Append(s: Signal)
      requires Valid()
      modifies this, buf
      ensures Valid() && (buf == old(buf) || fresh(buf))
      ensures Active() == old(Active()) + [s]
    {
      if len == buf.Length {
        var bigger := new Signal[2 * len + 1];
        for i := 0 to len
          invariant len == old(len) && buf == old(buf) && buf[..] == old(buf[..])
          invariant bigger[..i] == buf[..i]
        {
          bigger[i] := buf[i];
        }
        buf := bigger;
      }
      buf[len] := s;
      len := len + 1;
    }

    /** Merges one signal: replaces the entry of its key unless that one is
        strictly stronger, and appends when the key is new. */
    method Merge(s: Signal)
      requires Valid()
      modifies this, buf
      ensures Valid() && (buf == old(buf) || fresh(buf))
      ensures Active() == MergeOne(old(Active()), s)
    {
      hide SignalKey, FindKey;
      var key := SignalKey(s);
      for i := 0 to len
        invariant forall j :: 0 <= j < i ==> SignalKey(buf[j]) != key
      {
        if SignalKey(buf[i]) == key {
          FindKeyIs(Active(), key, i);
          if Abs(s.score) >= Abs(buf[i].score) {
            buf[i] := s;
          }
          return;
        }
      }
      FindKeyIs(Active(), key, len);
      Append(s);
    }

    method AddSignals(now: int, signals: seq<Signal>)
      requires Valid()
      modifies this, buf
      ensures Valid() && (buf == old(buf) || fresh(buf))
      ensures Active() == Updated(old(Active()), now, signals)
      ensures Remembers(Active(), old(Active()), now, signals)
    {
      UpdateRemembers(Active(), now, signals);
      PruneInPlace(now - SIGNAL_WINDOW);
      ghost var pruned := Active();
      for i := 0 to |signals|
        invariant Valid() && (buf == old(buf) || fresh(buf))
        invariant Active() == MergeAll(pruned, signals[..i])
      {
        assert signals[..i + 1][..i] == signals[..i];
        Merge(signals[i]);
      }
      assert signals[..|signals|] == signals;
    }

    /** A copy of the active set. */
    method ActiveSignals() returns (out: seq<Signal>)
      requires Valid()
      ensures out == Active()
    {
      out := buf[..len];
    }

    /** The greedy pass over the sorted copy. */
    method GroupByTime(sorted: seq<Signal>) returns (groups: seq<seq<Signal>>)
      ensures groups == Groups(sorted, GROUP_WINDOW)
    {
      groups := [];
      var current: seq<Signal> := [];
      var groupStart := 0;
      for i := 0 to |sorted|
        invariant i == 0 ==> current == [] && groups == []
        invariant i > 0 ==> |current| > 0 && groupStart == current[0].ts
        invariant i > 0 ==> groups + [current] == Groups(sorted[..i], GROUP_WINDOW)
      {
        GroupsSnoc(sorted, i);
        var s := sorted[i];
        if |current| == 0 {
          current := [s];
          groupStart := s.ts;
        } else {
          AddToLast(groups, current, s);
          if s.ts - groupStart <= GROUP_WINDOW {
            current := current + [s];
          } else {
            groups := groups + [current];
            current := [s];
            groupStart := s.ts;
          }
        }
      }
      assert sorted[..|sorted|] == sorted;
      if |current| > 0 {
        groups := groups + [current];
      }
    }

    /** One event for every group that is not a lone non-DLQ signal. */
    method BuildEvents(groups: seq<seq<Signal>>, faults: seq<FaultEvent>) returns (events: seq<CorrelatedEvent>)
      requires forall i :: 0 <= i < |groups| ==> |groups[i]| > 0
      ensures EventsFor(events, Filter(groups, Promoted), faults)
    {
      events := [];
      for k := 0 to |groups|
        invariant EventsFor(events, Filter(groups[..k], Promoted), faults)
      {
        assert groups[..k + 1][..k] == groups[..k];
        if |groups[k]| == 1 && !IsDlqSignal(groups[k][0]) {
          continue;
        }
        var ev := BuildEvent(groups[k], faults);
        events := events + [ev];
      }
      assert groups[..|groups|] == groups;
    }

    method Correlate(faults: seq<FaultEvent>) returns (events: seq<CorrelatedEvent>, ghost sorted: seq<Signal>)
      requires Valid()
      ensures Correlates(Active(), sorted, faults, events)
      ensures Correlated(Active(), faults, events)
      ensures forall k :: 0 <= k < |events| ==> EventRule(events[k], faults)
    {
      var copied := buf[..len];
      ByTimePreorder();
      var order := Sort(copied, ByTime);
      sorted := order;
      var groups := GroupByTime(order);
      GroupsWellGrouped(order, GROUP_WINDOW);
      events := BuildEvents(groups, faults);
      OrderExists(Active(), order, faults, events);
      EventsFollowRule(Active(), order, faults, events);
    }
  }
}
