/** What the transition tables imply over whole deliveries: how far a row can move, and which
    deliveries end in the same state whatever their order. */
module Convergence {
  import opened Prelude
  import opened Canonical
  import opened Projection
  import opened Runs

  // ----- How far a row can move -----

  function CountTarget(trace: seq<EntityEvent>, target: State): nat {
    if trace == [] then 0
    else CountTarget(Front(trace), target) + if Target(Last(trace)) == target then 1 else 0
  }

  /** The versions a shipment row can reach in a state before it meets an exception. */
  function Rank(s: ShipmentState): nat {
    match s
    case PickedUp => 1
    case InTransit => 2
    case OutForDelivery => 3
    case Exception => 1
    case Delivered => 4
    case Cancelled => 4
  }

  lemma RankGrows(c: ShipmentState, t: ShipmentState)
    requires t in ShipmentTransitions(Some(c))
    ensures Rank(c) + 1 <= Rank(t) + if t == Exception then 3 else 0
  {
  }

  lemma {:induction false} ShipmentVersionByState(key: EntityKey, evs: seq<EntityEvent>)
    requires For(evs, key) && key.entityType == ShipmentEntity && evs != []
    ensures var l := Run(key, evs);
            && l.row.Some? && l.row.value.state.OfShipment?
            && l.row.value.version
                 <= Rank(l.row.value.state.shipment) + 3 * CountTarget(Trace(key, evs), OfShipment(Exception))
  {
    Conservation(key, evs);
    var before := Front(evs);
    if before != [] {
      ShipmentVersionByState(key, before);
      RowShowsTrace(key, before);
    }
    if Trace(key, evs) != Trace(key, before) {
      assert Front(Trace(key, evs)) == Trace(key, before);
      if before != [] {
        RankGrows(Run(key, before).row.value.state.shipment, Target(Last(evs)).shipment);
      }
    }
  }

  /** Only exceptions let a shipment row go round: its version is at most four plus three for each
      exception that was applied. */
  lemma {:induction false} ShipmentVersionBound(key: EntityKey, evs: seq<EntityEvent>)
    requires For(evs, key) && key.entityType == ShipmentEntity
    ensures Version(Run(key, evs)) <= 4 + 3 * CountTarget(Trace(key, evs), OfShipment(Exception))
  {
    if evs != [] {
      ShipmentVersionByState(key, evs);
    }
  }

  /** PICKED_UP can only be the first state of a shipment. */
  lemma PickedUpIsNeverReentered(key: EntityKey, evs: seq<EntityEvent>)
    requires For(evs, key) && key.entityType == ShipmentEntity
    ensures var trace := Trace(key, evs);
            forall i :: 0 < i < |trace| ==> Target(trace[i]) != OfShipment(PickedUp)
  {
    RowShowsTrace(key, evs);
  }

  predicate TerminalShipment(row: Row) {
    row.state == OfShipment(Delivered) || row.state == OfShipment(Cancelled)
  }

  /** Once a shipment row is DELIVERED or CANCELLED, no column of it ever changes again. */
  lemma {:induction false} TerminalShipmentRowIsFrozen(key: EntityKey, evs: seq<EntityEvent>, upTo: nat)
    requires For(evs, key) && key.entityType == ShipmentEntity && upTo <= |evs|
    requires For(evs[..upTo], key)
    requires Run(key, evs[..upTo]).row.Some? && TerminalShipment(Run(key, evs[..upTo]).row.value)
    ensures Run(key, evs).row == Run(key, evs[..upTo]).row
    decreases |evs|
  {
    if upTo == |evs| {
      assert evs[..upTo] == evs;
    } else {
      assert Front(evs)[..upTo] == evs[..upTo];
      TerminalShipmentRowIsFrozen(key, Front(evs), upTo);
    }
  }

  function StateChanges(trace: seq<EntityEvent>): nat {
    if |trace| < 2 then 0
    else StateChanges(Front(trace)) + if Target(Last(trace)) != Target(Last(Front(trace))) then 1 else 0
  }

  lemma {:induction false} InvoiceChangesByState(key: EntityKey, evs: seq<EntityEvent>)
    requires For(evs, key) && key.entityType == InvoiceEntity && evs != []
    ensures var l, changes := Run(key, evs), StateChanges(Trace(key, evs));
            && l.row.Some? && l.row.value.state.OfInvoice?
            && changes <= match l.row.value.state.invoice
                          case Issued => 0
                          case Paid => 1
                          case Voided => 1
                          case Refunded => 2
  {
    Conservation(key, evs);
    var before := Front(evs);
    if before != [] {
      InvoiceChangesByState(key, before);
      RowShowsTrace(key, before);
      Conservation(key, before);
    }
    if Trace(key, evs) != Trace(key, before) {
      assert Front(Trace(key, evs)) == Trace(key, before);
    }
  }

  /** After its first event an invoice changes state at most twice. */
  lemma InvoiceChangesAtMostTwice(key: EntityKey, evs: seq<EntityEvent>)
    requires For(evs, key) && key.entityType == InvoiceEntity
    ensures StateChanges(Trace(key, evs)) <= 2
  {
    if evs != [] {
      InvoiceChangesByState(key, evs);
    }
  }

  // ----- The bounds are reached -----

  /** An id that no shorter delivery uses. */
  function Tally(n: nat): EventId {
    seq(n, _ => 'x')
  }

  /** A delivery of simultaneous events with the ids that count up. */
  predicate Counted(key: EntityKey, evs: seq<EntityEvent>) {
    forall i :: 0 <= i < |evs| ==> Key(evs[i]) == key && evs[i].eventId == Tally(i) && evs[i].ts == 0
  }

  /** One more simultaneous event that the row accepts moves it. */
  lemma OneMoreState(key: EntityKey, evs: seq<EntityEvent>, target: State) returns (longer: seq<EntityEvent>)
    requires Counted(key, evs) && (target.OfShipment? <==> key.entityType == ShipmentEntity)
    requires evs != [] ==> Run(key, evs).row.Some? && Accepts(Run(key, evs).row.value.state, target)
    requires evs != [] ==> Run(key, evs).row.value.lastTs == 0
    ensures Counted(key, longer) && |longer| == |evs| + 1
    ensures Trace(key, longer) == Trace(key, evs) + [longer[|evs|]] && Target(longer[|evs|]) == target
    ensures Run(key, longer).row.Some? && Run(key, longer).row.value.state == target
    ensures Run(key, longer).row.value.lastTs == 0
  {
    var ev := EventFor(key, Tally(|evs|), target);
    longer := evs + [ev];
    RunSnoc(key, evs, ev);
    RecordedIds(key, evs);
    assert Front(longer) == evs && Last(longer) == ev;
    Conservation(key, evs);
    forall i | 0 <= i < |evs|
      ensures evs[i].eventId != Tally(|evs|)
    {
      assert |evs[i].eventId| == i;
    }
    assert Tally(|evs|) !in Ids(evs);
  }

  lemma CountSnoc(trace: seq<EntityEvent>, ev: EntityEvent, target: State)
    ensures CountTarget(trace + [ev], target) ==
            CountTarget(trace, target) + if Target(ev) == target then 1 else 0
  {
    assert Front(trace + [ev]) == trace;
  }

  /** What has been picked up, or has had an exception, can go on its way and out for delivery. */
  lemma OnItsWay(key: EntityKey, start: seq<EntityEvent>) returns (evs: seq<EntityEvent>)
    requires key.entityType == ShipmentEntity
    requires Counted(key, start) && Run(key, start).row.Some? && Run(key, start).row.value.lastTs == 0
    requires Run(key, start).row.value.state in {OfShipment(PickedUp), OfShipment(Exception)}
    ensures Counted(key, evs) && Run(key, evs).row.Some? && Run(key, evs).row.value.lastTs == 0
    ensures Run(key, evs).row.value.state == OfShipment(OutForDelivery)
    ensures |Trace(key, evs)| == |Trace(key, start)| + 2
    ensures CountTarget(Trace(key, evs), OfShipment(Exception)) == CountTarget(Trace(key, start), OfShipment(Exception))
  {
    var moving := OneMoreState(key, start, OfShipment(InTransit));
    evs := OneMoreState(key, moving, OfShipment(OutForDelivery));
    CountSnoc(Trace(key, start), Last(moving), OfShipment(Exception));
    CountSnoc(Trace(key, moving), Last(evs), OfShipment(Exception));
  }

  /** A delivery that goes round `k` times and stands out for delivery. */
  lemma {:induction false} RoundTrips(key: EntityKey, k: nat) returns (evs: seq<EntityEvent>)
    requires key.entityType == ShipmentEntity
    ensures Counted(key, evs) && Run(key, evs).row.Some? && Run(key, evs).row.value.lastTs == 0
    ensures Run(key, evs).row.value.state == OfShipment(OutForDelivery) && |Trace(key, evs)| == 3 + 3 * k
    ensures CountTarget(Trace(key, evs), OfShipment(Exception)) == k
  {
    var before := [];
    if k > 0 {
      before := RoundTrips(key, k - 1);
    }
    var start := OneMoreState(key, before, OfShipment(if k == 0 then PickedUp else Exception));
    CountSnoc(Trace(key, before), Last(start), OfShipment(Exception));
    evs := OnItsWay(key, start);
  }

  /** The version bound cannot be lowered: for every number of exceptions a delivery reaches it. */
  lemma VersionBoundIsReached(key: EntityKey, k: nat) returns (evs: seq<EntityEvent>)
    requires key.entityType == ShipmentEntity
    ensures For(evs, key) && Version(Run(key, evs)) == 4 + 3 * k
    ensures CountTarget(Trace(key, evs), OfShipment(Exception)) == k
  {
    var before := RoundTrips(key, k);
    evs := OneMoreState(key, before, OfShipment(Delivered));
    CountSnoc(Trace(key, before), Last(evs), OfShipment(Exception));
    Conservation(key, evs);
  }

  /** Neither can that of an invoice: it may be issued, paid and refunded. */
  lemma InvoiceChangesAreReached(key: EntityKey) returns (evs: seq<EntityEvent>)
    requires key.entityType == InvoiceEntity
    ensures For(evs, key) && StateChanges(Trace(key, evs)) == 2
  {
    var issued := OneMoreState(key, [], OfInvoice(Issued));
    var paid := OneMoreState(key, issued, OfInvoice(Paid));
    evs := OneMoreState(key, paid, OfInvoice(Refunded));
    ChangesCount(Trace(key, issued), Last(paid));
    ChangesCount(Trace(key, paid), Last(evs));
  }

  lemma ChangesCount(trace: seq<EntityEvent>, ev: EntityEvent)
    requires trace != [] && Target(Last(trace)) != Target(ev)
    ensures StateChanges(trace + [ev]) == StateChanges(trace) + 1
  {
    assert Front(trace + [ev]) == trace;
  }

  // ----- Convergence under reordering -----

  /** Content-addressed ids: one id, one event. */
  predicate OneEventPerId(evs: seq<EntityEvent>) {
    forall i, j :: 0 <= i < |evs| && 0 <= j < |evs| && evs[i].eventId == evs[j].eventId ==> evs[i] == evs[j]
  }

  predicate TargetsIn(evs: seq<EntityEvent>, states: set<State>) {
    forall i :: 0 <= i < |evs| ==> Target(evs[i]) in states
  }

  /** Event `i` is for `target` and no event of the delivery is later. */
  predicate LatestFor(evs: seq<EntityEvent>, i: int, target: State) {
    && 0 <= i < |evs| && Target(evs[i]) == target
    && forall j :: 0 <= j < |evs| ==> evs[j].ts <= evs[i].ts
  }

  /** Every delivery of events for `states` in which some event for `target` is among the latest ends in
      `target`, however it is ordered and whatever it repeats. */
  ghost predicate Converges(key: EntityKey, target: State, states: set<State>) {
    forall evs: seq<EntityEvent>, i: int ::
      For(evs, key) && OneEventPerId(evs) && TargetsIn(evs, states) && LatestFor(evs, i, target) ==>
        Run(key, evs).row.Some? && Run(key, evs).row.value.state == target
  }

  /** A condition on the transition table alone: every other state can move to `target` and `target` can
      move to none of them. */
  predicate Dominates(target: State, states: set<State>) {
    forall s :: s in states && s != target ==> Accepts(s, target) && !Accepts(target, s)
  }

  predicate KindIs(key: EntityKey, states: set<State>) {
    forall s :: s in states ==> (s.OfShipment? <==> key.entityType == ShipmentEntity)
  }

  lemma {:induction false} DominantStateAbsorbs(
    key: EntityKey, evs: seq<EntityEvent>, best: EntityEvent, states: set<State>)
    requires For(evs, key) && Key(best) == key && TargetsIn(evs, states)
    requires Dominates(Target(best), states) && Target(best) in states && KindIs(key, states)
    requires forall j :: 0 <= j < |evs| ==> evs[j].ts <= best.ts
    requires forall j :: 0 <= j < |evs| && evs[j].eventId == best.eventId ==> evs[j] == best
    ensures var row := Run(key, evs).row;
            && (row.Some? ==> row.value.state in states && row.value.lastTs <= best.ts)
            && (best.eventId in Ids(evs) ==> row.Some? && row.value.state == Target(best))
  {
    if evs != [] {
      DominantStateAbsorbs(key, Front(evs), best, states);
      RecordedIds(key, Front(evs));
      IdsSnoc(evs);
    }
  }

  lemma DominanceConverges(key: EntityKey, target: State, states: set<State>)
    requires target in states && KindIs(key, states) && Dominates(target, states)
    ensures Converges(key, target, states)
  {
    forall evs: seq<EntityEvent>, i: int
      | For(evs, key) && OneEventPerId(evs) && TargetsIn(evs, states) && LatestFor(evs, i, target)
      ensures Run(key, evs).row.Some? && Run(key, evs).row.value.state == target
    {
      DominantStateAbsorbs(key, evs, evs[i], states);
      IdsContain(evs);
    }
  }

  function ShipmentTypeFor(s: ShipmentState): (t: ShipmentEventType)
    ensures ShipmentEventToState(t) == s
  {
    match s
    case PickedUp => ShipmentPickedUp
    case InTransit => ShipmentInTransit
    case OutForDelivery => ShipmentOutForDelivery
    case Delivered => ShipmentDelivered
    case Exception => ShipmentException
    case Cancelled => ShipmentCancelled
  }

  function InvoiceTypeFor(s: InvoiceState): (t: InvoiceEventType)
    ensures InvoiceEventToState(t) == s
  {
    match s
    case Issued => InvoiceIssued
    case Paid => InvoicePaid
    case Voided => InvoiceVoided
    case Refunded => InvoiceRefunded
  }

  /** An event for a given state. */
  function EventFor(key: EntityKey, id: EventId, target: State): (ev: EntityEvent)
    requires target.OfShipment? <==> key.entityType == ShipmentEntity
    ensures Key(ev) == key && Target(ev) == target && ev.eventId == id && ev.ts == 0
  {
    if target.OfShipment? then
      ShipmentEvent(id, key.vendorId, key.externalId, 0, map[], ShipmentTypeFor(target.shipment), None)
    else
      assert key.entityType == InvoiceEntity;
      InvoiceEvent(id, key.vendorId, key.externalId, 0, map[], InvoiceTypeFor(target.invoice), None, None)
  }

  lemma TwoEventRun(key: EntityKey, a: EntityEvent, b: EntityEvent)
    requires Key(a) == key && Key(b) == key && a.eventId != b.eventId && a.ts == b.ts
    ensures For([a, b], key)
    ensures Run(key, [a, b]).row.Some?
    ensures Run(key, [a, b]).row.value.state == if Accepts(Target(a), Target(b)) then Target(b) else Target(a)
  {
    RunSnoc(key, [], a);
    RunSnoc(key, [a], b);
    assert [] + [a] == [a];
    assert [a] + [b] == [a, b];
  }

  /** A converging pair of simultaneous events ends in the target. */
  lemma TwoEventsConverge(key: EntityKey, a: EntityEvent, b: EntityEvent, i: int, target: State, states: set<State>)
    requires Converges(key, target, states) && Key(a) == key && Key(b) == key
    requires a.eventId != b.eventId && a.ts == b.ts && Target(a) in states && Target(b) in states
    requires (i == 0 && Target(a) == target) || (i == 1 && Target(b) == target)
    ensures (if Accepts(Target(a), Target(b)) then Target(b) else Target(a)) == target
  {
    TwoEventRun(key, a, b);
    assert LatestFor([a, b], i, target) && TargetsIn([a, b], states) && OneEventPerId([a, b]);
  }

  /** A state that is not dominant is lost in one of the two orders of two simultaneous events. */
  lemma ConvergenceDominates(key: EntityKey, target: State, states: set<State>)
    requires target in states && KindIs(key, states) && Converges(key, target, states)
    ensures Dominates(target, states)
  {
    forall s | s in states && s != target
      ensures Accepts(s, target) && !Accepts(target, s)
    {
      var other, best := EventFor(key, "other", s), EventFor(key, "best", target);
      TwoEventsConverge(key, other, best, 1, target, states);
      TwoEventsConverge(key, best, other, 0, target, states);
    }
  }

  /** Exactly when order and repetition cannot matter to the final state. */
  lemma ConvergesIffDominates(key: EntityKey, target: State, states: set<State>)
    requires target in states && KindIs(key, states)
    ensures Converges(key, target, states) <==> Dominates(target, states)
  {
    if Dominates(target, states) {
      DominanceConverges(key, target, states);
    }
    if Converges(key, target, states) {
      ConvergenceDominates(key, target, states);
    }
  }

  const NEVER_CANCELLED :=
    {OfShipment(PickedUp), OfShipment(InTransit), OfShipment(OutForDelivery), OfShipment(Exception),
     OfShipment(Delivered)}

  /** A shipment that is never cancelled and whose delivery is among its latest events ends DELIVERED;
      with CANCELLED among its events the same promise fails. */
  lemma DeliveredWins(key: EntityKey)
    requires key.entityType == ShipmentEntity
    ensures Converges(key, OfShipment(Delivered), NEVER_CANCELLED)
    ensures !Converges(key, OfShipment(Delivered), NEVER_CANCELLED + {OfShipment(Cancelled)})
  {
    DominanceConverges(key, OfShipment(Delivered), NEVER_CANCELLED);
    CancelledIsNotOverruled(key);
  }

  lemma CancelledIsNotOverruled(key: EntityKey)
    requires key.entityType == ShipmentEntity
    ensures !Converges(key, OfShipment(Delivered), NEVER_CANCELLED + {OfShipment(Cancelled)})
  {
    var states := NEVER_CANCELLED + {OfShipment(Cancelled)};
    ConvergesIffDominates(key, OfShipment(Delivered), states);
    assert OfShipment(Cancelled) in states && !Accepts(OfShipment(Cancelled), OfShipment(Delivered));
  }

  /** An invoice with only ISSUED and VOIDED events whose voiding is among the latest ends VOIDED, and likewise
      PAID over ISSUED and REFUNDED over PAID. With ISSUED, PAID and REFUNDED all possible even REFUNDED is not
      safe: it is rejected while the invoice is ISSUED. */
  lemma VoidedWins(key: EntityKey)
    requires key.entityType == InvoiceEntity
    ensures Converges(key, OfInvoice(Voided), {OfInvoice(Issued), OfInvoice(Voided)})
    ensures Converges(key, OfInvoice(Paid), {OfInvoice(Issued), OfInvoice(Paid)})
    ensures Converges(key, OfInvoice(Refunded), {OfInvoice(Paid), OfInvoice(Refunded)})
    ensures !Converges(key, OfInvoice(Refunded), {OfInvoice(Issued), OfInvoice(Paid), OfInvoice(Refunded)})
  {
    DominanceConverges(key, OfInvoice(Voided), {OfInvoice(Issued), OfInvoice(Voided)});
    DominanceConverges(key, OfInvoice(Paid), {OfInvoice(Issued), OfInvoice(Paid)});
    DominanceConverges(key, OfInvoice(Refunded), {OfInvoice(Paid), OfInvoice(Refunded)});
    RefundedIsNotSafe(key);
  }

  lemma RefundedIsNotSafe(key: EntityKey)
    requires key.entityType == InvoiceEntity
    ensures !Converges(key, OfInvoice(Refunded), {OfInvoice(Issued), OfInvoice(Paid), OfInvoice(Refunded)})
  {
    var states := {OfInvoice(Issued), OfInvoice(Paid), OfInvoice(Refunded)};
    ConvergesIffDominates(key, OfInvoice(Refunded), states);
    assert OfInvoice(Issued) in states && !Accepts(OfInvoice(Issued), OfInvoice(Refunded));
  }
}
