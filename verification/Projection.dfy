/** What one event does to one entity: the two transition tables, the projection row, and the
    step that a transaction of the engine makes on the rows of a single entity. */
module Projection {
  import opened Prelude
  import opened Canonical

  /** `SHIPMENT_TRANSITIONS`. */
  function ShipmentTransitions(current: Option<ShipmentState>): set<ShipmentState> {
    match current
    case None => {PickedUp, InTransit, OutForDelivery, Delivered, Exception, Cancelled}
    case Some(PickedUp) => {InTransit, OutForDelivery, Delivered, Exception, Cancelled}
    case Some(InTransit) => {OutForDelivery, Delivered, Exception, Cancelled}
    case Some(OutForDelivery) => {Delivered, Exception}
    case Some(Exception) => {InTransit, OutForDelivery, Delivered, Cancelled}
    case Some(Delivered) => {}
    case Some(Cancelled) => {}
  }

  /** `INVOICE_TRANSITIONS`. */
  function InvoiceTransitions(current: Option<InvoiceState>): set<InvoiceState> {
    match current
    case None => {Issued, Paid, Voided, Refunded}
    case Some(Issued) => {Paid, Voided}
    case Some(Paid) => {Refunded}
    case Some(Voided) => {}
    case Some(Refunded) => {}
  }

  /** The guard that decides whether a row in state `current` takes an event for `target`: a shipment
      consults its table alone, an invoice also takes its own state again. */
  predicate Accepts(current: State, target: State) {
    match (current, target)
    case (OfShipment(c), OfShipment(t)) => t in ShipmentTransitions(Some(c))
    case (OfInvoice(c), OfInvoice(t)) => t in InvoiceTransitions(Some(c)) || t == c
    case _ => false
  }

  /** The columns in which the two projection tables differ. */
  datatype Columns =
    | ShipmentColumns(location: Option<Location>)
    | InvoiceColumns(currency: Option<string>, amountMinor: Option<int>, dueAt: Option<Instant>)

  /** A row of `shipments` or `invoices`; `refs` is `reference_ids` or `linked_references`. */
  datatype Row = Row(vendorId: string, externalId: string, state: State, lastEventId: EventId, lastTs: Instant,
                     version: int, refs: Refs, columns: Columns)

  /** A row of the right table, naming the entity `key`. */
  predicate RowOf(row: Row, key: EntityKey) {
    && row.vendorId == key.vendorId
    && row.externalId == key.externalId
    && row.version >= 1
    && (key.entityType == ShipmentEntity <==> row.columns.ShipmentColumns?)
    && (key.entityType == ShipmentEntity <==> row.state.OfShipment?)
  }

  function LocationOf(ev: EntityEvent): Option<Location> {
    if ev.ShipmentEvent? then ev.location else None
  }

  function AmountOf(ev: EntityEvent): Option<Money> {
    if ev.InvoiceEvent? then ev.amount else None
  }

  function DueAtOf(ev: EntityEvent): Option<Instant> {
    if ev.InvoiceEvent? then ev.dueAt else None
  }

  function Currency(amount: Option<Money>): Option<string> {
    if amount.Some? then Some(amount.value.currency) else None
  }

  function AmountMinor(amount: Option<Money>): Option<int> {
    if amount.Some? then Some(amount.value.amountMinor) else None
  }

  function InitialColumns(ev: EntityEvent): Columns {
    if ev.ShipmentEvent? then ShipmentColumns(ev.location)
    else InvoiceColumns(Currency(ev.amount), AmountMinor(ev.amount), ev.dueAt)
  }

  /** `COALESCE(new, old)` on each column. */
  function MergedColumns(columns: Columns, ev: EntityEvent): Columns {
    match columns
    case ShipmentColumns(location) => ShipmentColumns(Coalesce(LocationOf(ev), location))
    case InvoiceColumns(currency, amountMinor, dueAt) =>
      InvoiceColumns(Coalesce(Currency(AmountOf(ev)), currency), Coalesce(AmountMinor(AmountOf(ev)), amountMinor),
                     Coalesce(DueAtOf(ev), dueAt))
  }

  /** The row that `INSERT ... ON CONFLICT (entity_id) DO NOTHING` writes for a first event. */
  function InitialRow(ev: EntityEvent): Row {
    Row(ev.vendorId, ev.externalId, Target(ev), ev.eventId, ev.ts, 1, ev.refs, InitialColumns(ev))
  }

  /** The two `UPDATE` statements: an event for the state the row is already in records its time and
      references only. */
  function UpdatedRow(row: Row, ev: EntityEvent): Row {
    Row(row.vendorId, row.externalId, Target(ev), ev.eventId, ev.ts, row.version + 1, row.refs + ev.refs,
        if Target(ev) == row.state then row.columns else MergedColumns(row.columns, ev))
  }

  /** A row of `stale_event_log`. */
  datatype Stale =
    | OlderThanLastApplied(eventId: EventId, current: State, currentTs: Instant, eventTs: Instant)
    | DisallowedTransition(eventId: EventId, current: State, target: State)

  datatype Outcome =
    | Applied | AppliedInitial | AlreadyApplied | StaleSkipped | TransitionRejected | UnclassifiedRecorded

  /** What the transaction decides once it holds the row lock. */
  function Decide(row: Row, ev: EntityEvent): Outcome {
    if ev.ts < row.lastTs then StaleSkipped
    else if !Accepts(row.state, Target(ev)) then TransitionRejected
    else Applied
  }

  function StaleEntry(row: Row, ev: EntityEvent): Stale
    requires Decide(row, ev) != Applied
  {
    if ev.ts < row.lastTs then OlderThanLastApplied(ev.eventId, row.state, row.lastTs, ev.ts)
    else DisallowedTransition(ev.eventId, row.state, Target(ev))
  }

  /** Everything the projection tables hold about one entity. */
  datatype Ledger = Ledger(applied: map<EventId, State>, row: Option<Row>, stale: seq<Stale>)

  const EMPTY := Ledger(map[], None, [])

  predicate LedgerOf(l: Ledger, key: EntityKey) {
    l.row.Some? ==> RowOf(l.row.value, key)
  }

  /** One event against its entity. */
  function Step(l: Ledger, ev: EntityEvent): (l': Ledger)
    requires LedgerOf(l, Key(ev))
    ensures LedgerOf(l', Key(ev))
  {
    if ev.eventId in l.applied then l
    else
      var recorded := l.(applied := l.applied[ev.eventId := Target(ev)]);
      match l.row
      case None => recorded.(row := Some(InitialRow(ev)))
      case Some(row) =>
        if Decide(row, ev) == Applied then recorded.(row := Some(UpdatedRow(row, ev)))
        else recorded.(stale := l.stale + [StaleEntry(row, ev)])
  }

  function StepOutcome(l: Ledger, ev: EntityEvent): Outcome {
    if ev.eventId in l.applied then AlreadyApplied
    else if l.row.None? then AppliedInitial
    else Decide(l.row.value, ev)
  }

  /** The row insert is unconditional because the `None` entry of both tables allows every state. */
  lemma FirstEventMayHaveAnyState(ev: EntityEvent)
    ensures ev.ShipmentEvent? ==> Target(ev).shipment in ShipmentTransitions(None)
    ensures ev.InvoiceEvent? ==> Target(ev).invoice in InvoiceTransitions(None)
  {
    if ev.ShipmentEvent? {
      match ev.shipmentType case _ => {}
    } else {
      match ev.invoiceType case _ => {}
    }
  }

  /** The same-state `UPDATE` of a shipment is never executed; that of an invoice is, and leaves the
      amount, currency and due date alone. */
  lemma SameStateUpdate(row: Row, ev: EntityEvent)
    requires RowOf(row, Key(ev)) && Decide(row, ev) == Applied
    ensures ev.ShipmentEvent? ==> Target(ev) != row.state
    ensures Target(ev) == row.state ==> UpdatedRow(row, ev).columns == row.columns
  {
    if ev.ShipmentEvent? {
      match ev.shipmentType case _ => {}
    }
  }

  // ----- The tables, seen from outside -----

  /** How far a shipment has come; an exception stands outside of this order. */
  function Stage(s: ShipmentState): nat {
    match s
    case PickedUp => 0
    case InTransit => 1
    case OutForDelivery => 2
    case _ => 3
  }

  /** A shipment that is not over may have an exception, come back from one to anything but its pick-up, or move on to
      a later stage; only one that is out for delivery cannot be cancelled. */
  predicate MayFollow(current: ShipmentState, target: ShipmentState) {
    && current != Delivered && current != Cancelled
    && target != PickedUp && target != current
    && (current == Exception || target == Exception || Stage(current) < Stage(target))
    && !(current == OutForDelivery && target == Cancelled)
  }

  lemma ShipmentAcceptsIff(current: ShipmentState, target: ShipmentState)
    ensures Accepts(OfShipment(current), OfShipment(target)) <==> MayFollow(current, target)
  {
  }

  /** Issued first, then paid or voided, then refunded. */
  function InvoiceStage(s: InvoiceState): nat {
    match s
    case Issued => 0
    case Paid => 1
    case Voided => 1
    case Refunded => 2
  }

  /** An invoice takes its own state again and moves on by one stage at a time; what is voided stays so. */
  predicate InvoiceMayFollow(current: InvoiceState, target: InvoiceState) {
    target == current || (current != Voided && InvoiceStage(target) == InvoiceStage(current) + 1)
  }

  lemma InvoiceAcceptsIff(current: InvoiceState, target: InvoiceState)
    ensures Accepts(OfInvoice(current), OfInvoice(target)) <==> InvoiceMayFollow(current, target)
  {
  }

  /** The state of a row and that of an event, for one kind of entity. */
  predicate Follows(current: State, target: State) {
    || (current.OfShipment? && target.OfShipment? && MayFollow(current.shipment, target.shipment))
    || (current.OfInvoice? && target.OfInvoice? && InvoiceMayFollow(current.invoice, target.invoice))
  }

  /** What an event meets with, in every case: only its id, its time and the states decide. */
  lemma OutcomeIs(l: Ledger, ev: EntityEvent)
    requires LedgerOf(l, Key(ev))
    ensures StepOutcome(l, ev) ==
            if ev.eventId in l.applied then AlreadyApplied
            else if l.row.None? then AppliedInitial
            else if l.row.value.lastTs > ev.ts then StaleSkipped
            else if Follows(l.row.value.state, Target(ev)) then Applied
            else TransitionRejected
  {
    if l.row.Some? {
      match (l.row.value.state, Target(ev)) {
        case (OfShipment(c), OfShipment(t)) => ShipmentAcceptsIff(c, t);
        case (OfInvoice(c), OfInvoice(t)) => InvoiceAcceptsIff(c, t);
        case _ =>
      }
    }
  }
}
