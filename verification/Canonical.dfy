/** The canonical event union and its event-to-state maps. */
module Canonical {
  import opened Prelude
  import opened Json

  type EventId = string

  /** A timezone-aware timestamp, as an integer instant. */
  type Instant = int

  type Refs = map<string, Json>

  datatype EntityType = ShipmentEntity | InvoiceEntity

  datatype ShipmentState = PickedUp | InTransit | OutForDelivery | Delivered | Exception | Cancelled

  datatype InvoiceState = Issued | Paid | Voided | Refunded

  /** The `state` and `target_state` columns hold either kind of state. */
  datatype State = OfShipment(shipment: ShipmentState) | OfInvoice(invoice: InvoiceState)

  datatype ShipmentEventType =
    | ShipmentPickedUp | ShipmentInTransit | ShipmentOutForDelivery
    | ShipmentDelivered | ShipmentException | ShipmentCancelled

  datatype InvoiceEventType = InvoiceIssued | InvoicePaid | InvoiceVoided | InvoiceRefunded

  datatype Money = Money(currency: string, amountMinor: int)

  datatype Location = Location(code: Option<string>, name: Option<string>,
                               latitude: Option<real>, longitude: Option<real>)

  datatype Event =
    | ShipmentEvent(eventId: EventId, vendorId: string, externalId: string, ts: Instant, refs: Refs,
                    shipmentType: ShipmentEventType, location: Option<Location>)
    | InvoiceEvent(eventId: EventId, vendorId: string, externalId: string, ts: Instant, refs: Refs,
                   invoiceType: InvoiceEventType, amount: Option<Money>, dueAt: Option<Instant>)
    | UnclassifiedEvent(eventId: EventId, vendorId: string, summary: Option<string>, reason: Option<string>)

  /** Events that name an entity and so reach a projection. */
  type EntityEvent = ev: Event | !ev.UnclassifiedEvent?
    witness ShipmentEvent("e", "v", "x", 0, map[], ShipmentPickedUp, None)

  datatype EntityKey = EntityKey(vendorId: string, entityType: EntityType, externalId: string)

  function Key(ev: EntityEvent): EntityKey {
    EntityKey(ev.vendorId, if ev.ShipmentEvent? then ShipmentEntity else InvoiceEntity, ev.externalId)
  }

  function ShipmentEventToState(t: ShipmentEventType): ShipmentState {
    match t
    case ShipmentPickedUp => PickedUp
    case ShipmentInTransit => InTransit
    case ShipmentOutForDelivery => OutForDelivery
    case ShipmentDelivered => Delivered
    case ShipmentException => Exception
    case ShipmentCancelled => Cancelled
  }

  function InvoiceEventToState(t: InvoiceEventType): InvoiceState {
    match t
    case InvoiceIssued => Issued
    case InvoicePaid => Paid
    case InvoiceVoided => Voided
    case InvoiceRefunded => Refunded
  }

  function Target(ev: EntityEvent): State {
    if ev.ShipmentEvent? then OfShipment(ShipmentEventToState(ev.shipmentType))
    else OfInvoice(InvoiceEventToState(ev.invoiceType))
  }
}
