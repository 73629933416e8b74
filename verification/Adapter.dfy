/** The schema-driven adapter: executing a learned schema document against a payload, with no provider call. */
module Adapter {
  import opened Prelude
  import opened Json
  import opened Canonical
  import opened PyText
  import opened Paths
  import opened Templates
  import Amounts = Money

  // ----- Schema documents -----

  /** Where a canonical field comes from: one path, the first of several paths that is not null, or a
      template. */
  datatype Spec = Path(path: string) | FirstOf(paths: seq<string>) | Template(template: string)

  datatype PlaceSpec = PlaceSpec(code: Option<string>, name: Option<string>,
                                 latitude: Option<string>, longitude: Option<string>)

  /** Labels and the paths behind them, in document order. */
  type MapSpec = seq<(string, string)>

  datatype Fields = Fields(
    entityId: Option<Spec>, timestamp: Option<Spec>, eventType: Option<Spec>,
    rawMilestone: Option<Spec>, location: Option<PlaceSpec>, referenceIds: MapSpec,
    rawKind: Option<Spec>, amount: Option<Spec>, dueAt: Option<Spec>, linkedReferences: MapSpec,
    summary: Option<Spec>, reason: Option<Spec>)

  datatype SchemaDoc = SchemaDoc(classification: string, fields: Fields)

  /** What the adapter calls and this model does not open: timestamp parsing, how Python prints a container,
      `float()`, and the discoverer's two substring searches. */
  datatype World = World(
    parseTimestamp: string -> Option<Instant>,
    repr: Json -> string,
    toFloat: Json -> Option<real>,
    findTimestamp: (Json, string) -> Option<string>,
    findMoney: (Json, string) -> Option<string>)

  // ----- Resolving fields -----

  function FirstFound(payload: Json, paths: seq<string>): Result<Json> {
    if paths == [] then Ok(Null)
    else
      var v :- Resolve(payload, paths[0]);
      if v != Null then Ok(v) else FirstFound(payload, paths[1..])
  }

  function FilledValue(payload: Json, template: string, repr: Json -> string): Result<Json> {
    if template == "" then Ok(Null)
    else
      var text :- FillTemplate(payload, template, repr);
      Ok(if text.Some? then Str(text.value) else Null)
  }

  function ResolveSpec(world: World, payload: Json, spec: Option<Spec>): Result<Json> {
    match spec
    case None => Ok(Null)
    case Some(Path(p)) => Resolve(payload, p)
    case Some(FirstOf(ps)) => FirstFound(payload, ps)
    case Some(Template(t)) => FilledValue(payload, t, world.repr)
  }

  /** `_resolve_field`. */
  method ResolveField(world: World, payload: Json, spec: Option<Spec>) returns (r: Result<Json>)
    ensures r == ResolveSpec(world, payload, spec)
  {
    if spec.None? {
      return Ok(Null);
    }
    match spec.value {
      case FirstOf(paths) =>
        assert paths[0..] == paths;
        for i := 0 to |paths|
          invariant FirstFound(payload, paths) == FirstFound(payload, paths[i..])
        {
          assert paths[i..][1..] == paths[i + 1..];
          r := ResolvePath(payload, paths[i]);
          if r.Raised? || r.value != Null {
            return;
          }
        }
        r := Ok(Null);
      case Template(template) =>
        if template == "" {
          return Ok(Null);
        }
        var text := ResolveTemplate(payload, template, world.repr);
        if text.Raised? {
          return Raised;
        }
        r := Ok(if text.value.Some? then Str(text.value.value) else Null);
      case Path(path) =>
        r := ResolvePath(payload, path);
    }
  }

  /** `str(v) if v else None`. */
  function TextIfTruthy(world: World, v: Json): Option<string> {
    if Truthy(v) then Some(Text(v, world.repr)) else None
  }

  /** `_resolve_entity_id`; a fallback list is no entity id. */
  function EntityId(world: World, payload: Json, spec: Option<Spec>): Result<Option<string>> {
    match spec
    case Some(Path(p)) =>
      var v :- Resolve(payload, p);
      Ok(TextIfTruthy(world, v))
    case Some(Template(t)) => if t == "" then Ok(None) else FillTemplate(payload, t, world.repr)
    case Some(FirstOf(_)) => Ok(None)
    case None => Ok(None)
  }

  // ----- Optional fields -----

  function ResolveOptional(payload: Json, path: Option<string>): Result<Json> {
    if path.None? then Ok(Null) else Resolve(payload, path.value)
  }

  /** `float(v) if v is not None else None`, raising where `float` does. */
  function Coordinate(world: World, v: Json): Result<Option<real>> {
    if v == Null then Ok(None)
    else
      var x := world.toFloat(v);
      if x.None? then Raised else Ok(x)
  }

  /** `_extract_location`. */
  function ExtractPlace(world: World, payload: Json, spec: Option<PlaceSpec>): Result<Option<Location>> {
    if spec.None? then Ok(None)
    else
      var code :- ResolveOptional(payload, spec.value.code);
      var name :- ResolveOptional(payload, spec.value.name);
      var lat :- ResolveOptional(payload, spec.value.latitude);
      var lon :- ResolveOptional(payload, spec.value.longitude);
      if !Truthy(code) && !Truthy(name) then Ok(None)
      else
        var latitude :- Coordinate(world, lat);
        var longitude :- Coordinate(world, lon);
        Ok(Some(Location(TextIfTruthy(world, code), TextIfTruthy(world, name), latitude, longitude)))
  }

  /** `_extract_amount`; an unreadable or negative amount is none at all. */
  function ExtractAmount(world: World, payload: Json, spec: Option<Spec>): Result<Option<Money>> {
    var v :- ResolveSpec(world, payload, spec);
    if !Truthy(v) then Ok(None)
    else
      match Amounts.ParseMoney(Text(v, world.repr))
      case Ok((currency, minor)) => Ok(if minor < 0 then None else Some(Money(currency, minor)))
      case Raised => Ok(None)
  }

  function ExtractDue(world: World, payload: Json, spec: Option<Spec>): Result<Option<Instant>> {
    var v :- ResolveSpec(world, payload, spec);
    Ok(if Truthy(v) then world.parseTimestamp(Text(v, world.repr)) else None)
  }

  /** The map of the entries from `i` on, laid over `result`. */
  function MapFrom(payload: Json, spec: MapSpec, i: nat, result: Refs): Result<Refs>
    requires i <= |spec|
    decreases |spec| - i
  {
    if i == |spec| then Ok(result)
    else
      var v :- Resolve(payload, spec[i].1);
      MapFrom(payload, spec, i + 1, if v != Null then result[spec[i].0 := v] else result)
  }

  /** `_extract_map`. */
  method ExtractMap(payload: Json, spec: MapSpec) returns (r: Result<Refs>)
    ensures r == MapFrom(payload, spec, 0, map[])
  {
    var result: Refs := map[];
    for i := 0 to |spec|
      invariant MapFrom(payload, spec, 0, map[]) == MapFrom(payload, spec, i, result)
    {
      var v := ResolvePath(payload, spec[i].1);
      if v.Raised? {
        return Raised;
      }
      if v.value != Null {
        result := result[spec[i].0 := v.value];
      }
    }
    return Ok(result);
  }

  // ----- Extracting -----

  function ShipmentTypeOf(state: string): Option<ShipmentEventType> {
    if state == "shipment.picked_up" then Some(ShipmentPickedUp)
    else if state == "shipment.in_transit" then Some(ShipmentInTransit)
    else if state == "shipment.out_for_delivery" then Some(ShipmentOutForDelivery)
    else if state == "shipment.delivered" then Some(ShipmentDelivered)
    else if state == "shipment.exception" then Some(ShipmentException)
    else if state == "shipment.cancelled" then Some(ShipmentCancelled)
    else None
  }

  function InvoiceTypeOf(state: string): Option<InvoiceEventType> {
    if state == "invoice.issued" then Some(InvoiceIssued)
    else if state == "invoice.paid" then Some(InvoicePaid)
    else if state == "invoice.voided" then Some(InvoiceVoided)
    else if state == "invoice.refunded" then Some(InvoiceRefunded)
    else None
  }

  /** A webhook on its way through the pipeline. */
  datatype Delivery = Delivery(eventId: string, vendorId: string, payload: Json)

  /** `raw` is the vendor's own event type, `note` the raw milestone or kind that is kept for the record. */
  datatype Extraction =
    | Extracted(event: Event, raw: Option<string>, note: Option<string>)
    | NotExtracted(raw: Option<string>)

  /** The canonical types refuse blank event and vendor ids. */
  predicate Named(d: Delivery) {
    Strip(d.eventId) != "" && Strip(d.vendorId) != ""
  }

  /** An extracted event bears the delivery's ids. */
  predicate Bears(r: Result<Extraction>, d: Delivery) {
    r.Ok? && r.value.Extracted? ==> r.value.event.eventId == d.eventId && r.value.event.vendorId == d.vendorId
  }

  /** The two fields without which there is no shipment or invoice: an external id and an instant. */
  datatype Essentials = Essentials(externalId: string, ts: Instant)

  function ExtractEssentials(world: World, payload: Json, fields: Fields): Result<Option<Essentials>> {
    var id :- EntityId(world, payload, fields.entityId);
    var stamp :- ResolveSpec(world, payload, fields.timestamp);
    var ts := if Truthy(stamp) then world.parseTimestamp(Text(stamp, world.repr)) else None;
    Ok(if id.None? || id.value == "" || ts.None? then None else Some(Essentials(id.value, ts.value)))
  }

  /** `_extract_shipment`. */
  function ExtractShipment(world: World, d: Delivery, fields: Fields, state: string, raw: Option<string>)
    : (r: Result<Extraction>)
    ensures Bears(r, d)
  {
    var essentials :- ExtractEssentials(world, d.payload, fields);
    var kind := ShipmentTypeOf(state);
    if essentials.None? || kind.None? then Ok(NotExtracted(raw))
    else
      var location :- ExtractPlace(world, d.payload, fields.location);
      var refs :- MapFrom(d.payload, fields.referenceIds, 0, map[]);
      var note :- ResolveSpec(world, d.payload, fields.rawMilestone);
      if !Named(d) then Raised
      else
        var event := ShipmentEvent(d.eventId, d.vendorId, essentials.value.externalId, essentials.value.ts, refs,
                                   kind.value, location);
        Ok(Extracted(event, raw, TextIfTruthy(world, note)))
  }

  /** `_extract_invoice`. */
  function ExtractInvoice(world: World, d: Delivery, fields: Fields, state: string, raw: Option<string>)
    : (r: Result<Extraction>)
    ensures Bears(r, d)
  {
    var essentials :- ExtractEssentials(world, d.payload, fields);
    var kind := InvoiceTypeOf(state);
    if essentials.None? || kind.None? then Ok(NotExtracted(raw))
    else
      var amount :- ExtractAmount(world, d.payload, fields.amount);
      var dueAt :- ExtractDue(world, d.payload, fields.dueAt);
      var refs :- MapFrom(d.payload, fields.linkedReferences, 0, map[]);
      var note :- ResolveSpec(world, d.payload, fields.rawKind);
      if !Named(d) then Raised
      else
        var event := InvoiceEvent(d.eventId, d.vendorId, essentials.value.externalId, essentials.value.ts, refs,
                                  kind.value, amount, dueAt);
        Ok(Extracted(event, raw, TextIfTruthy(world, note)))
  }

  /** `_extract_unclassified`. */
  function ExtractUnclassified(world: World, d: Delivery, fields: Fields, raw: Option<string>): (r: Result<Extraction>)
    ensures Bears(r, d)
  {
    var summary :- ResolveSpec(world, d.payload, fields.summary);
    var reason :- ResolveSpec(world, d.payload, fields.reason);
    if !Named(d) then Raised
    else
      var text := TextIfTruthy(world, summary);
      var short := if text.Some? && |text.value| > 500 then Some(text.value[..500]) else text;
      var because := if Truthy(reason) then Text(reason, world.repr) else "schema_driven_unclassified";
      Ok(Extracted(UnclassifiedEvent(d.eventId, d.vendorId, short, Some(because)), raw, None))
  }

  /** `extract`. Without a state it only finds the vendor's own event type, except that an unclassified document
      needs none. `classification` overrides the document's. */
  function Extract(world: World, d: Delivery, doc: SchemaDoc, state: Option<string>, classification: Option<string>)
    : (r: Result<Extraction>)
    ensures Bears(r, d)
  {
    var kind := if classification.Some? && classification.value != "" then classification.value else doc.classification;
    if kind == "" then Ok(NotExtracted(None))
    else
      var rawValue :- ResolveSpec(world, d.payload, doc.fields.eventType);
      var raw := TextIfTruthy(world, rawValue);
      if kind == "unclassified" then ExtractUnclassified(world, d, doc.fields, raw)
      else if state.None? then Ok(NotExtracted(raw))
      else if kind == "shipment" then ExtractShipment(world, d, doc.fields, state.value, raw)
      else if kind == "invoice" then ExtractInvoice(world, d, doc.fields, state.value, raw)
      else Ok(NotExtracted(None))
  }

  // ----- Event types -----

  /** The event type that stands for a state. */
  function ShipmentTypeText(s: ShipmentState): string {
    match s
    case PickedUp => "shipment.picked_up"
    case InTransit => "shipment.in_transit"
    case OutForDelivery => "shipment.out_for_delivery"
    case Delivered => "shipment.delivered"
    case Exception => "shipment.exception"
    case Cancelled => "shipment.cancelled"
  }

  function InvoiceTypeText(s: InvoiceState): string {
    match s
    case Issued => "invoice.issued"
    case Paid => "invoice.paid"
    case Voided => "invoice.voided"
    case Refunded => "invoice.refunded"
  }

  /** A shipment's event types are one for each state, and each leads to its state; no other text is one. */
  lemma ShipmentTypesAreStates(text: string, s: ShipmentState)
    ensures text == ShipmentTypeText(s) <==>
            ShipmentTypeOf(text).Some? && ShipmentEventToState(ShipmentTypeOf(text).value) == s
  {
  }

  lemma InvoiceTypesAreStates(text: string, s: InvoiceState)
    ensures text == InvoiceTypeText(s) <==>
            InvoiceTypeOf(text).Some? && InvoiceEventToState(InvoiceTypeOf(text).value) == s
  {
  }

  // ----- Fallback lists -----

  /** Of several paths the first one counts that leads to something. */
  lemma {:induction false} FirstFoundIs(payload: Json, paths: seq<string>, i: nat)
    requires i < |paths| && forall j :: 0 <= j < i ==> Resolve(payload, paths[j]) == Ok(Null)
    requires Resolve(payload, paths[i]) != Ok(Null)
    ensures FirstFound(payload, paths) == Resolve(payload, paths[i])
    decreases i
  {
    if i > 0 {
      assert Resolve(payload, paths[0]) == Ok(Null);
      FirstFoundIs(payload, paths[1..], i - 1);
    }
  }
}
