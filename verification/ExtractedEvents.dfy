/** What an extracted event says: each of its fields, by the document that it was extracted with and the payload. */
module ExtractedEvents {
  import opened Prelude
  import opened Json
  import opened Canonical
  import opened Paths
  import opened Templates
  import opened Adapter
  import Amounts = Money

  // ----- Single fields -----

  /** A text: there is one exactly when the field leads to something truthy. */
  predicate TextBy(world: World, payload: Json, spec: Option<Spec>, text: Option<string>) {
    var v := ResolveSpec(world, payload, spec);
    && v.Ok? && (text.Some? <==> Truthy(v.value))
    && (text.Some? ==> text.value == Text(v.value, world.repr))
  }

  /** An instant: there is one exactly when the field leads to something truthy that reads as a time. */
  predicate InstantBy(world: World, payload: Json, spec: Option<Spec>, at: Option<Instant>) {
    var v := ResolveSpec(world, payload, spec);
    && v.Ok? && (!Truthy(v.value) ==> at.None?)
    && (Truthy(v.value) ==> at == world.parseTimestamp(Text(v.value, world.repr)))
  }

  /** An external id: the text of something truthy under a single path, or a template filled in; a list of paths gives
      none. */
  predicate IdBy(world: World, payload: Json, spec: Option<Spec>, id: string) {
    && id != ""
    && match spec
       case Some(Path(p)) =>
         var v := Resolve(payload, p);
         v.Ok? && Truthy(v.value) && id == Text(v.value, world.repr)
       case Some(Template(t)) => t != "" && FillTemplate(payload, t, world.repr) == Ok(Some(id))
       case _ => false
  }

  /** An amount: there is one exactly when the field leads to something truthy that reads as money and is not
      negative. */
  predicate AmountBy(world: World, payload: Json, spec: Option<Spec>, amount: Option<Money>) {
    var v := ResolveSpec(world, payload, spec);
    && v.Ok? && (!Truthy(v.value) ==> amount.None?)
    && (Truthy(v.value) ==>
          var read := Amounts.ParseMoney(Text(v.value, world.repr));
          && (amount.Some? <==> read.Ok? && read.value.1 >= 0)
          && (amount.Some? ==> read == Ok((amount.value.currency, amount.value.amountMinor))))
  }

  predicate NumberBy(world: World, v: Json, number: Option<real>) {
    && (number.Some? <==> v != Null)
    && (v != Null ==> number == world.toFloat(v))
  }

  /** A location: there is one exactly when its code or its name leads to something truthy; each part comes from its
      own path. */
  predicate PlaceBy(world: World, payload: Json, spec: Option<PlaceSpec>, place: Option<Location>) {
    if spec.None? then place.None?
    else
      var code, name := ResolveOptional(payload, spec.value.code), ResolveOptional(payload, spec.value.name);
      && code.Ok? && name.Ok? && (place.Some? <==> Truthy(code.value) || Truthy(name.value))
      && (place.Some? ==>
            var lat := ResolveOptional(payload, spec.value.latitude);
            var lon := ResolveOptional(payload, spec.value.longitude);
            && place.value.code == TextIfTruthy(world, code.value)
            && place.value.name == TextIfTruthy(world, name.value)
            && lat.Ok? && NumberBy(world, lat.value, place.value.latitude)
            && lon.Ok? && NumberBy(world, lon.value, place.value.longitude))
  }

  // ----- Reference maps -----

  /** Entry `i` is the last one for the label that leads to something. */
  predicate LeadsAt(payload: Json, spec: MapSpec, key: string, i: int) {
    && 0 <= i < |spec| && spec[i].0 == key
    && Resolve(payload, spec[i].1).Ok? && Resolve(payload, spec[i].1).value != Null
    && forall j :: i < j < |spec| && spec[j].0 == key ==> Resolve(payload, spec[j].1) == Ok(Null)
  }

  /** The references that the payload holds under the paths, by label, and no others. */
  ghost predicate RefsBy(payload: Json, spec: MapSpec, refs: Refs) {
    && (forall key :: key in refs <==> exists i :: LeadsAt(payload, spec, key, i))
    && (forall key, i :: LeadsAt(payload, spec, key, i) ==> refs[key] == Resolve(payload, spec[i].1).value)
  }

  /** What the entries from `n` on leave for a label. */
  function LeftBehind(payload: Json, spec: MapSpec, key: string, n: nat): Option<Json>
    requires n <= |spec|
    decreases |spec| - n
  {
    if n == |spec| then None
    else
      var later, v := LeftBehind(payload, spec, key, n + 1), Resolve(payload, spec[n].1);
      if later.Some? then later else if spec[n].0 == key && v.Ok? && v.value != Null then Some(v.value) else None
  }

  lemma {:induction false} MapFromLeaves(payload: Json, spec: MapSpec, n: nat, result: Refs, key: string)
    requires n <= |spec| && MapFrom(payload, spec, n, result).Ok?
    ensures var refs, left := MapFrom(payload, spec, n, result).value, LeftBehind(payload, spec, key, n);
            && (key in refs <==> left.Some? || key in result)
            && (key in refs ==> refs[key] == if left.Some? then left.value else result[key])
    ensures forall i :: n <= i < |spec| ==> Resolve(payload, spec[i].1).Ok?
    decreases |spec| - n
  {
    if n < |spec| {
      var v := Resolve(payload, spec[n].1).value;
      MapFromLeaves(payload, spec, n + 1, if v != Null then result[spec[n].0 := v] else result, key);
    }
  }

  lemma {:induction false} LeftBehindLeads(payload: Json, spec: MapSpec, key: string, n: nat)
    requires n <= |spec| && forall i :: n <= i < |spec| ==> Resolve(payload, spec[i].1).Ok?
    ensures var left := LeftBehind(payload, spec, key, n);
            && (left.None? <==>
                  forall i :: n <= i < |spec| && spec[i].0 == key ==> Resolve(payload, spec[i].1) == Ok(Null))
            && (left.Some? ==> exists i :: n <= i && LeadsAt(payload, spec, key, i))
            && (forall i :: n <= i && LeadsAt(payload, spec, key, i) ==>
                  left == Some(Resolve(payload, spec[i].1).value))
    decreases |spec| - n
  {
    if n < |spec| {
      LeftBehindLeads(payload, spec, key, n + 1);
      var later, v := LeftBehind(payload, spec, key, n + 1), Resolve(payload, spec[n].1).value;
      if later.None? && spec[n].0 == key && v != Null {
        assert LeadsAt(payload, spec, key, n);
      }
    }
  }

  lemma ExtractedMap(payload: Json, spec: MapSpec)
    requires MapFrom(payload, spec, 0, map[]).Ok?
    ensures RefsBy(payload, spec, MapFrom(payload, spec, 0, map[]).value)
  {
    var refs := MapFrom(payload, spec, 0, map[]).value;
    forall key
      ensures key in refs <==> exists i :: LeadsAt(payload, spec, key, i)
      ensures forall i :: LeadsAt(payload, spec, key, i) ==> refs[key] == Resolve(payload, spec[i].1).value
    {
      MapFromLeaves(payload, spec, 0, map[], key);
      LeftBehindLeads(payload, spec, key, 0);
    }
  }

  // ----- Whole events -----

  /** The fields that a shipment and an invoice have in common. */
  predicate EssentialsBy(world: World, d: Delivery, fields: Fields, event: Event)
    requires !event.UnclassifiedEvent?
  {
    && IdBy(world, d.payload, fields.entityId, event.externalId)
    && InstantBy(world, d.payload, fields.timestamp, Some(event.ts))
  }

  ghost predicate ShipmentBy(world: World, d: Delivery, fields: Fields, state: string, event: Event) {
    && event.ShipmentEvent? && EssentialsBy(world, d, fields, event)
    && ShipmentTypeOf(state) == Some(event.shipmentType)
    && PlaceBy(world, d.payload, fields.location, event.location)
    && RefsBy(d.payload, fields.referenceIds, event.refs)
  }

  ghost predicate InvoiceBy(world: World, d: Delivery, fields: Fields, state: string, event: Event) {
    && event.InvoiceEvent? && EssentialsBy(world, d, fields, event)
    && InvoiceTypeOf(state) == Some(event.invoiceType)
    && AmountBy(world, d.payload, fields.amount, event.amount)
    && InstantBy(world, d.payload, fields.dueAt, event.dueAt)
    && RefsBy(d.payload, fields.linkedReferences, event.refs)
  }

  /** At most 500 characters of the summary, and a reason in every case. */
  predicate UnclassifiedBy(world: World, d: Delivery, fields: Fields, event: Event) {
    && event.UnclassifiedEvent?
    && var summary := ResolveSpec(world, d.payload, fields.summary);
       var reason := ResolveSpec(world, d.payload, fields.reason);
       && summary.Ok? && (event.summary.Some? <==> Truthy(summary.value))
       && (event.summary.Some? ==>
             var text := Text(summary.value, world.repr);
             event.summary.value <= text && |event.summary.value| == if |text| < 500 then |text| else 500)
       && reason.Ok? && event.reason ==
          Some(if Truthy(reason.value) then Text(reason.value, world.repr) else "schema_driven_unclassified")
  }

  lemma ShipmentIsBy(world: World, d: Delivery, fields: Fields, state: string, raw: Option<string>)
    ensures var r := ExtractShipment(world, d, fields, state, raw);
            r.Ok? && r.value.Extracted? ==>
              && ShipmentBy(world, d, fields, state, r.value.event) && r.value.raw == raw
              && TextBy(world, d.payload, fields.rawMilestone, r.value.note)
  {
    var r := ExtractShipment(world, d, fields, state, raw);
    if r.Ok? && r.value.Extracted? {
      ExtractedMap(d.payload, fields.referenceIds);
    }
  }

  lemma InvoiceIsBy(world: World, d: Delivery, fields: Fields, state: string, raw: Option<string>)
    ensures var r := ExtractInvoice(world, d, fields, state, raw);
            r.Ok? && r.value.Extracted? ==>
              && InvoiceBy(world, d, fields, state, r.value.event) && r.value.raw == raw
              && TextBy(world, d.payload, fields.rawKind, r.value.note)
  {
    var r := ExtractInvoice(world, d, fields, state, raw);
    if r.Ok? && r.value.Extracted? {
      ExtractedMap(d.payload, fields.linkedReferences);
    }
  }

  lemma UnclassifiedIsBy(world: World, d: Delivery, fields: Fields, raw: Option<string>)
    ensures var r := ExtractUnclassified(world, d, fields, raw);
            r.Ok? && r.value.Extracted? ==> UnclassifiedBy(world, d, fields, r.value.event) && r.value.raw == raw
  {
  }

  /** The classification in force: the one that is asked for, or else the document's. */
  function KindIn(doc: SchemaDoc, classification: Option<string>): string {
    if classification.Some? && classification.value != "" then classification.value else doc.classification
  }

  /** Whatever is extracted, by any document from any payload: the delivery's own ids, the kind of event that is asked
      for, each field from its own place in the payload, and the vendor's own event type beside it. */
  lemma ExtractedIsBy(world: World, d: Delivery, doc: SchemaDoc, state: Option<string>, classification: Option<string>)
    requires Extract(world, d, doc, state, classification).Ok?
    requires Extract(world, d, doc, state, classification).value.Extracted?
    ensures var extracted, kind := Extract(world, d, doc, state, classification).value, KindIn(doc, classification);
            && extracted.event.eventId == d.eventId && extracted.event.vendorId == d.vendorId
            && TextBy(world, d.payload, doc.fields.eventType, extracted.raw)
            && (|| (kind == "unclassified" && UnclassifiedBy(world, d, doc.fields, extracted.event))
                || (&& kind == "shipment" && state.Some?
                    && ShipmentBy(world, d, doc.fields, state.value, extracted.event)
                    && TextBy(world, d.payload, doc.fields.rawMilestone, extracted.note))
                || (&& kind == "invoice" && state.Some?
                    && InvoiceBy(world, d, doc.fields, state.value, extracted.event)
                    && TextBy(world, d.payload, doc.fields.rawKind, extracted.note)))
  {
    var raw := TextIfTruthy(world, ResolveSpec(world, d.payload, doc.fields.eventType).value);
    UnclassifiedIsBy(world, d, doc.fields, raw);
    if state.Some? {
      ShipmentIsBy(world, d, doc.fields, state.value, raw);
      InvoiceIsBy(world, d, doc.fields, state.value, raw);
    }
  }
}
