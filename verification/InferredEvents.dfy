/** From the provider's answer to the event: what an inferred document extracts from the payload that it was inferred
    from is what the provider said, field by field, as far as the payload holds it. */
module InferredEvents {
  import opened Prelude
  import opened Json
  import opened Canonical
  import opened PyText
  import opened Paths
  import opened Discovery
  import opened Templates
  import opened Adapter
  import opened ExtractedEvents
  import opened Learning
  import opened Reproduction
  import Amounts = Money

  // ----- What the provider said, and where the payload holds it -----

  /** The leaf at which a time of the provider was found, directly or by the search for timestamps. */
  function TimeLeaf(world: World, payload: Json, value: Json): Json {
    if ValuePath(world, payload, value).Some? then LeafFor(world, payload, value)
    else if value.Str? && world.findTimestamp(payload, value.s).Some? then
      var v := Resolve(payload, world.findTimestamp(payload, value.s).value);
      if v.Ok? then v.value else Null
    else Null
  }

  /** An instant for a time of the provider: the reading of that leaf, and none without a leaf. */
  predicate InstantFor(world: World, payload: Json, at: Option<Instant>, value: Json) {
    var leaf := TimeLeaf(world, payload, value);
    at == if Truthy(leaf) then world.parseTimestamp(Text(leaf, world.repr)) else None
  }

  /** The references of the provider that stand in the payload, and no others. */
  ghost predicate RefsFor(world: World, payload: Json, refs: Refs, value: Json) {
    && (!value.Obj? ==> refs == map[])
    && (value.Obj? && DistinctKeys(value.members) ==> Mirrors(world, payload, value.members, refs))
  }

  /** The code, name and coordinates of the provider, each from its own leaf. */
  predicate PlaceFor(world: World, payload: Json, place: Option<Location>, value: Json) {
    && (!value.Obj? ==> place.None?)
    && (value.Obj? ==>
          var code, name := Get(value.members, "code"), Get(value.members, "name");
          var lat, lon := Get(value.members, "latitude"), Get(value.members, "longitude");
          && (place.Some? <==> Truthy(LeafFor(world, payload, code)) || Truthy(LeafFor(world, payload, name)))
          && (place.Some? ==>
                && TextFor(world, payload, place.value.code, code) && TextFor(world, payload, place.value.name, name)
                && NumberBy(world, LeafFor(world, payload, lat), place.value.latitude)
                && NumberBy(world, LeafFor(world, payload, lon), place.value.longitude)))
  }

  /** The text that is found by the provider's currency, read as money. */
  predicate AmountFor(world: World, payload: Json, amount: Option<Money>, value: Json) {
    var currency := if value.Obj? then Get(value.members, "currency") else Null;
    if currency.Str? && currency.s != "" && world.findMoney(payload, currency.s).Some? then
      AmountBy(world, payload, Some(Path(world.findMoney(payload, currency.s).value)), amount)
    else amount.None?
  }

  /** The external id: the provider's text up to surrounding blanks, where the payload holds it in one place, and
      otherwise what its template, filled in, gives. */
  predicate IdFor(world: World, payload: Json, id: string, value: Json) {
    if ValuePath(world, payload, value).Some? then TextFor(world, payload, Some(id), value)
    else
      && value.Str? && FirstTemplate(payload, value.s, SEPARATORS).Some?
      && FillTemplate(payload, FirstTemplate(payload, value.s, SEPARATORS).value, world.repr) == Ok(Some(id))
  }

  // ----- When a document is inferred -----

  /** The payload holds a value of the provider: in one leaf, as a composite id in the leaves of its parts, or as a time
      that the search for timestamps finds. */
  predicate Held(world: World, payload: Json, kind: FieldKind, value: Json) {
    || ValuePath(world, payload, value).Some?
    || (kind == IdField && value.Str? && exists sep :: sep in {':', '-', '_', '/'} && Works(payload, value.s, sep))
    || (kind == TimeField && value.Str? && world.findTimestamp(payload, value.s).Some?)
  }

  lemma FieldIsMappedIff(world: World, payload: Json, kind: FieldKind, value: Json)
    ensures FieldSpec(world, payload, kind, value).Some? <==> Held(world, payload, kind, value)
  {
    if value.Str? {
      FirstSeparatorWins(payload, value.s);
      TemplateIff(payload, value.s, ':');
      TemplateIff(payload, value.s, '-');
      TemplateIff(payload, value.s, '_');
      TemplateIff(payload, value.s, '/');
    }
  }

  /** A document is inferred exactly from an answer of a known classification, and for a shipment or an invoice only
      where the payload holds both its external id and its time. */
  lemma DocIsInferredIff(world: World, payload: Json, output: seq<Member>)
    ensures var kind := Get(output, "classification");
            InferredDoc(world, payload, output).Some? <==>
              || kind == Str("unclassified")
              || ((kind == Str("shipment") || kind == Str("invoice"))
                  && Held(world, payload, IdField, Get(output, "entity_external_id"))
                  && Held(world, payload, TimeField, Get(output, "event_timestamp")))
  {
    FieldIsMappedIff(world, payload, IdField, Get(output, "entity_external_id"));
    FieldIsMappedIff(world, payload, TimeField, Get(output, "event_timestamp"));
  }

  // ----- Field by field -----

  lemma TimeReproduced(world: World, payload: Json, value: Json, at: Option<Instant>)
    requires Clean(payload) && NoNestedArrays(payload)
    requires InstantBy(world, payload, FieldSpec(world, payload, TimeField, value), at)
    ensures InstantFor(world, payload, at, value)
  {
    TextReproduced(world, payload, value);
  }

  lemma RefsAreUnique(payload: Json, spec: MapSpec, a: Refs, b: Refs)
    requires RefsBy(payload, spec, a) && RefsBy(payload, spec, b)
    ensures a == b
  {
    forall key
      ensures key in a <==> key in b
      ensures key in a ==> a[key] == b[key]
    {
      if key in a {
        var i :| LeadsAt(payload, spec, key, i);
      }
    }
  }

  lemma RefsReproduced(world: World, payload: Json, value: Json, refs: Refs)
    requires Clean(payload) && NoNestedArrays(payload) && RefsBy(payload, MapSpecFor(world, payload, value), refs)
    ensures RefsFor(world, payload, refs, value)
  {
    if !value.Obj? {
      ExtractedMap(payload, []);
      RefsAreUnique(payload, [], refs, map[]);
    } else if DistinctKeys(value.members) {
      var spec := MapSpecOf(world, payload, value.members);
      ReferencesReproduced(world, payload, value.members);
      ExtractedMap(payload, spec);
      RefsAreUnique(payload, spec, refs, MapFrom(payload, spec, 0, map[]).value);
    }
  }

  lemma LocationReproduced(world: World, payload: Json, value: Json, place: Option<Location>)
    requires Clean(payload) && NoNestedArrays(payload)
    requires PlaceBy(world, payload, PlaceSpecFor(world, payload, value), place)
    ensures PlaceFor(world, payload, place, value)
  {
    if value.Obj? {
      TextReproduced(world, payload, Get(value.members, "code"));
      TextReproduced(world, payload, Get(value.members, "name"));
      TextReproduced(world, payload, Get(value.members, "latitude"));
      TextReproduced(world, payload, Get(value.members, "longitude"));
    }
  }

  lemma AmountReproduced(world: World, payload: Json, value: Json, amount: Option<Money>)
    requires AmountBy(world, payload, AmountSpec(world, payload, value), amount)
    ensures AmountFor(world, payload, amount, value)
  {
  }

  lemma EssentialsReproduced(world: World, d: Delivery, fields: Fields, id: Json, at: Json, event: Event)
    requires Clean(d.payload) && NoNestedArrays(d.payload) && !event.UnclassifiedEvent?
    requires fields.entityId == FieldSpec(world, d.payload, IdField, id)
    requires fields.timestamp == FieldSpec(world, d.payload, TimeField, at)
    requires EssentialsBy(world, d, fields, event)
    ensures IdFor(world, d.payload, event.externalId, id) && InstantFor(world, d.payload, Some(event.ts), at)
  {
    TimeReproduced(world, d.payload, at, Some(event.ts));
    if ValuePath(world, d.payload, id).Some? {
      IdReproduced(world, d.payload, id);
    }
  }

  lemma FoundResolves(world: World, payload: Json, value: Json)
    requires Clean(payload) && NoNestedArrays(payload)
    ensures ResolveSpec(world, payload, OptionalPath(ValuePath(world, payload, value))) ==
            Ok(LeafFor(world, payload, value))
    ensures FieldSpec(world, payload, OtherField, value) == OptionalPath(ValuePath(world, payload, value))
    ensures TextFor(world, payload, TextIfTruthy(world, LeafFor(world, payload, value)), value)
  {
    TextReproduced(world, payload, value);
  }

  lemma RawTypeOfFound(world: World, payload: Json, doc: SchemaDoc, value: Json)
    requires Clean(payload) && NoNestedArrays(payload)
    requires doc.fields.eventType == OptionalPath(ValuePath(world, payload, value))
    ensures RawTypeIn(world, payload, doc) == Ok(TextIfTruthy(world, LeafFor(world, payload, value)))
  {
    FoundResolves(world, payload, value);
  }

  /** The vendor's own event type comes back: what the provider named as the raw milestone of a shipment or the raw kind
      of an invoice, up to surrounding blanks, exactly where it stands at a truthy leaf; it is also what is kept for the
      record. */
  lemma EventTypeReproduced(world: World, payload: Json, output: seq<Member>, doc: SchemaDoc)
    requires Clean(payload) && NoNestedArrays(payload) && InferredDoc(world, payload, output) == Some(doc)
    requires doc.classification == "shipment" || doc.classification == "invoice"
    ensures var named := Get(output, if doc.classification == "shipment" then "raw_milestone" else "raw_kind");
            && RawTypeIn(world, payload, doc).Ok?
            && TextFor(world, payload, RawTypeIn(world, payload, doc).value, named)
    ensures var note := if doc.classification == "shipment" then doc.fields.rawMilestone else doc.fields.rawKind;
            ResolveSpec(world, payload, note).Ok?
            && TextIfTruthy(world, ResolveSpec(world, payload, note).value) == RawTypeIn(world, payload, doc).value
  {
    var named := Get(output, if doc.classification == "shipment" then "raw_milestone" else "raw_kind");
    assert doc.fields.eventType == OptionalPath(ValuePath(world, payload, named));
    RawTypeOfFound(world, payload, doc, named);
    FoundResolves(world, payload, named);
  }

  /** The classification of the document is the provider's. */
  lemma ClassificationReproduced(world: World, payload: Json, output: seq<Member>)
    ensures InferredDoc(world, payload, output).Some? ==>
              Get(output, "classification") == Str(InferredDoc(world, payload, output).value.classification)
  {
  }

  // ----- Whole events -----

  /** What an extracted shipment says is what the provider said. */
  lemma ShipmentReproduced(world: World, d: Delivery, output: seq<Member>, doc: SchemaDoc, state: string, event: Event)
    requires Clean(d.payload) && NoNestedArrays(d.payload) && InferredDoc(world, d.payload, output) == Some(doc)
    requires doc.classification == "shipment" && ShipmentBy(world, d, doc.fields, state, event)
    ensures IdFor(world, d.payload, event.externalId, Get(output, "entity_external_id"))
    ensures InstantFor(world, d.payload, Some(event.ts), Get(output, "event_timestamp"))
    ensures RefsFor(world, d.payload, event.refs, Get(output, "reference_ids"))
    ensures PlaceFor(world, d.payload, event.location, Get(output, "location"))
  {
    var id, at := Get(output, "entity_external_id"), Get(output, "event_timestamp");
    EssentialsReproduced(world, d, doc.fields, id, at, event);
    RefsReproduced(world, d.payload, Get(output, "reference_ids"), event.refs);
    LocationReproduced(world, d.payload, Get(output, "location"), event.location);
  }

  /** What an extracted invoice says is what the provider said. */
  lemma InvoiceReproduced(world: World, d: Delivery, output: seq<Member>, doc: SchemaDoc, state: string, event: Event)
    requires Clean(d.payload) && NoNestedArrays(d.payload) && InferredDoc(world, d.payload, output) == Some(doc)
    requires doc.classification == "invoice" && InvoiceBy(world, d, doc.fields, state, event)
    ensures IdFor(world, d.payload, event.externalId, Get(output, "entity_external_id"))
    ensures InstantFor(world, d.payload, Some(event.ts), Get(output, "event_timestamp"))
    ensures RefsFor(world, d.payload, event.refs, Get(output, "linked_references"))
    ensures AmountFor(world, d.payload, event.amount, Get(output, "amount"))
    ensures InstantFor(world, d.payload, event.dueAt, Get(output, "due_at"))
  {
    var id, at := Get(output, "entity_external_id"), Get(output, "event_timestamp");
    EssentialsReproduced(world, d, doc.fields, id, at, event);
    RefsReproduced(world, d.payload, Get(output, "linked_references"), event.refs);
    AmountReproduced(world, d.payload, Get(output, "amount"), event.amount);
    TimeReproduced(world, d.payload, Get(output, "due_at"), event.dueAt);
  }

  /** The provider's summary, cut off at 500 characters, and its reason. */
  predicate NoteFor(world: World, payload: Json, event: Event, summary: Json, reason: Json) {
    && event.UnclassifiedEvent?
    && var text, because := LeafFor(world, payload, summary), LeafFor(world, payload, reason);
       && (event.summary.Some? <==> Truthy(text))
       && (event.summary.Some? ==>
             var all := Text(text, world.repr);
             event.summary.value <= all && |event.summary.value| == if |all| < 500 then |all| else 500)
       && event.reason ==
          Some(if Truthy(because) then Text(because, world.repr) else "schema_driven_unclassified")
  }

  lemma NoteReproduced(world: World, d: Delivery, fields: Fields, summary: Json, reason: Json, event: Event)
    requires Clean(d.payload) && NoNestedArrays(d.payload) && UnclassifiedBy(world, d, fields, event)
    requires fields.summary == FieldSpec(world, d.payload, OtherField, summary)
    requires fields.reason == FieldSpec(world, d.payload, OtherField, reason)
    ensures NoteFor(world, d.payload, event, summary, reason)
  {
    FoundResolves(world, d.payload, summary);
    FoundResolves(world, d.payload, reason);
  }

  lemma NoteFields(world: World, payload: Json, output: seq<Member>, doc: SchemaDoc)
    requires InferredDoc(world, payload, output) == Some(doc) && doc.classification == "unclassified"
    ensures doc.fields.summary == FieldSpec(world, payload, OtherField, Get(output, "summary"))
    ensures doc.fields.reason == FieldSpec(world, payload, OtherField, Get(output, "reason"))
  {
    assert doc.fields == UnclassifiedFields(world, payload, output);
  }

  /** What an extracted event of neither kind says is what the provider said. */
  lemma UnclassifiedReproduced(world: World, d: Delivery, output: seq<Member>, doc: SchemaDoc, event: Event)
    requires Clean(d.payload) && NoNestedArrays(d.payload) && InferredDoc(world, d.payload, output) == Some(doc)
    requires doc.classification == "unclassified" && UnclassifiedBy(world, d, doc.fields, event)
    ensures NoteFor(world, d.payload, event, Get(output, "summary"), Get(output, "reason"))
  {
    NoteFields(world, d.payload, output, doc);
    NoteReproduced(world, d, doc.fields, Get(output, "summary"), Get(output, "reason"), event);
  }
}
