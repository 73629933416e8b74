/** Learning a schema document from one provider answer: inferring it, checking it against the payload it was
    inferred from, and storing it. */
module Learning {
  import opened Prelude
  import opened Json
  import opened Canonical
  import opened PyText
  import opened Paths
  import opened Discovery
  import opened Templates
  import opened Fingerprint
  import opened Adapter
  import opened Registry

  // ----- Inferring -----

  datatype FieldKind = IdField | TimeField | OtherField

  /** Where the payload holds a value, if anywhere. */
  function ValuePath(world: World, payload: Json, value: Json): Option<string> {
    if value == Null then None else FindPath(payload, Strip(Text(value, world.repr)))
  }

  function OptionalPath(path: Option<string>): Option<Spec> {
    if path.Some? then Some(Path(path.value)) else None
  }

  function FieldSpec(world: World, payload: Json, kind: FieldKind, value: Json): Option<Spec> {
    var path := ValuePath(world, payload, value);
    if path.Some? then Some(Path(path.value))
    else if kind == IdField && value.Str? then
      var template := FirstTemplate(payload, value.s, SEPARATORS);
      if template.Some? then Some(Template(template.value)) else None
    else if kind == TimeField && value.Str? then OptionalPath(world.findTimestamp(payload, value.s))
    else None
  }

  /** `_map_field`. */
  method MapField(world: World, payload: Json, kind: FieldKind, value: Json) returns (spec: Option<Spec>)
    ensures spec == FieldSpec(world, payload, kind, value)
  {
    if value == Null {
      return None;
    }
    var path := FindValuePath(payload, Strip(Text(value, world.repr)));
    if path.Some? {
      return Some(Path(path.value));
    }
    if kind == IdField && value.Str? {
      var template := InferCompositeTemplate(payload, value.s);
      if template.Some? {
        return Some(Template(template.value));
      }
    }
    if kind == TimeField && value.Str? {
      return OptionalPath(world.findTimestamp(payload, value.s));
    }
    return None;
  }

  function MemberPath(world: World, payload: Json, v: Json, key: string): Option<string> {
    if v.Obj? then ValuePath(world, payload, Get(v.members, key)) else None
  }

  /** `_map_location`. */
  function PlaceSpecFor(world: World, payload: Json, location: Json): Option<PlaceSpec> {
    var spec := PlaceSpec(MemberPath(world, payload, location, "code"), MemberPath(world, payload, location, "name"),
                          MemberPath(world, payload, location, "latitude"),
                          MemberPath(world, payload, location, "longitude"));
    if spec == PlaceSpec(None, None, None, None) then None else Some(spec)
  }

  function MapSpecOf(world: World, payload: Json, members: seq<Member>): MapSpec {
    if members == [] then []
    else
      var last := members[|members| - 1];
      var front := MapSpecOf(world, payload, members[..|members| - 1]);
      var path := ValuePath(world, payload, last.value);
      if path.Some? then front + [(last.key, path.value)] else front
  }

  function MapSpecFor(world: World, payload: Json, refs: Json): MapSpec {
    if refs.Obj? then MapSpecOf(world, payload, refs.members) else []
  }

  /** `_map_reference_ids` and `_map_linked_references`. */
  method MapReferences(world: World, payload: Json, refs: Json) returns (mapped: MapSpec)
    ensures mapped == MapSpecFor(world, payload, refs)
  {
    mapped := [];
    if refs.Obj? {
      var members := refs.members;
      for i := 0 to |members|
        invariant mapped == MapSpecOf(world, payload, members[..i])
      {
        assert members[..i + 1][..i] == members[..i];
        if members[i].value != Null {
          var path := FindValuePath(payload, Strip(Text(members[i].value, world.repr)));
          if path.Some? {
            mapped := mapped + [(members[i].key, path.value)];
          }
        }
      }
      assert members[..|members|] == members;
    }
  }

  /** `_map_amount`. */
  function AmountSpec(world: World, payload: Json, amount: Json): Option<Spec> {
    if !amount.Obj? then None
    else
      match Lookup(amount.members, "currency")
      case Some(Str(currency)) => if currency == "" then None else OptionalPath(world.findMoney(payload, currency))
      case _ => None
  }

  const NO_FIELDS := Fields(None, None, None, None, None, [], None, None, None, [], None, None)

  function ShipmentFields(world: World, payload: Json, output: seq<Member>): Fields {
    var eventType := OptionalPath(ValuePath(world, payload, Get(output, "raw_milestone")));
    NO_FIELDS.(
      entityId := FieldSpec(world, payload, IdField, Get(output, "entity_external_id")),
      timestamp := FieldSpec(world, payload, TimeField, Get(output, "event_timestamp")),
      eventType := eventType,
      rawMilestone := eventType,
      location := PlaceSpecFor(world, payload, Get(output, "location")),
      referenceIds := MapSpecFor(world, payload, Get(output, "reference_ids")))
  }

  function InvoiceFields(world: World, payload: Json, output: seq<Member>): Fields {
    var eventType := OptionalPath(ValuePath(world, payload, Get(output, "raw_kind")));
    NO_FIELDS.(
      entityId := FieldSpec(world, payload, IdField, Get(output, "entity_external_id")),
      timestamp := FieldSpec(world, payload, TimeField, Get(output, "event_timestamp")),
      eventType := eventType,
      rawKind := eventType,
      amount := AmountSpec(world, payload, Get(output, "amount")),
      dueAt := FieldSpec(world, payload, TimeField, Get(output, "due_at")),
      linkedReferences := MapSpecFor(world, payload, Get(output, "linked_references")))
  }

  function UnclassifiedFields(world: World, payload: Json, output: seq<Member>): Fields {
    NO_FIELDS.(
      summary := FieldSpec(world, payload, OtherField, Get(output, "summary")),
      reason := FieldSpec(world, payload, OtherField, Get(output, "reason")))
  }

  function WithEssentials(doc: SchemaDoc): Option<SchemaDoc> {
    if doc.fields.entityId.Some? && doc.fields.timestamp.Some? then Some(doc) else None
  }

  function InferredDoc(world: World, payload: Json, output: seq<Member>): Option<SchemaDoc> {
    var classification := Get(output, "classification");
    if classification == Str("shipment") then
      WithEssentials(SchemaDoc("shipment", ShipmentFields(world, payload, output)))
    else if classification == Str("invoice") then
      WithEssentials(SchemaDoc("invoice", InvoiceFields(world, payload, output)))
    else if classification == Str("unclassified") then
      Some(SchemaDoc("unclassified", UnclassifiedFields(world, payload, output)))
    else None
  }

  /** `_infer_schema_doc`. */
  method InferSchemaDoc(world: World, payload: Json, output: seq<Member>) returns (doc: Option<SchemaDoc>)
    ensures doc == InferredDoc(world, payload, output)
  {
    var fields := NO_FIELDS;
    var classification := Get(output, "classification");
    if classification == Str("shipment") || classification == Str("invoice") {
      var id := MapField(world, payload, IdField, Get(output, "entity_external_id"));
      var ts := MapField(world, payload, TimeField, Get(output, "event_timestamp"));
      fields := fields.(entityId := id, timestamp := ts);
      if classification == Str("shipment") {
        var raw := MapField(world, payload, OtherField, Get(output, "raw_milestone"));
        var refs := MapReferences(world, payload, Get(output, "reference_ids"));
        fields := fields.(eventType := raw, rawMilestone := raw,
          location := PlaceSpecFor(world, payload, Get(output, "location")), referenceIds := refs);
      } else {
        var raw := MapField(world, payload, OtherField, Get(output, "raw_kind"));
        var due := MapField(world, payload, TimeField, Get(output, "due_at"));
        var refs := MapReferences(world, payload, Get(output, "linked_references"));
        fields := fields.(eventType := raw, rawKind := raw,
          amount := AmountSpec(world, payload, Get(output, "amount")), dueAt := due, linkedReferences := refs);
      }
      return if id.None? || ts.None? then None else Some(SchemaDoc(classification.s, fields));
    }
    if classification == Str("unclassified") {
      var summary := MapField(world, payload, OtherField, Get(output, "summary"));
      var reason := MapField(world, payload, OtherField, Get(output, "reason"));
      fields := fields.(summary := summary, reason := reason);
      return Some(SchemaDoc("unclassified", fields));
    }
    return None;
  }

  // ----- Checking -----

  /** `needle in s`. */
  predicate Contains(s: string, needle: string) {
    exists i :: 0 <= i <= |s| && needle <= s[i..]
  }

  /** The expected id against the extracted one; comparing something else than a string raises. */
  function IdAgrees(expected: Json, actual: string): Result<bool> {
    if !Truthy(expected) then Ok(true)
    else if !expected.Str? then Raised
    else Ok(expected.s == actual || Contains(actual, expected.s) || Contains(expected.s, actual))
  }

  /** `_validate_schema`. */
  function Reproduces(world: World, d: Delivery, doc: SchemaDoc, output: seq<Member>): Result<bool> {
    if doc.classification == "unclassified" then
      var extraction :- Extract(world, d, doc, None, None);
      Ok(extraction.Extracted?)
    else
      match Get(output, "event_type")
      case Str(state) =>
        if state == "" then Ok(false)
        else
          var extraction :- Extract(world, d, doc, Some(state), None);
          if extraction.NotExtracted? || extraction.event.UnclassifiedEvent? then Ok(false)
          else IdAgrees(Get(output, "entity_external_id"), extraction.event.externalId)
      case _ => Ok(false)
  }

  // ----- Storing -----

  /** `_find_raw_event_type`, as the text that is stored. */
  function RawTypeIn(world: World, payload: Json, doc: SchemaDoc): Result<Option<string>> {
    match doc.fields.eventType
    case Some(Path(p)) =>
      var v :- Resolve(payload, p);
      Ok(TextIfTruthy(world, v))
    case _ => Ok(None)
  }

  /** What is known afterwards, and the row's id, None where nothing was stored, or an exception. */
  datatype Lesson = Lesson(known: Knowledge, nextId: nat, id: Result<Option<nat>>)

  /** The mapping that is stored beside the document. */
  function WithEventType(world: World, known: Knowledge, d: Delivery, doc: SchemaDoc, output: seq<Member>): Knowledge {
    var raw := RawTypeIn(world, d.payload, doc);
    match Get(output, "event_type")
    case Str(state) =>
      if raw.Raised? || raw.value.None? || state == "" || doc.classification == "unclassified" then known
      else known.(eventTypes := MappedOnce(known.eventTypes, (d.vendorId, raw.value.value), doc.classification, state))
    case _ => known
  }

  /** `discover_and_persist`. */
  function Learn(world: World, known: Knowledge, nextId: nat, d: Delivery, output: seq<Member>): Lesson {
    var doc := InferredDoc(world, d.payload, output);
    if doc.None? then Lesson(known, nextId, Ok(None))
    else
      match Reproduces(world, d, doc.value, output)
      case Raised => Lesson(known, nextId, Raised)
      case Ok(false) => Lesson(known, nextId, Ok(None))
      case Ok(true) =>
        match Persisted(known.rows, nextId, d.vendorId, FingerprintOf(d.payload, {}), doc.value)
        case Raised => Lesson(known, nextId, Raised)
        case Ok((rows, id)) =>
          var known' := WithEventType(world, known.(rows := rows), d, doc.value, output);
          Lesson(known', nextId + 1, if RawTypeIn(world, d.payload, doc.value).Raised? then Raised else Ok(Some(id)))
  }

  /** `discover_and_persist`, on the registry's tables. */
  method DiscoverAndPersist(world: World, registry: SchemaRegistry, d: Delivery, output: seq<Member>)
      returns (id: Result<Option<nat>>)
    requires registry.Valid()
    modifies registry
    ensures registry.Valid()
    ensures var lesson := Learn(world, old(registry.known), old(registry.nextId), d, output);
            registry.known == lesson.known && registry.nextId == lesson.nextId && id == lesson.id
  {
    var doc := InferSchemaDoc(world, d.payload, output);
    if doc.None? {
      return Ok(None);
    }
    var good := Reproduces(world, d, doc.value, output);
    if good.Raised? {
      return Raised;
    }
    if !good.value {
      return Ok(None);
    }
    var shape := StructuralFingerprint(d.payload, {});
    var row := registry.PersistSchema(d.vendorId, shape, doc.value);
    if row.Raised? {
      return Raised;
    }
    var raw := RawTypeIn(world, d.payload, doc.value);
    if raw.Raised? {
      return Raised;
    }
    var state := Get(output, "event_type");
    if state.Str? && state.s != "" && raw.value.Some? && doc.value.classification != "unclassified" {
      registry.PersistEventTypeOnce(d.vendorId, raw.value.value, doc.value.classification, state.s);
    }
    return Ok(Some(row.value));
  }
}
