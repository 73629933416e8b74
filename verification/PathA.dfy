/** The pipeline up to finalisation: Path A by a learned document, Path B by the orchestrator, and why nothing in
    an inferred document can make Path A raise. */
module PathA {
  import opened Prelude
  import opened Json
  import opened Canonical
  import opened PyText
  import opened Paths
  import opened Discovery
  import opened Templates
  import opened Fingerprint
  import opened Adapter
  import opened Registry
  import opened Learning

  // ----- The pipeline, as far as it learns -----

  /** `_classify_and_persist` asks the orchestrator for a classification and a state: an answer, None, or an
      exception. */
  type TypeAnswer = Result<Option<(string, string)>>

  /** What Path B comes back with: an event, with the provider's output unless it came from the cache; a
      deferral, as when the budget is spent; nothing that can be used; or the provider's exception, which nobody
      catches. */
  datatype PathB = Answered(event: Event, output: Option<seq<Member>>) | Deferred | Unsupported | Unreachable

  /** What is known afterwards, how often the orchestrator was asked, and the event, None where Path A gives
      up. */
  datatype Attempt = Attempt(known: Knowledge, asked: nat, event: Result<Option<Event>>)

  function SecondPass(world: World, known: Knowledge, asked: nat, d: Delivery, row: SchemaRow, kind: string,
                      state: string): (a: Attempt)
    ensures a.event.Ok? && a.event.value.Some? ==> a.event.value.value.eventId == d.eventId
  {
    match Extract(world, d, row.doc, Some(state), Some(kind))
    case Raised => Attempt(known, asked, Raised)
    case Ok(NotExtracted(_)) => Attempt(known, asked, Ok(None))
    case Ok(Extracted(event, _, _)) =>
      Attempt(known.(rows := Counted(known.rows, row.id, true)), asked, Ok(Some(event)))
  }

  /** `_process_via_schema`. */
  function ViaSchema(world: World, known: Knowledge, d: Delivery, row: SchemaRow, answer: TypeAnswer): (a: Attempt)
    ensures a.event.Ok? && a.event.value.Some? ==> a.event.value.value.eventId == d.eventId
  {
    match Extract(world, d, row.doc, None, None)
    case Raised => Attempt(known, 0, Raised)
    case Ok(first) =>
      if row.doc.classification == "unclassified" && first.Extracted? then
        Attempt(known.(rows := Counted(known.rows, row.id, true)), 0, Ok(Some(first.event)))
      else if first.raw.None? || first.raw.value == "" then Attempt(known, 0, Ok(None))
      else
        var key := (d.vendorId, first.raw.value);
        if key in known.eventTypes then
          SecondPass(world, known, 0, d, row, known.eventTypes[key].classification, known.eventTypes[key].state)
        else
          match answer
          case Raised => Attempt(known, 1, Raised)
          case Ok(None) => Attempt(known, 1, Ok(None))
          case Ok(Some((kind, state))) =>
            var known' := known.(eventTypes := Mapped(known.eventTypes, key, kind, state));
            SecondPass(world, known', 1, d, row, kind, state)
  }

  datatype Outcome = Outcome(known: Knowledge, nextId: nat, asked: nat, event: Result<Option<Event>>)

  /** Path B: ask the orchestrator, and learn from a fresh answer; what learning raises is swallowed. */
  function ViaProvider(world: World, known: Knowledge, nextId: nat, asked: nat, d: Delivery, b: PathB): Outcome {
    match b
    case Answered(event, None) => Outcome(known, nextId, asked + 1, Ok(Some(event)))
    case Answered(event, Some(output)) =>
      var lesson := Learn(world, known, nextId, d, output);
      Outcome(lesson.known, lesson.nextId, asked + 1, Ok(Some(event)))
    case Unreachable => Outcome(known, nextId, asked + 1, Raised)
    case _ => Outcome(known, nextId, asked + 1, Ok(None))
  }

  /** `process_event` up to finalisation. */
  function Process(world: World, known: Knowledge, nextId: nat, d: Delivery, answer: TypeAnswer, b: PathB): Outcome {
    match BestOf(known.rows, d.vendorId, FingerprintOf(d.payload, {}))
    case None => ViaProvider(world, known, nextId, 0, d, b)
    case Some(row) =>
      var a := ViaSchema(world, known, d, row, answer);
      if a.event != Ok(None) then Outcome(a.known, nextId, a.asked, a.event)
      else
        ViaProvider(world, a.known.(rows := Counted(a.known.rows, row.id, false)), nextId, a.asked, d, b)
  }

  class Pipeline {
    const world: World
    const registry: SchemaRegistry
    /** How often the orchestrator was asked. */
    var asked: nat

    constructor (world: World, registry: SchemaRegistry)
      ensures this.world == world && this.registry == registry && asked == 0
    {
      this.world, this.registry, asked := world, registry, 0;
    }

    method ProcessViaSchema(d: Delivery, row: SchemaRow, answer: TypeAnswer) returns (event: Result<Option<Event>>)
      requires registry.Valid()
      modifies registry, this
      ensures registry.Valid() && registry.nextId == old(registry.nextId)
      ensures var a := ViaSchema(world, old(registry.known), d, row, answer);
              registry.known == a.known && asked == old(asked) + a.asked && event == a.event
    {
      var first := Extract(world, d, row.doc, None, None);
      if first.Raised? {
        return Raised;
      }
      if row.doc.classification == "unclassified" && first.value.Extracted? {
        registry.Increment(row.id, true);
        return Ok(Some(first.value.event));
      }
      var raw := first.value.raw;
      if raw.None? || raw.value == "" {
        return Ok(None);
      }
      var mapping := registry.LookupEventType(d.vendorId, raw.value);
      var kind, state;
      if mapping.Some? {
        kind, state := mapping.value.classification, mapping.value.state;
      } else {
        asked := asked + 1;
        if answer.Raised? {
          return Raised;
        }
        if answer.value.None? {
          return Ok(None);
        }
        kind, state := answer.value.value.0, answer.value.value.1;
        registry.PersistEventType(d.vendorId, raw.value, kind, state);
      }
      var second := Extract(world, d, row.doc, Some(state), Some(kind));
      if second.Raised? {
        return Raised;
      }
      if second.value.NotExtracted? {
        return Ok(None);
      }
      registry.Increment(row.id, true);
      return Ok(Some(second.value.event));
    }

    method ProcessEvent(d: Delivery, answer: TypeAnswer, b: PathB) returns (event: Result<Option<Event>>)
      requires registry.Valid()
      modifies registry, this
      ensures registry.Valid()
      ensures var o := Process(world, old(registry.known), old(registry.nextId), d, answer, b);
              && registry.known == o.known && registry.nextId == o.nextId
              && asked == old(asked) + o.asked && event == o.event
    {
      var row := registry.Lookup(d.vendorId, d.payload);
      if row.Some? {
        event := ProcessViaSchema(d, row.value, answer);
        if event != Ok(None) {
          return;
        }
        registry.Increment(row.value.id, false);
      }
      asked := asked + 1;
      if b.Unreachable? {
        return Raised;
      }
      if !b.Answered? {
        return Ok(None);
      }
      if b.output.Some? {
        var _ := DiscoverAndPersist(world, registry, d, b.output.value);
      }
      return Ok(Some(b.event));
    }
  }

  // ----- Printed paths never raise -----

  /** A path that the discoverer's walks can print. */
  ghost predicate PrintedPath(path: string) {
    exists segs :: CleanSegs(segs) && path == PathText(segs)
  }

  /** A closing bracket comes with an opening one. */
  predicate Bracketed(part: string) {
    ']' in part ==> '[' in part
  }

  lemma BracketedStepsOn(current: Json, part: string)
    requires Bracketed(part)
    ensures StepInto(current, part).Ok?
  {
    if EndsWith(part, "]") {
      assert part[|part| - 1..][0] == ']';
      assert part[|part| - 1] == ']';
    }
  }

  lemma {:induction false} GroupsAreBracketed(segs: seq<Seg>, current: string)
    requires CleanSegs(segs) && Bracketed(current)
    ensures forall i :: 0 <= i < |Groups(segs, current)| ==> Bracketed(Groups(segs, current)[i])
    decreases |segs|
  {
    if segs != [] {
      match segs[0] {
        case Key(k) => GroupsAreBracketed(segs[1..], k);
        case Idx(i) =>
          var next := current + "[" + Decimal(i) + "]";
          assert next[|current|] == '[';
          GroupsAreBracketed(segs[1..], next);
      }
    }
  }

  lemma {:induction false} BracketedPartsWalkOn(current: Json, parts: seq<string>)
    requires forall i :: 0 <= i < |parts| ==> Bracketed(parts[i])
    ensures ResolveFrom(current, parts).Ok?
    decreases |parts|
  {
    if parts != [] && current != Null {
      BracketedStepsOn(current, parts[0]);
      BracketedPartsWalkOn(StepInto(current, parts[0]).value, parts[1..]);
    }
  }

  /** Whatever payload a printed path meets, resolving it does not raise. */
  lemma PrintedNeverRaises(payload: Json, path: string)
    requires PrintedPath(path)
    ensures Resolve(payload, path).Ok?
  {
    var segs :| CleanSegs(segs) && path == PathText(segs);
    PrintThenSplit(segs);
    GroupsAreBracketed(segs, "");
    BracketedPartsWalkOn(payload, Groups(segs, ""));
  }

  // ----- Inferred documents -----

  ghost predicate PrintedOption(path: Option<string>) {
    path.Some? ==> PrintedPath(path.value)
  }

  /** The two substring searches report where a string leaf stands. */
  ghost predicate SearchesPrint(world: World, payload: Json) {
    && (forall text :: PrintedOption(world.findTimestamp(payload, text)))
    && (forall text :: PrintedOption(world.findMoney(payload, text)))
  }

  /** A single printed path, or nothing. */
  ghost predicate PrintedSpec(spec: Option<Spec>) {
    spec.Some? ==> spec.value.Path? && PrintedPath(spec.value.path)
  }

  ghost predicate PrintedMap(spec: MapSpec) {
    forall i :: 0 <= i < |spec| ==> PrintedPath(spec[i].1)
  }

  ghost predicate PrintedPlace(spec: Option<PlaceSpec>) {
    spec.Some? ==> && PrintedOption(spec.value.code) && PrintedOption(spec.value.name)
                   && PrintedOption(spec.value.latitude) && PrintedOption(spec.value.longitude)
  }

  /** Everything but the external id, which may be a template, is a printed path. */
  ghost predicate PrintedFields(fields: Fields) {
    && (fields.entityId.Some? && fields.entityId.value.Path? ==> PrintedPath(fields.entityId.value.path))
    && PrintedSpec(fields.timestamp) && PrintedSpec(fields.eventType)
    && PrintedSpec(fields.rawMilestone) && PrintedPlace(fields.location) && PrintedMap(fields.referenceIds)
    && PrintedSpec(fields.rawKind) && PrintedSpec(fields.amount) && PrintedSpec(fields.dueAt)
    && PrintedMap(fields.linkedReferences)
  }

  lemma FoundIsPrinted(world: World, payload: Json, value: Json)
    requires Clean(payload) && ValuePath(world, payload, value).Some?
    ensures PrintedPath(ValuePath(world, payload, value).value)
  {
    var segs := FoundPathResolves(payload, Strip(Text(value, world.repr)));
  }

  lemma SpecIsPrinted(world: World, payload: Json, kind: FieldKind, value: Json)
    requires Clean(payload) && SearchesPrint(world, payload)
    ensures var spec := FieldSpec(world, payload, kind, value);
            && (spec.Some? && spec.value.Path? ==> PrintedPath(spec.value.path))
            && (kind != IdField ==> PrintedSpec(spec))
  {
    if ValuePath(world, payload, value).Some? {
      FoundIsPrinted(world, payload, value);
    }
  }

  lemma PathIsPrinted(world: World, payload: Json, value: Json)
    requires Clean(payload)
    ensures PrintedOption(ValuePath(world, payload, value))
  {
    if ValuePath(world, payload, value).Some? {
      FoundIsPrinted(world, payload, value);
    }
  }

  lemma PlaceIsPrinted(world: World, payload: Json, location: Json)
    requires Clean(payload)
    ensures PrintedPlace(PlaceSpecFor(world, payload, location))
  {
    if location.Obj? {
      PathIsPrinted(world, payload, Get(location.members, "code"));
      PathIsPrinted(world, payload, Get(location.members, "name"));
      PathIsPrinted(world, payload, Get(location.members, "latitude"));
      PathIsPrinted(world, payload, Get(location.members, "longitude"));
    }
  }

  lemma {:induction false} MapIsPrinted(world: World, payload: Json, members: seq<Member>)
    requires Clean(payload)
    ensures PrintedMap(MapSpecOf(world, payload, members))
  {
    if members != [] {
      MapIsPrinted(world, payload, members[..|members| - 1]);
      PathIsPrinted(world, payload, members[|members| - 1].value);
    }
  }

  lemma ReferencesArePrinted(world: World, payload: Json, refs: Json)
    requires Clean(payload)
    ensures PrintedMap(MapSpecFor(world, payload, refs))
  {
    if refs.Obj? {
      MapIsPrinted(world, payload, refs.members);
    }
  }

  lemma AmountIsPrinted(world: World, payload: Json, amount: Json)
    requires SearchesPrint(world, payload)
    ensures PrintedSpec(AmountSpec(world, payload, amount))
  {
  }

  lemma ShipmentFieldsArePrinted(world: World, payload: Json, output: seq<Member>)
    requires Clean(payload) && SearchesPrint(world, payload)
    ensures PrintedFields(ShipmentFields(world, payload, output))
  {
    SpecIsPrinted(world, payload, IdField, Get(output, "entity_external_id"));
    SpecIsPrinted(world, payload, TimeField, Get(output, "event_timestamp"));
    PathIsPrinted(world, payload, Get(output, "raw_milestone"));
    PlaceIsPrinted(world, payload, Get(output, "location"));
    ReferencesArePrinted(world, payload, Get(output, "reference_ids"));
  }

  lemma InvoiceFieldsArePrinted(world: World, payload: Json, output: seq<Member>)
    requires Clean(payload) && SearchesPrint(world, payload)
    ensures PrintedFields(InvoiceFields(world, payload, output))
  {
    SpecIsPrinted(world, payload, IdField, Get(output, "entity_external_id"));
    SpecIsPrinted(world, payload, TimeField, Get(output, "event_timestamp"));
    PathIsPrinted(world, payload, Get(output, "raw_kind"));
    AmountIsPrinted(world, payload, Get(output, "amount"));
    SpecIsPrinted(world, payload, TimeField, Get(output, "due_at"));
    ReferencesArePrinted(world, payload, Get(output, "linked_references"));
  }

  /** Every optional field of an inferred document resolves without raising, whatever payload it meets. */
  lemma InferredFieldsArePrinted(world: World, payload: Json, output: seq<Member>)
    requires Clean(payload) && SearchesPrint(world, payload)
    requires InferredDoc(world, payload, output).Some?
    requires InferredDoc(world, payload, output).value.classification != "unclassified"
    ensures PrintedFields(InferredDoc(world, payload, output).value.fields)
  {
    ShipmentFieldsArePrinted(world, payload, output);
    InvoiceFieldsArePrinted(world, payload, output);
  }
}
