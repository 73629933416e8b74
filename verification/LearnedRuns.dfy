/** What later payloads of a learned vendor and shape get out of it: the fingerprint keeps the required fields present,
    and Path A turns every conforming payload into the right event without a question. */
module LearnedRuns {
  import opened Prelude
  import opened Json
  import opened Canonical
  import opened PyText
  import opened Paths
  import opened Discovery
  import opened Templates
  import opened Fingerprint
  import opened Adapter
  import opened ExtractedEvents
  import opened Registry
  import opened Learning
  import opened PathA

  // ----- What a later payload must bring -----

  /** A value that, if it is there at all, reads as a non-empty external id: no empty string, zero, false or empty
      container, which the fingerprint does not tell from other values of their type. */
  predicate ReadsAsId(world: World, v: Json) {
    v != Null ==> Truthy(v) && Text(v, world.repr) != ""
  }

  predicate Solid(text: string) {
    exists i :: 0 <= i < |text| && text[i] != ':' && text[i] != '-'
  }

  /** A value that, if it is there at all, leaves more in a template than separators that are trimmed off. */
  predicate ReadsAsPart(world: World, v: Json) {
    v != Null ==> Truthy(v) && Solid(Text(v, world.repr))
  }

  predicate ReadsAsTime(world: World, v: Json) {
    v != Null ==> Truthy(v) && world.parseTimestamp(Text(v, world.repr)).Some?
  }

  predicate ReadsAsNumber(world: World, v: Json) {
    v != Null ==> world.toFloat(v).Some?
  }

  /** What a path leads to, where it does not raise. */
  function ValueAt(payload: Json, path: string): Json {
    var v := Resolve(payload, path);
    if v.Ok? then v.value else Null
  }

  function HolePath(part: string): string
    requires IsHole(part)
  {
    "$." + part[1..|part| - 1]
  }

  predicate IdReads(world: World, payload: Json, spec: Option<Spec>) {
    match spec
    case Some(Path(p)) => ReadsAsId(world, ValueAt(payload, p))
    case Some(Template(t)) =>
      exists i :: && 0 <= i < |SplitHoles(t)| && IsHole(SplitHoles(t)[i])
                  && ReadsAsPart(world, ValueAt(payload, HolePath(SplitHoles(t)[i])))
    case _ => false
  }

  predicate TimeReads(world: World, payload: Json, spec: Option<Spec>) {
    spec.Some? && spec.value.Path? && ReadsAsTime(world, ValueAt(payload, spec.value.path))
  }

  predicate CoordinatesRead(world: World, payload: Json, spec: Option<PlaceSpec>) {
    spec.Some? ==> && (spec.value.latitude.Some? ==> ReadsAsNumber(world, ValueAt(payload, spec.value.latitude.value)))
                   && (spec.value.longitude.Some? ==>
                         ReadsAsNumber(world, ValueAt(payload, spec.value.longitude.value)))
  }

  /** Only values are looked at here: that the required fields are present is what the fingerprint is for. */
  predicate Conforms(world: World, doc: SchemaDoc, raws: set<string>, d: Delivery) {
    && Named(d) && Clean(d.payload)
    && RawTypeIn(world, d.payload, doc).Ok? && RawTypeIn(world, d.payload, doc).value.Some?
    && RawTypeIn(world, d.payload, doc).value.value in raws
    && IdReads(world, d.payload, doc.fields.entityId)
    && TimeReads(world, d.payload, doc.fields.timestamp)
    && CoordinatesRead(world, d.payload, doc.fields.location)
  }

  // ----- What the document must look like -----

  predicate ArrayFreeHoles(template: string) {
    var parts := SplitHoles(template);
    forall i :: 0 <= i < |parts| && IsHole(parts[i]) ==> NoBrackets(parts[i])
  }

  predicate ArrayFreeId(spec: Spec) {
    match spec
    case Path(p) => NoBrackets(p)
    case Template(t) => ArrayFreeHoles(t)
    case FirstOf(_) => false
  }

  /** No required path goes through an array. */
  predicate ArrayFree(doc: SchemaDoc) {
    && doc.fields.timestamp.Some? && doc.fields.timestamp.value.Path? && NoBrackets(doc.fields.timestamp.value.path)
    && doc.fields.entityId.Some? && ArrayFreeId(doc.fields.entityId.value)
  }

  /** A payload whose keys the path and template languages can spell. */
  ghost predicate Spellable(world: World, payload: Json) {
    payload.Obj? && Clean(payload) && BraceFreeKeys(payload) && SearchesPrint(world, payload)
  }

  /** `doc` came out of a discovery on `first`. */
  ghost predicate Discovered(world: World, first: Delivery, output: seq<Member>, doc: SchemaDoc) {
    && Spellable(world, first.payload) && InferredDoc(world, first.payload, output) == Some(doc)
    && Reproduces(world, first, doc, output) == Ok(true)
    && doc.classification != "unclassified" && ArrayFree(doc)
  }

  // ----- Presence, from the fingerprint -----

  predicate SameShape(a: Json, b: Json) {
    Clean(a) && Clean(b) && FingerprintOf(a, {}) == FingerprintOf(b, {})
  }

  /** What is there in one payload of a shape is there in every other. */
  lemma StaysPresent(a: Json, b: Json, path: string)
    requires SameShape(a, b) && NoBrackets(path)
    ensures Resolve(a, path).Ok? && Resolve(b, path).Ok?
    ensures ValueAt(a, path) != Null ==> ValueAt(b, path) != Null
  {
    SameFingerprintSamePaths(a, b, path);
  }

  // ----- Templates on later payloads -----

  lemma HolePathIsBracketFree(part: string)
    requires IsHole(part) && NoBrackets(part)
    ensures NoBrackets(HolePath(part)) && HolePath(part) != ""
  {
  }

  /** Array-free holes never raise, and a hole with a truthy value leaves that value's text in the result. */
  lemma {:induction false} FillingKeeps(payload: Json, parts: seq<string>, repr: Json -> string, n: nat, c: char)
    requires Clean(payload)
    requires forall i :: 0 <= i < |parts| && IsHole(parts[i]) ==> NoBrackets(parts[i])
    ensures Fill(payload, parts, repr).Ok?
    ensures n < |parts| && IsHole(parts[n]) && Truthy(ValueAt(payload, HolePath(parts[n])))
            && c in Text(ValueAt(payload, HolePath(parts[n])), repr) ==>
              Fill(payload, parts, repr).value.hasValue && c in Fill(payload, parts, repr).value.text
    decreases |parts|
  {
    if parts != [] {
      if IsHole(parts[0]) {
        HolePathIsBracketFree(parts[0]);
        SameFingerprintSamePaths(payload, payload, HolePath(parts[0]));
      }
      FillingKeeps(payload, parts[1..], repr, if n > 0 then n - 1 else 0, c);
    }
  }

  lemma TrimmingKeeps(text: string, c: char)
    requires c in text && c != ':' && c != '-'
    ensures Trimmed(Filling(text, true)).Some? && Trimmed(Filling(text, true)).value != ""
  {
    StripKeeps(text, x => x == ':', c);
    StripKeeps(StripChar(text, ':'), x => x == '-', c);
    assert c in StripChar(StripChar(text, ':'), '-');
  }

  /** Every path of a template is that of a leaf of the payload. */
  ghost predicate LeafPath(payload: Json, path: string) {
    exists target :: FindPath(payload, target) == Some("$." + path)
  }

  lemma FoundPathDropsRoot(payload: Json, target: string)
    requires payload.Obj? && Clean(payload) && BraceFreeKeys(payload) && FindPath(payload, target).Some?
    ensures var path := WithoutDollarDot(FindPath(payload, target).value);
            path != "" && BraceFree(path) && LeafPath(payload, path)
  {
    var segs := FoundPathResolves(payload, target);
    PrintedPathIsBraceFree(payload, segs);
    FoundPathBehindRoot(segs);
  }

  lemma {:induction false} PartPathsAreLeaves(payload: Json, parts: seq<string>)
    requires payload.Obj? && Clean(payload) && BraceFreeKeys(payload) && PartPaths(payload, parts).Some?
    ensures var paths := PartPaths(payload, parts).value;
            && |paths| == |parts|
            && forall i :: 0 <= i < |paths| ==> paths[i] != "" && BraceFree(paths[i]) && LeafPath(payload, paths[i])
  {
    if parts != [] {
      FoundPathDropsRoot(payload, Strip(Strip(parts[0])));
      PartPathsAreLeaves(payload, parts[1..]);
    }
  }

  lemma {:induction false} HolesOfPieces(lead: string, paths: seq<string>, sep: char, part: string) returns (i: nat)
    requires paths != [] && |lead| <= 1 && part in Pieces(lead, paths, sep) && IsHole(part)
    ensures i < |paths| && part == Hole(paths[i])
    decreases |paths|
  {
    if part == Hole(paths[0]) {
      i := 0;
    } else {
      i := HolesOfPieces([sep], paths[1..], sep, part);
      i := i + 1;
    }
  }

  /** A hole of an inferred template leads to a leaf of the payload that it was inferred from. */
  lemma HoleLeadsToLeaf(payload: Json, composite: string, part: string)
    requires payload.Obj? && Clean(payload) && BraceFreeKeys(payload)
    requires FirstTemplate(payload, composite, SEPARATORS).Some?
    requires IsHole(part) && part in SplitHoles(FirstTemplate(payload, composite, SEPARATORS).value)
    requires NoBrackets(part)
    ensures ValueAt(payload, HolePath(part)) != Null
  {
    var sep := SeparatorOfTemplate(payload, composite, SEPARATORS);
    var parts := Split(composite, sep);
    var paths := PartPaths(payload, parts).value;
    PartPathsAreLeaves(payload, parts);
    TemplateSplits("", paths, sep);
    assert "" + Join(Holes(paths), sep) == Join(Holes(paths), sep);
    var i := HolesOfPieces("", paths, sep, part);
    assert part[1..|part| - 1] == paths[i];
    var target :| FindPath(payload, target) == Some("$." + paths[i]);
    var segs := FoundPathResolves(payload, target);
    HolePathIsBracketFree(part);
    BracketFreeIsIndexFree(segs);
  }

  lemma {:induction false} BracketFreeIsIndexFree(segs: seq<Seg>)
    requires NoBrackets(PathText(segs))
    ensures NoAdjacentIndices(segs) && forall i :: 0 <= i < |segs| ==> segs[i].Key?
  {
    if segs != [] {
      var text, rest := SegText(segs[0]), segs[1..];
      assert PathText(segs) == "$" + text + SegsText(rest);
      assert PathText(segs)[1] == text[0];
      forall i | 0 <= i < |PathText(rest)|
        ensures PathText(rest)[i] != '[' && PathText(rest)[i] != ']'
      {
        assert i > 0 ==> PathText(rest)[i] == PathText(segs)[i + |text|];
      }
      BracketFreeIsIndexFree(rest);
      assert forall i :: 0 < i < |segs| ==> segs[i] == rest[i - 1];
    }
  }

  // ----- Extracting a later payload -----

  lemma TemplateStillFills(world: World, first: Json, later: Json, composite: string)
    requires first.Obj? && BraceFreeKeys(first) && SameShape(first, later)
    requires FirstTemplate(first, composite, SEPARATORS).Some?
    requires ArrayFreeHoles(FirstTemplate(first, composite, SEPARATORS).value)
    requires IdReads(world, later, Some(Template(FirstTemplate(first, composite, SEPARATORS).value)))
    ensures var filled := FillTemplate(later, FirstTemplate(first, composite, SEPARATORS).value, world.repr);
            filled.Ok? && filled.value.Some? && filled.value.value != ""
  {
    var t := FirstTemplate(first, composite, SEPARATORS).value;
    var parts := SplitHoles(t);
    var n :| 0 <= n < |parts| && IsHole(parts[n]) && ReadsAsPart(world, ValueAt(later, HolePath(parts[n])));
    HoleLeadsToLeaf(first, composite, parts[n]);
    HolePathIsBracketFree(parts[n]);
    StaysPresent(first, later, HolePath(parts[n]));
    var text := Text(ValueAt(later, HolePath(parts[n])), world.repr);
    var i :| 0 <= i < |text| && text[i] != ':' && text[i] != '-';
    FillingKeeps(later, parts, world.repr, n, text[i]);
    TrimmingKeeps(Fill(later, parts, world.repr).value.text, text[i]);
  }

  lemma IdStays(world: World, first: Json, value: Json, later: Json, spec: Spec)
    requires first.Obj? && BraceFreeKeys(first) && SameShape(first, later)
    requires FieldSpec(world, first, IdField, value) == Some(spec) && IdReads(world, later, Some(spec))
    requires ArrayFreeId(spec) && (spec.Path? ==> ValueAt(first, spec.path) != Null)
    ensures var id := EntityId(world, later, Some(spec)); id.Ok? && id.value.Some? && id.value.value != ""
  {
    match spec {
      case Path(p) => StaysPresent(first, later, p);
      case Template(t) =>
        assert SplitHoles("") == [""];
        TemplateStillFills(world, first, later, value.s);
    }
  }

  predicate HasEssentials(world: World, payload: Json, fields: Fields) {
    var essentials := ExtractEssentials(world, payload, fields);
    essentials.Ok? && essentials.value.Some?
  }

  lemma InferredId(world: World, payload: Json, output: seq<Member>, doc: SchemaDoc)
    requires InferredDoc(world, payload, output) == Some(doc) && doc.classification != "unclassified"
    ensures doc.classification == "shipment" || doc.classification == "invoice"
    ensures doc.fields.entityId == FieldSpec(world, payload, IdField, Get(output, "entity_external_id"))
    ensures doc.fields.entityId.Some?
  {
  }

  /** The first payload's external id and timestamp came out of its own extraction. */
  lemma EssentialsOfFirst(world: World, first: Delivery, doc: SchemaDoc, output: seq<Member>)
    requires doc.classification == "shipment" || doc.classification == "invoice"
    requires Reproduces(world, first, doc, output) == Ok(true)
    ensures HasEssentials(world, first.payload, doc.fields)
  {
  }

  lemma RequiredPathsLead(world: World, payload: Json, fields: Fields)
    requires HasEssentials(world, payload, fields)
    ensures fields.timestamp.Some? && fields.timestamp.value.Path? ==>
              ValueAt(payload, fields.timestamp.value.path) != Null
    ensures fields.entityId.Some? && fields.entityId.value.Path? ==>
              ValueAt(payload, fields.entityId.value.path) != Null
  {
  }

  lemma TimeStays(world: World, first: Json, later: Json, path: string)
    requires SameShape(first, later) && NoBrackets(path) && ValueAt(first, path) != Null
    requires TimeReads(world, later, Some(Path(path)))
    ensures var v := Resolve(later, path);
            v.Ok? && Truthy(v.value) && world.parseTimestamp(Text(v.value, world.repr)).Some?
  {
    StaysPresent(first, later, path);
  }

  lemma EssentialsStay(world: World, first: Delivery, output: seq<Member>, doc: SchemaDoc, later: Json)
    requires Discovered(world, first, output, doc) && SameShape(first.payload, later)
    requires IdReads(world, later, doc.fields.entityId) && TimeReads(world, later, doc.fields.timestamp)
    ensures HasEssentials(world, later, doc.fields)
  {
    InferredId(world, first.payload, output, doc);
    EssentialsOfFirst(world, first, doc, output);
    RequiredPathsLead(world, first.payload, doc.fields);
    TimeStays(world, first.payload, later, doc.fields.timestamp.value.path);
    IdStays(world, first.payload, Get(output, "entity_external_id"), later, doc.fields.entityId.value);
  }

  // ----- Optional fields of a later payload -----

  lemma OptionalResolves(payload: Json, path: Option<string>)
    requires PrintedOption(path)
    ensures ResolveOptional(payload, path).Ok?
    ensures path.Some? ==> ResolveOptional(payload, path).value == ValueAt(payload, path.value)
    ensures path.None? ==> ResolveOptional(payload, path).value == Null
  {
    if path.Some? {
      PrintedNeverRaises(payload, path.value);
    }
  }

  lemma SpecResolves(world: World, payload: Json, spec: Option<Spec>)
    requires PrintedSpec(spec)
    ensures ResolveSpec(world, payload, spec).Ok?
  {
    if spec.Some? {
      PrintedNeverRaises(payload, spec.value.path);
    }
  }

  lemma AmountAndDueResolve(world: World, payload: Json, amount: Option<Spec>, due: Option<Spec>)
    requires PrintedSpec(amount) && PrintedSpec(due)
    ensures ExtractAmount(world, payload, amount).Ok? && ExtractDue(world, payload, due).Ok?
  {
    SpecResolves(world, payload, amount);
    SpecResolves(world, payload, due);
  }

  lemma PlaceResolves(world: World, payload: Json, spec: Option<PlaceSpec>)
    requires PrintedPlace(spec) && CoordinatesRead(world, payload, spec)
    ensures ExtractPlace(world, payload, spec).Ok?
  {
    if spec.Some? {
      OptionalResolves(payload, spec.value.code);
      OptionalResolves(payload, spec.value.name);
      OptionalResolves(payload, spec.value.latitude);
      OptionalResolves(payload, spec.value.longitude);
    }
  }

  lemma {:induction false} MapResolves(payload: Json, spec: MapSpec, i: nat, result: Refs)
    requires i <= |spec| && PrintedMap(spec)
    ensures MapFrom(payload, spec, i, result).Ok?
    decreases |spec| - i
  {
    if i < |spec| {
      PrintedNeverRaises(payload, spec[i].1);
      var v := Resolve(payload, spec[i].1).value;
      MapResolves(payload, spec, i + 1, if v != Null then result[spec[i].0 := v] else result);
    }
  }

  // ----- One later payload -----

  /** A classification together with a state that it knows. */
  predicate Usable(kind: string, state: string) {
    || (kind == "shipment" && ShipmentTypeOf(state).Some?)
    || (kind == "invoice" && InvoiceTypeOf(state).Some?)
  }

  /** The event that a mapping calls for: this delivery's ids, the kind and type that the mapping names, and each field
      from the place in the payload where the document says it is. */
  ghost predicate RightEvent(world: World, doc: SchemaDoc, d: Delivery, kind: string, state: string, event: Event) {
    && event.eventId == d.eventId && event.vendorId == d.vendorId
    && (|| (kind == "shipment" && ShipmentBy(world, d, doc.fields, state, event))
        || (kind == "invoice" && InvoiceBy(world, d, doc.fields, state, event)))
  }

  lemma ShipmentExtracts(world: World, d: Delivery, doc: SchemaDoc, state: string, raw: Option<string>)
    requires PrintedFields(doc.fields) && Named(d) && CoordinatesRead(world, d.payload, doc.fields.location)
    requires ShipmentTypeOf(state).Some?
    requires HasEssentials(world, d.payload, doc.fields)
    ensures var r := ExtractShipment(world, d, doc.fields, state, raw);
            r.Ok? && r.value.Extracted? && RightEvent(world, doc, d, "shipment", state, r.value.event)
  {
    PlaceResolves(world, d.payload, doc.fields.location);
    MapResolves(d.payload, doc.fields.referenceIds, 0, map[]);
    SpecResolves(world, d.payload, doc.fields.rawMilestone);
    ShipmentIsBy(world, d, doc.fields, state, raw);
  }

  lemma InvoiceExtracts(world: World, d: Delivery, doc: SchemaDoc, state: string, raw: Option<string>)
    requires PrintedFields(doc.fields) && Named(d)
    requires InvoiceTypeOf(state).Some?
    requires HasEssentials(world, d.payload, doc.fields)
    ensures var r := ExtractInvoice(world, d, doc.fields, state, raw);
            r.Ok? && r.value.Extracted? && RightEvent(world, doc, d, "invoice", state, r.value.event)
  {
    AmountAndDueResolve(world, d.payload, doc.fields.amount, doc.fields.dueAt);
    MapResolves(d.payload, doc.fields.linkedReferences, 0, map[]);
    SpecResolves(world, d.payload, doc.fields.rawKind);
    InvoiceIsBy(world, d, doc.fields, state, raw);
  }

  /** The first pass finds the raw type. */
  lemma FirstPass(world: World, d: Delivery, doc: SchemaDoc)
    requires doc.classification == "shipment" || doc.classification == "invoice"
    requires RawTypeIn(world, d.payload, doc).Ok? && RawTypeIn(world, d.payload, doc).value.Some?
    ensures Extract(world, d, doc, None, None) == Ok(NotExtracted(RawTypeIn(world, d.payload, doc).value))
  {
  }

  lemma SecondPassIsShipment(world: World, d: Delivery, doc: SchemaDoc, state: string)
    requires RawTypeIn(world, d.payload, doc).Ok? && RawTypeIn(world, d.payload, doc).value.Some?
    ensures Extract(world, d, doc, Some(state), Some("shipment")) ==
            ExtractShipment(world, d, doc.fields, state, RawTypeIn(world, d.payload, doc).value)
  {
  }

  lemma SecondPassIsInvoice(world: World, d: Delivery, doc: SchemaDoc, state: string)
    requires RawTypeIn(world, d.payload, doc).Ok? && RawTypeIn(world, d.payload, doc).value.Some?
    ensures Extract(world, d, doc, Some(state), Some("invoice")) ==
            ExtractInvoice(world, d, doc.fields, state, RawTypeIn(world, d.payload, doc).value)
  {
  }

  /** The second pass finds the right event. */
  lemma LaterExtracts(world: World, first: Delivery, output: seq<Member>, doc: SchemaDoc, raws: set<string>,
                      d: Delivery, kind: string, state: string)
    requires Discovered(world, first, output, doc) && SameShape(first.payload, d.payload)
    requires Conforms(world, doc, raws, d) && Usable(kind, state)
    ensures var r := Extract(world, d, doc, Some(state), Some(kind));
            r.Ok? && r.value.Extracted? && RightEvent(world, doc, d, kind, state, r.value.event)
  {
    var raw := RawTypeIn(world, d.payload, doc).value;
    EssentialsStay(world, first, output, doc, d.payload);
    InferredFieldsArePrinted(world, first.payload, output);
    if kind == "shipment" {
      ShipmentExtracts(world, d, doc, state, raw);
      SecondPassIsShipment(world, d, doc, state);
    } else {
      InvoiceExtracts(world, d, doc, state, raw);
      SecondPassIsInvoice(world, d, doc, state);
    }
  }

  // ----- What has been learned -----

  /** Payloads of this vendor and shape are extracted with `doc`, and every raw type in `raws` is mapped to a
      state that its classification knows. */
  ghost predicate Taught(known: Knowledge, vendorId: string, shape: set<Entry>, doc: SchemaDoc, raws: set<string>) {
    && DocFor(known.rows, vendorId, shape) == Some(doc)
    && "" !in raws
    && forall raw :: raw in raws ==>
         && (vendorId, raw) in known.eventTypes
         && Usable(known.eventTypes[(vendorId, raw)].classification, known.eventTypes[(vendorId, raw)].state)
  }

  /** What the first pass reports of a taught, conforming payload leads straight to the second. */
  lemma SchemaServes(world: World, known: Knowledge, row: SchemaRow, d: Delivery, answer: TypeAnswer)
    requires row.doc.classification == "shipment" || row.doc.classification == "invoice"
    requires var raw := RawTypeIn(world, d.payload, row.doc);
             raw.Ok? && raw.value.Some? && raw.value.value != "" && (d.vendorId, raw.value.value) in known.eventTypes
    ensures var mapping := known.eventTypes[(d.vendorId, RawTypeIn(world, d.payload, row.doc).value.value)];
            ViaSchema(world, known, d, row, answer) ==
            SecondPass(world, known, 0, d, row, mapping.classification, mapping.state)
  {
    FirstPass(world, d, row.doc);
  }

  /** Learn once, for one payload: whatever was learned by a discovery on one payload, every conforming payload
      of the same vendor and shape is turned into the right event, the orchestrator is not asked, and nothing
      is forgotten. */
  lemma PathAServes(world: World, known: Knowledge, nextId: nat, first: Delivery, output: seq<Member>, doc: SchemaDoc,
                    raws: set<string>, d: Delivery, answer: TypeAnswer, b: PathB)
    requires Discovered(world, first, output, doc)
    requires Taught(known, first.vendorId, FingerprintOf(first.payload, {}), doc, raws)
    requires d.vendorId == first.vendorId && SameShape(first.payload, d.payload) && Conforms(world, doc, raws, d)
    ensures var o := Process(world, known, nextId, d, answer, b);
            var mapping := known.eventTypes[(d.vendorId, RawTypeIn(world, d.payload, doc).value.value)];
            && o.asked == 0 && o.event.Ok? && o.event.value.Some?
            && RightEvent(world, doc, d, mapping.classification, mapping.state, o.event.value.value)
            && Taught(o.known, first.vendorId, FingerprintOf(first.payload, {}), doc, raws)
  {
    var shape := FingerprintOf(first.payload, {});
    var row := BestOf(known.rows, d.vendorId, shape).value;
    var mapping := known.eventTypes[(d.vendorId, RawTypeIn(world, d.payload, doc).value.value)];
    InferredId(world, first.payload, output, doc);
    SchemaServes(world, known, row, d, answer);
    LaterExtracts(world, first, output, doc, raws, d, mapping.classification, mapping.state);
    CountingKeepsBest(known.rows, row.id, true, d.vendorId, shape);
  }

  // ----- Documents for payloads of neither kind -----

  lemma UnclassifiedExtracts(world: World, d: Delivery, doc: SchemaDoc)
    requires doc.classification == "unclassified" && doc.fields.eventType.None?
    requires PrintedSpec(doc.fields.summary) && PrintedSpec(doc.fields.reason) && Named(d)
    ensures var r := Extract(world, d, doc, None, None);
            && r.Ok? && r.value.Extracted? && UnclassifiedBy(world, d, doc.fields, r.value.event)
            && r.value.event.eventId == d.eventId && r.value.event.vendorId == d.vendorId
  {
    SpecResolves(world, d.payload, doc.fields.summary);
    SpecResolves(world, d.payload, doc.fields.reason);
    UnclassifiedIsBy(world, d, doc.fields, None);
  }

  lemma NoteIsPrinted(world: World, payload: Json, output: seq<Member>, doc: SchemaDoc)
    requires Clean(payload) && SearchesPrint(world, payload)
    requires InferredDoc(world, payload, output) == Some(doc) && doc.classification == "unclassified"
    ensures PrintedSpec(doc.fields.summary) && PrintedSpec(doc.fields.reason) && doc.fields.eventType.None?
  {
    SpecIsPrinted(world, payload, OtherField, Get(output, "summary"));
    SpecIsPrinted(world, payload, OtherField, Get(output, "reason"));
    assert doc.fields == UnclassifiedFields(world, payload, output);
  }

  /** A payload that was learned as belonging to neither kind serves every other one of its vendor and shape, whatever
      its values, without a question and without a mapping. */
  lemma UnclassifiedServes(world: World, known: Knowledge, nextId: nat, first: Delivery, output: seq<Member>,
                           doc: SchemaDoc, d: Delivery, answer: TypeAnswer, b: PathB)
    requires Clean(first.payload) && SearchesPrint(world, first.payload)
    requires InferredDoc(world, first.payload, output) == Some(doc) && doc.classification == "unclassified"
    requires DocFor(known.rows, d.vendorId, FingerprintOf(d.payload, {})) == Some(doc) && Named(d)
    ensures var o := Process(world, known, nextId, d, answer, b);
            && o.asked == 0 && o.event.Ok? && o.event.value.Some?
            && UnclassifiedBy(world, d, doc.fields, o.event.value.value)
            && o.event.value.value.eventId == d.eventId && o.event.value.value.vendorId == d.vendorId
            && o.known.eventTypes == known.eventTypes
            && DocFor(o.known.rows, d.vendorId, FingerprintOf(d.payload, {})) == Some(doc)
  {
    var shape := FingerprintOf(d.payload, {});
    NoteIsPrinted(world, first.payload, output, doc);
    UnclassifiedExtracts(world, d, doc);
    CountingKeepsBest(known.rows, BestOf(known.rows, d.vendorId, shape).value.id, true, d.vendorId, shape);
  }
}
