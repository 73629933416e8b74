/** Concrete traffic for the learn-once theorems: a discovery that meets their conditions, a payload that makes the
    service forget it, and deliveries for the race on a mapping. */
module Instance {
  import opened Prelude
  import opened Json
  import opened Canonical
  import opened PyText
  import opened Paths
  import opened Discovery
  import opened Templates
  import opened Fingerprint
  import opened Adapter
  import opened Registry
  import opened Learning
  import opened PathA
  import opened LearnedRuns
  import opened Traffic
  import opened Learners
  import opened SharedLearning
  import opened LateAnswer

  // ----- Flat payloads -----

  /** A payload with an id, a time and a kind. */
  function Flat(id: string, at: string, kind: string): Json {
    Obj([Member("id", Str(id)), Member("at", Str(at)), Member("kind", Str(kind))])
  }

  lemma FlatLookup(id: string, at: string, kind: string, key: string)
    ensures Lookup(Flat(id, at, kind).members, key) ==
            if key == "id" then Some(Str(id)) else if key == "at" then Some(Str(at))
            else if key == "kind" then Some(Str(kind)) else None
  {
    var last := [Member("kind", Str(kind))];
    var later := [Member("at", Str(at))] + last;
    assert later[1..] == last && Flat(id, at, kind).members[1..] == later;
    OneMember("kind", Str(kind), key);
    assert Lookup(later, key) == if key == "at" then Some(Str(at)) else Lookup(last, key);
  }

  lemma FlatAt(id: string, at: string, kind: string, segs: seq<Seg>)
    ensures At(Flat(id, at, kind), segs) ==
            if segs == [] then Some(Flat(id, at, kind))
            else if |segs| == 1 && segs[0].Key? then Lookup(Flat(id, at, kind).members, segs[0].key)
            else None
  {
    if segs != [] && segs[0].Key? {
      FlatLookup(id, at, kind, segs[0].key);
      var v := Lookup(Flat(id, at, kind).members, segs[0].key);
      if v.Some? {
        BelowString(v.value, segs[1..]);
      }
    }
  }

  lemma StringMembersAreSpellable(members: seq<Member>)
    requires DistinctKeys(members)
    requires forall i :: 0 <= i < |members| ==>
               members[i].value.Str? && CleanKey(members[i].key) && BraceFree(members[i].key)
    ensures Clean(Obj(members)) && BraceFreeKeys(Obj(members))
  {
  }

  lemma FlatIsClean(id: string, at: string, kind: string)
    ensures Clean(Flat(id, at, kind)) && BraceFreeKeys(Flat(id, at, kind))
  {
    StringMembersAreSpellable(Flat(id, at, kind).members);
  }

  /** The fingerprint of a flat payload does not depend on its values. */
  lemma FlatShape(id: string, at: string, kind: string, id': string, at': string, kind': string)
    ensures FingerprintOf(Flat(id, at, kind), {}) == FingerprintOf(Flat(id', at', kind'), {})
  {
    var a, b := Flat(id, at, kind), Flat(id', at', kind');
    forall i | 0 <= i < 3
      ensures HasPartner(a, b, i) && IsPartner(a, b, i)
    {
      assert Alike(ChildAt(a, i), ChildAt(b, i));
      assert Partners(a, b, i, i);
    }
    assert Width(a) == 3 && Width(b) == 3;
    assert Alike(a, b);
    AlikeKeepsFingerprint(a, b, {});
  }

  /** The stripped text stands under the key and nowhere else. */
  predicate Alone(id: string, at: string, kind: string, key: string, text: string) {
    && Strip(text) == text
    && (|| (key == "id" && id == text && Strip(at) != text && Strip(kind) != text)
        || (key == "at" && at == text && Strip(id) != text && Strip(kind) != text)
        || (key == "kind" && kind == text && Strip(id) != text && Strip(at) != text))
  }

  lemma AloneThere(id: string, at: string, kind: string, key: string, text: string, segs: seq<Seg>)
    requires Alone(id, at, kind, key, text)
    ensures LeadsTo(Flat(id, at, kind), segs, text) <==> segs == [Key(key)]
  {
    FlatAt(id, at, kind, segs);
    FlatLookup(id, at, kind, key);
    if |segs| == 1 && segs[0].Key? {
      FlatLookup(id, at, kind, segs[0].key);
    }
  }

  function PathTo(key: string): string {
    PathText([Key(key)])
  }

  lemma PathToIs(key: string)
    requires CleanKey(key)
    ensures PathTo(key) == "$." + key && NoBrackets(PathTo(key))
  {
    assert [Key(key)][1..] == [] && "." + key + "" == "." + key;
    assert SegsText([Key(key)]) == "." + key;
    var path := "$." + key;
    assert "$" + ("." + key) == path;
    forall i | 0 <= i < |path|
      ensures path[i] != '[' && path[i] != ']'
    {
      assert i >= 2 ==> path[i] == key[i - 2];
    }
  }

  lemma FlatResolves(id: string, at: string, kind: string, key: string)
    requires key == "id" || key == "at" || key == "kind"
    ensures Resolve(Flat(id, at, kind), PathTo(key)) ==
            Ok(Str(if key == "id" then id else if key == "at" then at else kind))
  {
    FlatAt(id, at, kind, [Key(key)]);
    FlatLookup(id, at, kind, key);
    PrintThenResolve(Flat(id, at, kind), [Key(key)]);
  }

  lemma FlatFound(id: string, at: string, kind: string, key: string, text: string)
    requires Alone(id, at, kind, key, text)
    ensures FindPath(Flat(id, at, kind), text) == Some(PathTo(key))
  {
    FlatIsClean(id, at, kind);
    forall segs
      ensures LeadsTo(Flat(id, at, kind), segs, text) <==> segs == [Key(key)]
    {
      AloneThere(id, at, kind, key, text, segs);
    }
    OnlyMatchIsFound(Flat(id, at, kind), [Key(key)], text);
  }

  // ----- Answers and documents -----

  /** A provider's answer that calls a payload a delivered shipment, with all that the target schema requires. */
  function AnswerOf(id: string, at: string, raw: Json): seq<Member> {
    [Member("vendor_id", Str("acme")), Member("confidence", Num("0.9", false)),
     Member("classification", Str("shipment")), Member("event_type", Str("shipment.delivered")),
     Member("entity_external_id", Str(id)), Member("event_timestamp", Str(at)), Member("raw_milestone", raw)]
  }

  lemma LookupCons(m: Member, members: seq<Member>, key: string)
    ensures Lookup([m] + members, key) == if m.key == key then Some(m.value) else Lookup(members, key)
  {
    assert ([m] + members)[1..] == members;
  }

  lemma AnswerHolds(id: string, at: string, raw: Json, key: string)
    ensures Get(AnswerOf(id, at, raw), key) ==
            if key == "classification" then Str("shipment") else if key == "event_type" then Str("shipment.delivered")
            else if key == "entity_external_id" then Str(id) else if key == "event_timestamp" then Str(at)
            else if key == "raw_milestone" then raw else if key == "vendor_id" then Str("acme")
            else if key == "confidence" then Num("0.9", false) else Null
  {
    var m6 := [Member("raw_milestone", raw)];
    var m5 := [Member("event_timestamp", Str(at))] + m6;
    var m4 := [Member("entity_external_id", Str(id))] + m5;
    var m3 := [Member("event_type", Str("shipment.delivered"))] + m4;
    var m2 := [Member("classification", Str("shipment"))] + m3;
    var m1 := [Member("confidence", Num("0.9", false))] + m2;
    assert AnswerOf(id, at, raw) == [Member("vendor_id", Str("acme"))] + m1;
    LookupCons(Member("vendor_id", Str("acme")), m1, key);
    LookupCons(Member("confidence", Num("0.9", false)), m2, key);
    LookupCons(Member("classification", Str("shipment")), m3, key);
    LookupCons(Member("event_type", Str("shipment.delivered")), m4, key);
    LookupCons(Member("entity_external_id", Str(id)), m5, key);
    LookupCons(Member("event_timestamp", Str(at)), m6, key);
    OneMember("raw_milestone", raw, key);
  }

  /** A document with a path for the id, one for the time, and perhaps one for the raw type. */
  function DocOf(id: string, at: string, kind: Option<string>): SchemaDoc {
    SchemaDoc("shipment", NO_FIELDS.(entityId := Some(Path(id)), timestamp := Some(Path(at)),
                                     eventType := OptionalPath(kind), rawMilestone := OptionalPath(kind)))
  }

  lemma DocOfIsInferred(world: World, payload: Json, id: string, at: string, raw: Json,
                        idPath: string, atPath: string, kindPath: Option<string>)
    requires FindPath(payload, Strip(id)) == Some(idPath) && FindPath(payload, Strip(at)) == Some(atPath)
    requires ValuePath(world, payload, raw) == kindPath
    ensures InferredDoc(world, payload, AnswerOf(id, at, raw)) == Some(DocOf(idPath, atPath, kindPath))
  {
    AnswerHolds(id, at, raw, "classification");
    AnswerHolds(id, at, raw, "entity_external_id");
    AnswerHolds(id, at, raw, "event_timestamp");
    AnswerHolds(id, at, raw, "raw_milestone");
    AnswerHolds(id, at, raw, "location");
    AnswerHolds(id, at, raw, "reference_ids");
  }

  lemma DocOfExtracts(world: World, d: Delivery, id: string, at: string,
                      idPath: string, atPath: string, kindPath: Option<string>)
    requires Named(d) && id != "" && at != "" && world.parseTimestamp(at).Some?
    requires Resolve(d.payload, idPath) == Ok(Str(id)) && Resolve(d.payload, atPath) == Ok(Str(at))
    requires kindPath.Some? ==> Resolve(d.payload, kindPath.value).Ok?
    ensures var r := Extract(world, d, DocOf(idPath, atPath, kindPath), Some("shipment.delivered"), None);
            r.Ok? && r.value.Extracted? && r.value.event.ShipmentEvent? && r.value.event.externalId == id
  {
    var fields := DocOf(idPath, atPath, kindPath).fields;
    assert ExtractEssentials(world, d.payload, fields) == Ok(Some(Essentials(id, world.parseTimestamp(at).value)));
    assert ExtractPlace(world, d.payload, fields.location) == Ok(None);
    assert MapFrom(d.payload, fields.referenceIds, 0, map[]) == Ok(map[]);
  }

  lemma DocOfReproduces(world: World, d: Delivery, id: string, at: string, raw: Json,
                        idPath: string, atPath: string, kindPath: Option<string>)
    requires Named(d) && id != "" && at != "" && world.parseTimestamp(at).Some?
    requires Resolve(d.payload, idPath) == Ok(Str(id)) && Resolve(d.payload, atPath) == Ok(Str(at))
    requires kindPath.Some? ==> Resolve(d.payload, kindPath.value).Ok?
    ensures Reproduces(world, d, DocOf(idPath, atPath, kindPath), AnswerOf(id, at, raw)) == Ok(true)
  {
    DocOfExtracts(world, d, id, at, idPath, atPath, kindPath);
    AnswerHolds(id, at, raw, "event_type");
    AnswerHolds(id, at, raw, "entity_external_id");
  }

  lemma DocOfConforms(world: World, d: Delivery, id: string, at: string, kind: string,
                      idPath: string, atPath: string, kindPath: string)
    requires Named(d) && Clean(d.payload) && id != "" && at != "" && kind != "" && world.parseTimestamp(at).Some?
    requires Resolve(d.payload, idPath) == Ok(Str(id)) && Resolve(d.payload, atPath) == Ok(Str(at))
    requires Resolve(d.payload, kindPath) == Ok(Str(kind))
    ensures RawTypeIn(world, d.payload, DocOf(idPath, atPath, Some(kindPath))) == Ok(Some(kind))
    ensures Conforms(world, DocOf(idPath, atPath, Some(kindPath)), {kind}, d)
  {
  }

  // ----- A discovery -----

  const AT := "2026-04-28T09:42:00Z"

  const FIRST := Delivery("e1", "acme", Flat("A1", AT, "k"))

  /** The world reads the timestamp, and its two searches report printed paths. */
  ghost predicate Reads(world: World) {
    world.parseTimestamp(AT).Some? && SearchesPrint(world, FIRST.payload)
  }

  /** There is such a world. */
  lemma SomeWorldReads()
    ensures Reads(World(s => Some(0), v => "", v => None, (v, s) => None, (v, s) => None))
  {
  }

  const OUTPUT := AnswerOf("A1", AT, Str("k"))

  const DOC := DocOf(PathTo("id"), PathTo("at"), Some(PathTo("kind")))

  lemma Stripped(text: string)
    requires text != "" ==> !IsSpace(text[0]) && !IsSpace(text[|text| - 1])
    ensures Strip(text) == text
  {
    StripIsIdentity(text, IsSpace);
  }

  lemma TextsAreStripped()
    ensures Strip("") == "" && Strip("A1") == "A1" && Strip(AT) == AT && Strip("k") == "k"
  {
    Stripped("");
    Stripped("A1");
    Stripped(AT);
    Stripped("k");
  }

  lemma FlatIsFound(world: World, id: string, at: string, kind: string)
    requires Strip(id) == id && Strip(at) == at && Strip(kind) == kind && id != at && id != kind && at != kind
    ensures FindPath(Flat(id, at, kind), Strip(id)) == Some(PathTo("id"))
    ensures FindPath(Flat(id, at, kind), Strip(at)) == Some(PathTo("at"))
    ensures ValuePath(world, Flat(id, at, kind), Str(kind)) == Some(PathTo("kind"))
  {
    FlatFound(id, at, kind, "id", id);
    FlatFound(id, at, kind, "at", at);
    FlatFound(id, at, kind, "kind", kind);
  }

  lemma FirstIsFound(world: World)
    ensures FindPath(FIRST.payload, Strip("A1")) == Some(PathTo("id"))
    ensures FindPath(FIRST.payload, Strip(AT)) == Some(PathTo("at"))
    ensures ValuePath(world, FIRST.payload, Str("k")) == Some(PathTo("kind"))
  {
    TextsAreStripped();
    FlatIsFound(world, "A1", AT, "k");
  }

  lemma FirstIsNamed()
    ensures Named(FIRST)
  {
    Stripped("e1");
    Stripped("acme");
  }

  lemma FirstResolves()
    ensures Resolve(FIRST.payload, PathTo("id")) == Ok(Str("A1"))
    ensures Resolve(FIRST.payload, PathTo("at")) == Ok(Str(AT))
    ensures Resolve(FIRST.payload, PathTo("kind")) == Ok(Str("k"))
  {
    FlatResolves("A1", AT, "k", "id");
    FlatResolves("A1", AT, "k", "at");
    FlatResolves("A1", AT, "k", "kind");
  }

  lemma FirstConforms(world: World)
    requires Reads(world)
    ensures RawTypeIn(world, FIRST.payload, DOC) == Ok(Some("k"))
    ensures Conforms(world, DOC, {"k"}, FIRST)
  {
    FirstIsNamed();
    FirstResolves();
    FlatIsClean("A1", AT, "k");
    DocOfConforms(world, FIRST, "A1", AT, "k", PathTo("id"), PathTo("at"), PathTo("kind"));
  }

  lemma DocIsArrayFree()
    ensures ArrayFree(DOC)
  {
    PathToIs("id");
    PathToIs("at");
  }

  lemma FirstIsDiscovered(world: World)
    requires Reads(world)
    ensures Discovered(world, FIRST, OUTPUT, DOC)
  {
    FirstIsFound(world);
    DocOfIsInferred(world, FIRST.payload, "A1", AT, Str("k"), PathTo("id"), PathTo("at"), Some(PathTo("kind")));
    FirstIsNamed();
    FirstResolves();
    DocOfReproduces(world, FIRST, "A1", AT, Str("k"), PathTo("id"), PathTo("at"), Some(PathTo("kind")));
    FlatIsClean("A1", AT, "k");
    DocIsArrayFree();
  }

  const NOTHING := Knowledge([], map[])

  lemma NothingIsKnown(vendorId: string, shape: set<Entry>, raw: string)
    ensures Unheard(NOTHING, vendorId, shape, raw)
  {
  }

  /** The conditions of `Traffic.LearnOnce` can be met: this payload and answer are a discovery, nothing is known
      before, and the payload itself conforms when it comes again. */
  lemma LearnOnceHasInstances(world: World)
    requires Reads(world)
    ensures Discovered(world, FIRST, OUTPUT, DOC)
    ensures RawTypeIn(world, FIRST.payload, DOC) == Ok(Some("k"))
    ensures Unheard(NOTHING, FIRST.vendorId, FingerprintOf(FIRST.payload, {}), "k")
    ensures Conforms(world, DOC, {"k"}, FIRST)
  {
    FirstIsDiscovered(world);
    FirstConforms(world);
    NothingIsKnown(FIRST.vendorId, FingerprintOf(FIRST.payload, {}), "k");
  }

  // ----- A run that forgets -----

  /** The same shape, with an empty id. */
  const HOLLOW := Delivery("e2", "acme", Flat("", AT, "k"))

  const HOLLOW_OUTPUT := AnswerOf("k", AT, Null)

  const HOLLOW_DOC := DocOf(PathTo("kind"), PathTo("at"), None)

  lemma HollowIsInferred(world: World)
    ensures InferredDoc(world, HOLLOW.payload, HOLLOW_OUTPUT) == Some(HOLLOW_DOC)
  {
    TextsAreStripped();
    FlatFound("", AT, "k", "at", AT);
    FlatFound("", AT, "k", "kind", "k");
    DocOfIsInferred(world, HOLLOW.payload, "k", AT, Null, PathTo("kind"), PathTo("at"), None);
  }

  lemma HollowIsReproduced(world: World)
    requires Reads(world)
    ensures Reproduces(world, HOLLOW, HOLLOW_DOC, HOLLOW_OUTPUT) == Ok(true)
  {
    Stripped("e2");
    Stripped("acme");
    FlatResolves("", AT, "k", "at");
    FlatResolves("", AT, "k", "kind");
    DocOfReproduces(world, HOLLOW, "k", AT, Null, PathTo("kind"), PathTo("at"), None);
  }

  /** Without an id there is no shipment and no invoice. */
  lemma HollowIsNotExtracted(world: World, kind: string, state: string)
    requires Usable(kind, state)
    ensures RawTypeIn(world, HOLLOW.payload, DOC) == Ok(Some("k"))
    ensures Extract(world, HOLLOW, DOC, Some(state), Some(kind)) == Ok(NotExtracted(Some("k")))
  {
    FlatResolves("", AT, "k", "id");
    FlatResolves("", AT, "k", "at");
    FlatResolves("", AT, "k", "kind");
    assert ExtractEssentials(world, HOLLOW.payload, DOC.fields) == Ok(None);
  }

  /** Path A gives up where the second pass finds nothing. */
  lemma GivesUp(world: World, known: Knowledge, d: Delivery, row: SchemaRow, answer: TypeAnswer, raw: string)
    requires row.doc.classification == "shipment" && RawTypeIn(world, d.payload, row.doc) == Ok(Some(raw)) && raw != ""
    requires (d.vendorId, raw) in known.eventTypes
    requires var mapping := known.eventTypes[(d.vendorId, raw)];
             Extract(world, d, row.doc, Some(mapping.state), Some(mapping.classification)) ==
             Ok(NotExtracted(Some(raw)))
    ensures ViaSchema(world, known, d, row, answer).event == Ok(None)
  {
    FirstPass(world, d, row.doc);
  }

  lemma HollowDocIsFresh(world: World, event: Event)
    requires Reads(world)
    ensures FreshDoc(world, HOLLOW, Answered(event, Some(HOLLOW_OUTPUT))) == Some(HOLLOW_DOC)
    ensures HOLLOW_DOC != DOC
  {
    HollowIsInferred(world);
    HollowIsReproduced(world);
    assert HOLLOW_DOC.fields.eventType.None? && DOC.fields.eventType.Some?;
  }

  lemma HollowForgets(world: World, known: Knowledge, event: Event)
    requires Reads(world)
    requires Taught(known, "acme", FingerprintOf(FIRST.payload, {}), DOC, {"k"})
    requires Replaceable(BestOf(known.rows, "acme", FingerprintOf(FIRST.payload, {})).value)
    ensures Forgets(world, known, Input(HOLLOW, Ok(None), Answered(event, Some(HOLLOW_OUTPUT))), "acme",
                    FingerprintOf(FIRST.payload, {}))
  {
    var row := BestOf(known.rows, "acme", FingerprintOf(FIRST.payload, {})).value;
    var mapping := known.eventTypes[("acme", "k")];
    FlatShape("A1", AT, "k", "", AT, "k");
    HollowDocIsFresh(world, event);
    HollowIsNotExtracted(world, mapping.classification, mapping.state);
    GivesUp(world, known, HOLLOW, row, Ok(None), "k");
  }

  /** With the other document stored, the first payload has no raw type any more. */
  lemma FirstIsLost(world: World, known: Knowledge, nextId: nat)
    requires DocFor(known.rows, "acme", FingerprintOf(FIRST.payload, {})) == Some(HOLLOW_DOC)
    ensures Process(world, known, nextId, FIRST, Ok(None), Deferred).asked == 1
  {
    var row := BestOf(known.rows, "acme", FingerprintOf(FIRST.payload, {})).value;
    assert Extract(world, FIRST, row.doc, None, None) == Ok(NotExtracted(None));
  }

  /** Learning once is not for good: after the discovery, one payload of the same shape with an empty id, and a
      fresh answer for it, the first payload costs a question again although it still conforms. */
  lemma HollowPayloadForgets(world: World, event: Event, event': Event)
    requires Reads(world)
    ensures var learned := Process(world, NOTHING, 0, FIRST, Ok(None), Answered(event, Some(OUTPUT)));
            var inputs := [Input(HOLLOW, Ok(None), Answered(event', Some(HOLLOW_OUTPUT))),
                           Input(FIRST, Ok(None), Deferred)];
            && Taught(learned.known, "acme", FingerprintOf(FIRST.payload, {}), DOC, {"k"})
            && OfShape(HOLLOW, "acme", FingerprintOf(FIRST.payload, {}))
            && Conforms(world, DOC, {"k"}, FIRST)
            && Outcomes(world, learned.known, learned.nextId, inputs)[1].asked == 1
  {
    var shape := FingerprintOf(FIRST.payload, {});
    var learned := Process(world, NOTHING, 0, FIRST, Ok(None), Answered(event, Some(OUTPUT)));
    var x := Input(HOLLOW, Ok(None), Answered(event', Some(HOLLOW_OUTPUT)));
    var again := Input(FIRST, Ok(None), Deferred);
    LearnOnceHasInstances(world);
    DiscoveryTeaches(world, NOTHING, 0, FIRST, OUTPUT, DOC, "k");
    FlatShape("A1", AT, "k", "", AT, "k");
    HollowForgets(world, learned.known, event');
    HollowDocIsFresh(world, event');
    BestAfterProcess(world, learned.known, learned.nextId, x, "acme", shape);
    var o := Process(world, learned.known, learned.nextId, x.d, x.answer, x.b);
    FirstIsLost(world, o.known, o.nextId);
    assert [x, again][1..] == [again];
  }

  // ----- A race -----

  /** A delivery of the learned vendor and shape, of a kind not seen before. */
  function OfNewKind(eventId: string, id: string): Delivery {
    Delivery(eventId, "acme", Flat(id, AT, "j"))
  }

  lemma NewKindConcerns(world: World, eventId: string, id: string)
    requires Reads(world) && id != ""
    requires eventId != "" && !IsSpace(eventId[0]) && !IsSpace(eventId[|eventId| - 1])
    ensures Concerns(world, DOC, {"j"}, "acme", FingerprintOf(FIRST.payload, {}), OfNewKind(eventId, id))
  {
    Stripped(eventId);
    Stripped("acme");
    FlatShape("A1", AT, "k", id, AT, "j");
    FlatResolves(id, AT, "j", "id");
    FlatResolves(id, AT, "j", "at");
    FlatResolves(id, AT, "j", "kind");
    FlatIsClean(id, AT, "j");
    DocOfConforms(world, OfNewKind(eventId, id), id, AT, "j", PathTo("id"), PathTo("at"), PathTo("kind"));
  }

  lemma AfterFirst(world: World)
    requires Reads(world)
    ensures NewType(Learn(world, NOTHING, 0, FIRST, OUTPUT).known, "acme", FingerprintOf(FIRST.payload, {}), DOC, "j")
  {
    LearnOnceHasInstances(world);
    DiscoveryTeaches(world, NOTHING, 0, FIRST, OUTPUT, DOC, "k");
    LearningMapsOneType(world, NOTHING, 0, FIRST, OUTPUT, DOC, "k", ("acme", "j"));
  }

  lemma AnyOfNewKind(world: World)
    requires Reads(world)
    ensures Concerns(world, DOC, {"j"}, "acme", FingerprintOf(FIRST.payload, {}), OfNewKind("e2", "A2"))
  {
    NewKindConcerns(world, "e2", "A2");
  }

  /** One state that the classification knows, and one without its prefix that it does not know. */
  lemma GoodAndBadState()
    ensures Usable("shipment", "shipment.delivered")
    ensures !Usable(KindFor(DOC, Mapping("shipment", "delivered", false)), "delivered")
  {
  }

  /** The conditions of `LateAnswer.LateAnswerForgets` can be met: after the discovery, by payloads of another kind and
      the two states above. */
  lemma LateAnswerHasInstances(world: World)
    requires Reads(world)
    ensures Discovered(world, FIRST, OUTPUT, DOC)
    ensures NewType(Learn(world, NOTHING, 0, FIRST, OUTPUT).known, "acme", FingerprintOf(FIRST.payload, {}), DOC, "j")
    ensures Concerns(world, DOC, {"j"}, "acme", FingerprintOf(FIRST.payload, {}), OfNewKind("e2", "A2"))
  {
    LearnOnceHasInstances(world);
    AfterFirst(world);
    AnyOfNewKind(world);
  }
}
