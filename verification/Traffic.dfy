/** The learn-once theorem over runs that process one delivery after the other: what a discovery teaches, and exactly
    which payloads make the service forget it. `SharedLearning` has many deliveries on their way at once. */
module Traffic {
  import opened Prelude
  import opened Json
  import opened Canonical
  import opened Fingerprint
  import opened Adapter
  import opened Registry
  import opened Learning
  import opened PathA
  import opened LearnedRuns

  predicate OfShape(d: Delivery, vendorId: string, shape: set<Entry>) {
    d.vendorId == vendorId && FingerprintOf(d.payload, {}) == shape
  }

  /** A delivery with what the orchestrator would answer, were it asked. */
  datatype Input = Input(d: Delivery, answer: TypeAnswer, b: PathB)

  // ----- What one payload changes -----

  /** No mapping of a raw type is lost or changed. */
  ghost predicate KeepsMappings(a: Knowledge, b: Knowledge) {
    forall key :: key in a.eventTypes ==> key in b.eventTypes && b.eventTypes[key] == a.eventTypes[key]
  }

  /** The registry's answers that a vendor and shape depend on stay the same. */
  ghost predicate KeepsTeaching(a: Knowledge, b: Knowledge, vendorId: string, shape: set<Entry>) {
    SameBest(a.rows, b.rows, vendorId, shape) && KeepsMappings(a, b)
  }

  /** The document that a fresh answer would store, if it passes its check. */
  function FreshDoc(world: World, d: Delivery, b: PathB): Option<SchemaDoc> {
    if !b.Answered? || b.output.None? then None
    else
      var doc := InferredDoc(world, d.payload, b.output.value);
      if doc.Some? && Reproduces(world, d, doc.value, b.output.value) == Ok(true) then doc else None
  }

  /** Path A writes at most a hit count and a mapping that was missing. */
  lemma PathAWrites(world: World, known: Knowledge, d: Delivery, row: SchemaRow, answer: TypeAnswer)
    ensures var now := ViaSchema(world, known, d, row, answer).known;
            && (now.rows == known.rows || now.rows == Counted(known.rows, row.id, true))
            && KeepsMappings(known, now)
  {
  }

  lemma PathAKeepsTeaching(world: World, known: Knowledge, d: Delivery, row: SchemaRow, answer: TypeAnswer,
                           vendorId: string, shape: set<Entry>)
    ensures KeepsTeaching(known, ViaSchema(world, known, d, row, answer).known, vendorId, shape)
    ensures KeyedRows(known.rows) ==> KeyedRows(ViaSchema(world, known, d, row, answer).known.rows)
  {
    CountingKeepsBest(known.rows, row.id, true, vendorId, shape);
    PathAWrites(world, known, d, row, answer);
  }

  /** Learning changes the rows by one upsert, or not at all, and adds mappings only. */
  lemma LearningRows(world: World, known: Knowledge, nextId: nat, d: Delivery, b: PathB)
    requires b.Answered? && b.output.Some?
    ensures var lesson := Learn(world, known, nextId, d, b.output.value);
            && KeepsMappings(known, lesson.known)
            && match FreshDoc(world, d, b)
               case None => lesson.known.rows == known.rows
               case Some(doc) =>
                 match Persisted(known.rows, nextId, d.vendorId, FingerprintOf(d.payload, {}), doc)
                 case Raised => lesson.known.rows == known.rows
                 case Ok((rows, _)) => lesson.known.rows == rows
  {
    var doc := InferredDoc(world, d.payload, b.output.value);
    if doc.Some? && Reproduces(world, d, doc.value, b.output.value) == Ok(true) {
      assert FreshDoc(world, d, b) == doc;
    } else {
      assert FreshDoc(world, d, b) == None;
    }
  }

  /** Learning maps no raw type but the payload's own. */
  lemma LearningMapsOneType(world: World, known: Knowledge, nextId: nat, d: Delivery, output: seq<Member>,
                            doc: SchemaDoc, raw: string, key: (string, string))
    requires InferredDoc(world, d.payload, output) == Some(doc)
    requires RawTypeIn(world, d.payload, doc) == Ok(Some(raw)) && key != (d.vendorId, raw)
    ensures MappingFor(Learn(world, known, nextId, d, output).known.eventTypes, key) ==
            MappingFor(known.eventTypes, key)
  {
  }

  /** And that one to the provider's event type, under the document's classification, unless it is mapped already. */
  lemma LearningMapsThatType(world: World, known: Knowledge, nextId: nat, d: Delivery, output: seq<Member>,
                             doc: SchemaDoc, raw: string)
    requires InferredDoc(world, d.payload, output) == Some(doc) && doc.classification != "unclassified"
    requires RawTypeIn(world, d.payload, doc) == Ok(Some(raw))
    requires Learn(world, known, nextId, d, output).id.Ok? && Learn(world, known, nextId, d, output).id.value.Some?
    ensures var key, now := (d.vendorId, raw), Learn(world, known, nextId, d, output).known.eventTypes;
            && key in now
            && (key in known.eventTypes ==> now[key] == known.eventTypes[key])
            && (key !in known.eventTypes ==>
                  && now[key].classification == doc.classification && Str(now[key].state) == Get(output, "event_type")
                  && !now[key].reviewed)
  {
  }

  ghost predicate PartOf(needle: string, s: string) {
    exists before, after :: s == before + needle + after
  }

  lemma ContainsIff(s: string, needle: string)
    ensures Contains(s, needle) <==> PartOf(needle, s)
  {
    if Contains(s, needle) {
      var i :| 0 <= i <= |s| && needle <= s[i..];
      assert s == s[..i] + needle + s[i..][|needle|..];
    }
    if PartOf(needle, s) {
      var before, after :| s == before + needle + after;
      assert needle <= s[|before|..];
    }
  }

  /** Nothing to compare with, or one of the two ids contains the other. */
  ghost predicate SameId(said: Json, found: string) {
    Truthy(said) ==>
      said.Str? && (PartOf(said.s, found) || PartOf(found, said.s))
  }

  lemma AgreeingIdsIff(said: Json, found: string)
    ensures IdAgrees(said, found) == Ok(true) <==> SameId(said, found)
  {
    if said.Str? {
      ContainsIff(found, said.s);
      ContainsIff(said.s, found);
      assert said.s == found ==> found == "" + said.s + "";
    }
  }

  lemma ReproducingIs(world: World, d: Delivery, doc: SchemaDoc, output: seq<Member>, state: string)
    requires doc.classification != "unclassified" && Get(output, "event_type") == Str(state)
    ensures var r := Extract(world, d, doc, Some(state), None);
            Reproduces(world, d, doc, output) == Ok(true) <==>
              && state != "" && r.Ok? && r.value.Extracted? && !r.value.event.UnclassifiedEvent?
              && SameId(Get(output, "entity_external_id"), r.value.event.externalId)
  {
    var r := Extract(world, d, doc, Some(state), None);
    if r.Ok? && r.value.Extracted? && !r.value.event.UnclassifiedEvent? {
      AgreeingIdsIff(Get(output, "entity_external_id"), r.value.event.externalId);
    }
  }

  /** Only what reproduces is learned: where anything at all changed, the inferred document gives, for the provider's
      own event type, an event whose external id is the provider's, or one of the two contains the other. */
  lemma OnlyReproducedIsLearned(world: World, known: Knowledge, nextId: nat, d: Delivery, output: seq<Member>)
      returns (doc: SchemaDoc)
    requires Learn(world, known, nextId, d, output).known != known
    ensures InferredDoc(world, d.payload, output) == Some(doc)
    ensures doc.classification != "unclassified" ==>
              && Get(output, "event_type").Str?
              && var r := Extract(world, d, doc, Some(Get(output, "event_type").s), None);
                 && r.Ok? && r.value.Extracted? && !r.value.event.UnclassifiedEvent?
                 && SameId(Get(output, "entity_external_id"), r.value.event.externalId)
  {
    doc := InferredDoc(world, d.payload, output).value;
    assert Reproduces(world, d, doc, output) == Ok(true);
    if doc.classification != "unclassified" {
      ReproducingIs(world, d, doc, output, Get(output, "event_type").s);
    }
  }

  /** What Path B leaves of the lookup for its own vendor and shape, where a row answered before. */
  lemma ProviderBest(world: World, known: Knowledge, nextId: nat, asked: nat, d: Delivery, b: PathB)
    requires KeyedRows(known.rows) && BestOf(known.rows, d.vendorId, FingerprintOf(d.payload, {})).Some?
    ensures var shape, now := FingerprintOf(d.payload, {}), ViaProvider(world, known, nextId, asked, d, b).known;
            var best, doc := BestOf(known.rows, d.vendorId, shape).value, FreshDoc(world, d, b);
            && KeyedRows(now.rows) && KeepsMappings(known, now)
            && BestOf(now.rows, d.vendorId, shape) ==
               Some(if doc.Some? && Replaceable(best) then best.(doc := doc.value) else best)
  {
    if b.Answered? && b.output.Some? {
      LearningRows(world, known, nextId, d, b);
      var doc := FreshDoc(world, d, b);
      if doc.Some? {
        var shape := FingerprintOf(d.payload, {});
        BestAfterPersisting(known.rows, nextId, d.vendorId, shape, doc.value);
        if Persisted(known.rows, nextId, d.vendorId, shape, doc.value).Ok? {
          PersistingKeepsKeys(known.rows, nextId, d.vendorId, shape, doc.value);
        }
      }
    }
  }

  /** Path B leaves every other vendor's and shape's lookup alone. */
  lemma ProviderKeepsOthers(world: World, known: Knowledge, nextId: nat, asked: nat, d: Delivery, b: PathB,
                            vendorId: string, shape: set<Entry>)
    requires !OfShape(d, vendorId, shape)
    ensures KeepsTeaching(known, ViaProvider(world, known, nextId, asked, d, b).known, vendorId, shape)
    ensures KeyedRows(known.rows) ==> KeyedRows(ViaProvider(world, known, nextId, asked, d, b).known.rows)
  {
    if b.Answered? && b.output.Some? {
      LearningRows(world, known, nextId, d, b);
      var doc, own := FreshDoc(world, d, b), FingerprintOf(d.payload, {});
      if doc.Some? && Persisted(known.rows, nextId, d.vendorId, own, doc.value).Ok? {
        PersistingKeepsOthers(known.rows, nextId, d.vendorId, own, doc.value, vendorId, shape);
        if KeyedRows(known.rows) {
          PersistingKeepsKeys(known.rows, nextId, d.vendorId, own, doc.value);
        }
      }
    }
  }

  /** Processing a payload of another vendor or shape, by either path, changes no lookup for this one. */
  lemma OthersKeepTeaching(world: World, known: Knowledge, nextId: nat, x: Input, vendorId: string, shape: set<Entry>)
    requires !OfShape(x.d, vendorId, shape)
    ensures KeepsTeaching(known, Process(world, known, nextId, x.d, x.answer, x.b).known, vendorId, shape)
    ensures KeyedRows(known.rows) ==> KeyedRows(Process(world, known, nextId, x.d, x.answer, x.b).known.rows)
  {
    match BestOf(known.rows, x.d.vendorId, FingerprintOf(x.d.payload, {})) {
      case None =>
        ProviderKeepsOthers(world, known, nextId, 0, x.d, x.b, vendorId, shape);
      case Some(row) =>
        PathAKeepsTeaching(world, known, x.d, row, x.answer, vendorId, shape);
        var a := ViaSchema(world, known, x.d, row, x.answer);
        CountingKeepsBest(a.known.rows, row.id, false, vendorId, shape);
        var counted := a.known.(rows := Counted(a.known.rows, row.id, false));
        ProviderKeepsOthers(world, counted, nextId, a.asked, x.d, x.b, vendorId, shape);
    }
  }

  // ----- Counters -----

  /** Learning touches no counter. */
  lemma LearningCountsNothing(world: World, known: Knowledge, nextId: nat, d: Delivery, output: seq<Member>, i: nat)
    requires i < |known.rows|
    ensures var rows := Learn(world, known, nextId, d, output).known.rows;
            && i < |rows| && rows[i].id == known.rows[i].id
            && rows[i].successes == known.rows[i].successes && rows[i].failures == known.rows[i].failures
  {
    LearningRows(world, known, nextId, d, Answered(UnclassifiedEvent("", "", None, None), Some(output)));
  }

  lemma ProviderCountsNothing(world: World, known: Knowledge, nextId: nat, asked: nat, d: Delivery, b: PathB, i: nat)
    requires i < |known.rows|
    ensures var rows := ViaProvider(world, known, nextId, asked, d, b).known.rows;
            && i < |rows| && rows[i].id == known.rows[i].id
            && rows[i].successes == known.rows[i].successes && rows[i].failures == known.rows[i].failures
  {
    if b.Answered? && b.output.Some? {
      LearningCountsNothing(world, known, nextId, d, b.output.value, i);
    }
  }

  /** What Path A says of a delivery that a row answers for. */
  function PathAEvent(world: World, known: Knowledge, x: Input): Result<Option<Event>> {
    match BestOf(known.rows, x.d.vendorId, FingerprintOf(x.d.payload, {}))
    case None => Ok(None)
    case Some(row) => ViaSchema(world, known, x.d, row, x.answer).event
  }

  lemma PathACounts(world: World, known: Knowledge, d: Delivery, row: SchemaRow, answer: TypeAnswer)
    ensures var a := ViaSchema(world, known, d, row, answer);
            a.known.rows == if a.event.Ok? && a.event.value.Some? then Counted(known.rows, row.id, true) else known.rows
  {
  }

  /** The counters tell the truth: processing adds one success to the row that answered where its document served, one
      failure where Path A gave up, and touches no other counter; an exception counts as neither. */
  lemma CountersTell(world: World, known: Knowledge, nextId: nat, x: Input, i: nat)
    requires RowsOk(known.rows) && i < |known.rows|
    ensures var rows := Process(world, known, nextId, x.d, x.answer, x.b).known.rows;
            var event := PathAEvent(world, known, x);
            var best := BestOf(known.rows, x.d.vendorId, FingerprintOf(x.d.payload, {}));
            var mine := best.Some? && best.value.id == known.rows[i].id;
            && i < |rows| && rows[i].id == known.rows[i].id
            && rows[i].successes == known.rows[i].successes
                                    + (if mine && event.Ok? && event.value.Some? then 1 else 0)
            && rows[i].failures == known.rows[i].failures + if mine && event == Ok(None) then 1 else 0
  {
    match BestOf(known.rows, x.d.vendorId, FingerprintOf(x.d.payload, {})) {
      case None => ProviderCountsNothing(world, known, nextId, 0, x.d, x.b, i);
      case Some(row) =>
        var a := ViaSchema(world, known, x.d, row, x.answer);
        PathACounts(world, known, x.d, row, x.answer);
        CountedAt(known.rows, row.id, true, i);
        CountedAt(known.rows, row.id, false, i);
        if a.event == Ok(None) {
          var counted := a.known.(rows := Counted(a.known.rows, row.id, false));
          ProviderCountsNothing(world, counted, nextId, a.asked, x.d, x.b, i);
        }
    }
  }

  // ----- Forgetting -----

  /** Path A gives up on a payload of this vendor and shape, and a fresh answer is stored over a document that is
      still provisional. */
  predicate Relearns(world: World, known: Knowledge, x: Input, vendorId: string, shape: set<Entry>) {
    && OfShape(x.d, vendorId, shape)
    && var best := BestOf(known.rows, vendorId, shape);
       && best.Some? && Replaceable(best.value)
       && ViaSchema(world, known, x.d, best.value, x.answer).event == Ok(None)
       && FreshDoc(world, x.d, x.b).Some?
  }

  /** And the document so stored is another one. */
  predicate Forgets(world: World, known: Knowledge, x: Input, vendorId: string, shape: set<Entry>) {
    && Relearns(world, known, x, vendorId, shape)
    && FreshDoc(world, x.d, x.b) != DocFor(known.rows, vendorId, shape)
  }

  /** The row that a lookup finds after one more payload, whichever it is: the same, up to its counters, with the
      fresh document in it exactly where the payload relearns. */
  lemma BestAfterProcess(world: World, known: Knowledge, nextId: nat, x: Input, vendorId: string, shape: set<Entry>)
    requires KeyedRows(known.rows) && BestOf(known.rows, vendorId, shape).Some?
    ensures var now := Process(world, known, nextId, x.d, x.answer, x.b).known;
            var before, after := BestOf(known.rows, vendorId, shape).value, BestOf(now.rows, vendorId, shape);
            && KeyedRows(now.rows) && KeepsMappings(known, now) && after.Some?
            && AlikeRows(if Relearns(world, known, x, vendorId, shape)
                         then before.(doc := FreshDoc(world, x.d, x.b).value) else before, after.value)
  {
    if !OfShape(x.d, vendorId, shape) {
      OthersKeepTeaching(world, known, nextId, x, vendorId, shape);
    } else {
      var row := BestOf(known.rows, vendorId, shape).value;
      var a := ViaSchema(world, known, x.d, row, x.answer);
      PathAKeepsTeaching(world, known, x.d, row, x.answer, vendorId, shape);
      if a.event == Ok(None) {
        CountingKeepsBest(a.known.rows, row.id, false, vendorId, shape);
        ProviderBest(world, a.known.(rows := Counted(a.known.rows, row.id, false)), nextId, a.asked, x.d, x.b);
      }
    }
  }

  /** One payload leaves the stored document in place exactly when it does not make the service forget it. */
  lemma KeepsDocIffNotForgets(world: World, known: Knowledge, nextId: nat, x: Input, vendorId: string,
                              shape: set<Entry>)
    requires KeyedRows(known.rows) && BestOf(known.rows, vendorId, shape).Some?
    ensures DocFor(Process(world, known, nextId, x.d, x.answer, x.b).known.rows, vendorId, shape) ==
              DocFor(known.rows, vendorId, shape)
            <==> !Forgets(world, known, x, vendorId, shape)
  {
    BestAfterProcess(world, known, nextId, x, vendorId, shape);
  }

  // ----- Runs -----

  /** The outcomes of processing the inputs one after the other. */
  function Outcomes(world: World, known: Knowledge, nextId: nat, inputs: seq<Input>): (os: seq<Outcome>)
    ensures |os| == |inputs|
    decreases |inputs|
  {
    if inputs == [] then []
    else
      var o := Process(world, known, nextId, inputs[0].d, inputs[0].answer, inputs[0].b);
      [o] + Outcomes(world, o.known, o.nextId, inputs[1..])
  }

  /** What is known after them. */
  function KnownAfter(world: World, known: Knowledge, nextId: nat, inputs: seq<Input>): Knowledge
    decreases |inputs|
  {
    if inputs == [] then known
    else
      var o := Process(world, known, nextId, inputs[0].d, inputs[0].answer, inputs[0].b);
      KnownAfter(world, o.known, o.nextId, inputs[1..])
  }

  /** No input, at its turn, makes the service forget. */
  predicate Undisturbed(world: World, known: Knowledge, nextId: nat, inputs: seq<Input>, vendorId: string,
                        shape: set<Entry>)
    decreases |inputs|
  {
    inputs == []
    || (&& !Forgets(world, known, inputs[0], vendorId, shape)
        && var o := Process(world, known, nextId, inputs[0].d, inputs[0].answer, inputs[0].b);
           Undisturbed(world, o.known, o.nextId, inputs[1..], vendorId, shape))
  }

  /** What is known after a longer prefix, from its first payload on. */
  lemma KnownAfterFirst(world: World, known: Knowledge, nextId: nat, inputs: seq<Input>, n: nat)
    requires n < |inputs|
    ensures var o := Process(world, known, nextId, inputs[0].d, inputs[0].answer, inputs[0].b);
            KnownAfter(world, known, nextId, inputs[..n + 1]) == KnownAfter(world, o.known, o.nextId, inputs[1..][..n])
  {
    assert inputs[..n + 1][1..] == inputs[1..][..n] && inputs[..n + 1][0] == inputs[0];
  }

  /** The stored document is in place after every prefix of a run. */
  ghost predicate KeptThroughout(world: World, known: Knowledge, nextId: nat, inputs: seq<Input>, vendorId: string,
                                 shape: set<Entry>, doc: Option<SchemaDoc>) {
    forall n :: 0 <= n <= |inputs| ==>
      DocFor(KnownAfter(world, known, nextId, inputs[..n]).rows, vendorId, shape) == doc
  }

  lemma KeptStartsWith(world: World, known: Knowledge, nextId: nat, inputs: seq<Input>, vendorId: string,
                       shape: set<Entry>, doc: Option<SchemaDoc>)
    requires KeptThroughout(world, known, nextId, inputs, vendorId, shape, doc)
    ensures DocFor(known.rows, vendorId, shape) == doc
  {
    assert KnownAfter(world, known, nextId, inputs[..0]) == known;
  }

  lemma KeptFromFirst(world: World, known: Knowledge, nextId: nat, inputs: seq<Input>, vendorId: string,
                      shape: set<Entry>, doc: Option<SchemaDoc>)
    requires inputs != []
    ensures var o := Process(world, known, nextId, inputs[0].d, inputs[0].answer, inputs[0].b);
            KeptThroughout(world, known, nextId, inputs, vendorId, shape, doc) <==>
              && DocFor(known.rows, vendorId, shape) == doc
              && KeptThroughout(world, o.known, o.nextId, inputs[1..], vendorId, shape, doc)
  {
    var o := Process(world, known, nextId, inputs[0].d, inputs[0].answer, inputs[0].b);
    if KeptThroughout(world, known, nextId, inputs, vendorId, shape, doc) {
      assert DocFor(KnownAfter(world, known, nextId, inputs[..0]).rows, vendorId, shape) == doc;
      forall n | 0 <= n <= |inputs[1..]|
        ensures DocFor(KnownAfter(world, o.known, o.nextId, inputs[1..][..n]).rows, vendorId, shape) == doc
      {
        KnownAfterFirst(world, known, nextId, inputs, n);
      }
    }
    if DocFor(known.rows, vendorId, shape) == doc
       && KeptThroughout(world, o.known, o.nextId, inputs[1..], vendorId, shape, doc) {
      forall n | 0 <= n <= |inputs|
        ensures DocFor(KnownAfter(world, known, nextId, inputs[..n]).rows, vendorId, shape) == doc
      {
        if n > 0 {
          KnownAfterFirst(world, known, nextId, inputs, n - 1);
        }
      }
    }
  }

  /** A run leaves the stored document in place all the way exactly when none of its payloads, at its turn, makes
      the service forget. */
  lemma {:induction false} UndisturbedIffKept(world: World, known: Knowledge, nextId: nat, inputs: seq<Input>,
                                              vendorId: string, shape: set<Entry>)
    requires KeyedRows(known.rows) && BestOf(known.rows, vendorId, shape).Some?
    ensures Undisturbed(world, known, nextId, inputs, vendorId, shape) <==>
            KeptThroughout(world, known, nextId, inputs, vendorId, shape, DocFor(known.rows, vendorId, shape))
    decreases |inputs|
  {
    var doc := DocFor(known.rows, vendorId, shape);
    if inputs == [] {
      assert forall n :: 0 <= n <= |inputs| ==> inputs[..n] == [];
    } else {
      var x := inputs[0];
      var o := Process(world, known, nextId, x.d, x.answer, x.b);
      BestAfterProcess(world, known, nextId, x, vendorId, shape);
      KeepsDocIffNotForgets(world, known, nextId, x, vendorId, shape);
      UndisturbedIffKept(world, o.known, o.nextId, inputs[1..], vendorId, shape);
      KeptFromFirst(world, known, nextId, inputs, vendorId, shape, doc);
      if KeptThroughout(world, o.known, o.nextId, inputs[1..], vendorId, shape, doc) {
        KeptStartsWith(world, o.known, o.nextId, inputs[1..], vendorId, shape, doc);
      }
    }
  }

  /** An event came out and nobody was asked. */
  predicate Free(o: Outcome) {
    o.asked == 0 && o.event.Ok? && o.event.value.Some?
  }

  /** Free, and the event is the one that the document and the mapping call for. */
  ghost predicate Served(world: World, doc: SchemaDoc, eventTypes: map<(string, string), Mapping>, d: Delivery,
                         o: Outcome) {
    && Free(o)
    && var raw := RawTypeIn(world, d.payload, doc);
       && raw.Ok? && raw.value.Some? && (d.vendorId, raw.value.value) in eventTypes
       && var mapping := eventTypes[(d.vendorId, raw.value.value)];
          RightEvent(world, doc, d, mapping.classification, mapping.state, o.event.value.value)
  }

  lemma ConformingIsServed(world: World, known: Knowledge, nextId: nat, first: Delivery, output: seq<Member>,
                           doc: SchemaDoc, raws: set<string>, x: Input)
    requires Discovered(world, first, output, doc)
    requires Taught(known, first.vendorId, FingerprintOf(first.payload, {}), doc, raws)
    requires OfShape(x.d, first.vendorId, FingerprintOf(first.payload, {})) && Conforms(world, doc, raws, x.d)
    ensures Served(world, doc, known.eventTypes, x.d, Process(world, known, nextId, x.d, x.answer, x.b))
    ensures !Forgets(world, known, x, first.vendorId, FingerprintOf(first.payload, {}))
  {
    PathAServes(world, known, nextId, first, output, doc, raws, x.d, x.answer, x.b);
  }

  lemma TeachingIsKept(world: World, known: Knowledge, nextId: nat, x: Input, vendorId: string, shape: set<Entry>,
                       doc: SchemaDoc, raws: set<string>)
    requires KeyedRows(known.rows) && Taught(known, vendorId, shape, doc, raws)
    requires !Forgets(world, known, x, vendorId, shape)
    ensures var now := Process(world, known, nextId, x.d, x.answer, x.b).known;
            KeyedRows(now.rows) && Taught(now, vendorId, shape, doc, raws) && KeepsMappings(known, now)
  {
    BestAfterProcess(world, known, nextId, x, vendorId, shape);
  }

  lemma ServedByKept(world: World, a: Knowledge, b: Knowledge, vendorId: string, shape: set<Entry>, doc: SchemaDoc,
                     raws: set<string>, d: Delivery, o: Outcome)
    requires Taught(a, vendorId, shape, doc, raws) && KeepsMappings(a, b)
    requires Conforms(world, doc, raws, d) && d.vendorId == vendorId && Served(world, doc, b.eventTypes, d, o)
    ensures Served(world, doc, a.eventTypes, d, o)
  {
  }

  /** Learn once, over whole runs: in any traffic processed one after the other, every conforming payload of the learned
      vendor and shape becomes the right event without a question, as long as no payload before it made the service
      forget. */
  lemma {:induction false} LearnedForGood(world: World, known: Knowledge, nextId: nat, first: Delivery,
                                          output: seq<Member>, doc: SchemaDoc, raws: set<string>, inputs: seq<Input>,
                                          i: nat)
    requires Discovered(world, first, output, doc) && KeyedRows(known.rows)
    requires Taught(known, first.vendorId, FingerprintOf(first.payload, {}), doc, raws)
    requires i < |inputs| && Conforms(world, doc, raws, inputs[i].d)
    requires OfShape(inputs[i].d, first.vendorId, FingerprintOf(first.payload, {}))
    requires Undisturbed(world, known, nextId, inputs[..i], first.vendorId, FingerprintOf(first.payload, {}))
    ensures Served(world, doc, known.eventTypes, inputs[i].d, Outcomes(world, known, nextId, inputs)[i])
    decreases i
  {
    var x, rest, shape := inputs[0], inputs[1..], FingerprintOf(first.payload, {});
    if i == 0 {
      ConformingIsServed(world, known, nextId, first, output, doc, raws, x);
    } else {
      var o := Process(world, known, nextId, x.d, x.answer, x.b);
      assert inputs[..i][0] == x && inputs[..i][1..] == rest[..i - 1];
      TeachingIsKept(world, known, nextId, x, first.vendorId, shape, doc, raws);
      LearnedForGood(world, o.known, o.nextId, first, output, doc, raws, rest, i - 1);
      ServedByKept(world, known, o.known, first.vendorId, shape, doc, raws, inputs[i].d,
                   Outcomes(world, o.known, o.nextId, rest)[i - 1]);
    }
  }

  /** Every payload of the vendor and shape conforms; all others are arbitrary. */
  predicate AllConform(world: World, doc: SchemaDoc, raws: set<string>, vendorId: string, shape: set<Entry>,
                       inputs: seq<Input>) {
    forall i :: 0 <= i < |inputs| && OfShape(inputs[i].d, vendorId, shape) ==> Conforms(world, doc, raws, inputs[i].d)
  }

  /** Conforming payloads never make the service forget, and neither do payloads of other vendors or shapes. */
  lemma {:induction false} ConformingIsUndisturbed(world: World, known: Knowledge, nextId: nat, first: Delivery,
                                                   output: seq<Member>, doc: SchemaDoc, raws: set<string>,
                                                   inputs: seq<Input>)
    requires Discovered(world, first, output, doc) && KeyedRows(known.rows)
    requires Taught(known, first.vendorId, FingerprintOf(first.payload, {}), doc, raws)
    requires AllConform(world, doc, raws, first.vendorId, FingerprintOf(first.payload, {}), inputs)
    ensures Undisturbed(world, known, nextId, inputs, first.vendorId, FingerprintOf(first.payload, {}))
    decreases |inputs|
  {
    if inputs != [] {
      var x, shape := inputs[0], FingerprintOf(first.payload, {});
      var o := Process(world, known, nextId, x.d, x.answer, x.b);
      if OfShape(x.d, first.vendorId, shape) {
        ConformingIsServed(world, known, nextId, first, output, doc, raws, x);
      }
      TeachingIsKept(world, known, nextId, x, first.vendorId, shape, doc, raws);
      ConformingIsUndisturbed(world, o.known, o.nextId, first, output, doc, raws, inputs[1..]);
    }
  }

  // ----- Settled documents -----

  /** The row found is active, or of a later version: no upsert of the discoverer shows in a lookup. */
  predicate Settled(rows: seq<SchemaRow>, vendorId: string, shape: set<Entry>) {
    var best := BestOf(rows, vendorId, shape);
    best.Some? && !Replaceable(best.value)
  }

  /** A settled document is never overwritten, whatever arrives and whatever is answered. */
  lemma {:induction false} SettledIsUndisturbed(world: World, known: Knowledge, nextId: nat, inputs: seq<Input>,
                                                vendorId: string, shape: set<Entry>)
    requires KeyedRows(known.rows) && Settled(known.rows, vendorId, shape)
    ensures Undisturbed(world, known, nextId, inputs, vendorId, shape)
    decreases |inputs|
  {
    if inputs != [] {
      var o := Process(world, known, nextId, inputs[0].d, inputs[0].answer, inputs[0].b);
      BestAfterProcess(world, known, nextId, inputs[0], vendorId, shape);
      SettledIsUndisturbed(world, o.known, o.nextId, inputs[1..], vendorId, shape);
    }
  }

  /** Once its document is settled, every conforming payload of the vendor and shape becomes the right event without
      a question, in any traffic processed one after the other. */
  lemma SettledServesForGood(world: World, known: Knowledge, nextId: nat, first: Delivery, output: seq<Member>,
                             doc: SchemaDoc, raws: set<string>, inputs: seq<Input>, i: nat)
    requires Discovered(world, first, output, doc) && KeyedRows(known.rows)
    requires Taught(known, first.vendorId, FingerprintOf(first.payload, {}), doc, raws)
    requires Settled(known.rows, first.vendorId, FingerprintOf(first.payload, {}))
    requires i < |inputs| && Conforms(world, doc, raws, inputs[i].d)
    requires OfShape(inputs[i].d, first.vendorId, FingerprintOf(first.payload, {}))
    ensures Served(world, doc, known.eventTypes, inputs[i].d, Outcomes(world, known, nextId, inputs)[i])
  {
    SettledIsUndisturbed(world, known, nextId, inputs[..i], first.vendorId, FingerprintOf(first.payload, {}));
    LearnedForGood(world, known, nextId, first, output, doc, raws, inputs, i);
  }

  // ----- The first payload -----

  /** Nothing is stored for this vendor and shape, and the raw type has no mapping that could not be used. */
  ghost predicate Unheard(known: Knowledge, vendorId: string, shape: set<Entry>, raw: string) {
    && KeyedRows(known.rows)
    && (forall i :: 0 <= i < |known.rows| ==> known.rows[i].vendorId != vendorId || known.rows[i].shape != shape)
    && ((vendorId, raw) in known.eventTypes ==>
          Usable(known.eventTypes[(vendorId, raw)].classification, known.eventTypes[(vendorId, raw)].state))
  }

  lemma ReproducedStateIsUsable(world: World, first: Delivery, doc: SchemaDoc, output: seq<Member>)
    requires doc.classification == "shipment" || doc.classification == "invoice"
    requires Reproduces(world, first, doc, output) == Ok(true)
    ensures var state := Get(output, "event_type"); state.Str? && Usable(doc.classification, state.s)
    ensures Get(output, "event_type").s != ""
  {
  }

  lemma DiscoveryTeaches(world: World, known: Knowledge, nextId: nat, first: Delivery, output: seq<Member>,
                         doc: SchemaDoc, raw: string)
    requires Discovered(world, first, output, doc) && RawTypeIn(world, first.payload, doc) == Ok(Some(raw)) && raw != ""
    requires Unheard(known, first.vendorId, FingerprintOf(first.payload, {}), raw)
    ensures var lesson := Learn(world, known, nextId, first, output);
            && lesson.id == Ok(Some(nextId)) && KeyedRows(lesson.known.rows)
            && Taught(lesson.known, first.vendorId, FingerprintOf(first.payload, {}), doc, {raw})
            && Replaceable(BestOf(lesson.known.rows, first.vendorId, FingerprintOf(first.payload, {})).value)
  {
    var shape := FingerprintOf(first.payload, {});
    InferredId(world, first.payload, output, doc);
    ReproducedStateIsUsable(world, first, doc, output);
    assert FindUnique(known.rows, first.vendorId, shape, 1).None?;
    BestIsFirst(known.rows, first.vendorId, shape);
    BestAfterPersisting(known.rows, nextId, first.vendorId, shape, doc);
    PersistingKeepsKeys(known.rows, nextId, first.vendorId, shape, doc);
  }

  /** The learn-once theorem. A payload of a shape never seen before costs one question to the orchestrator. If its
      answer yields a document with array-free required paths and a mapped raw type, then in any later traffic,
      processed one after the other, each conforming payload of that vendor and shape becomes the right event without
      another question, as long as no payload before it made the service forget. */
  lemma LearnOnce(world: World, known: Knowledge, nextId: nat, first: Delivery, event: Event, output: seq<Member>,
                  answer: TypeAnswer, doc: SchemaDoc, raw: string, inputs: seq<Input>, i: nat)
    requires Discovered(world, first, output, doc) && RawTypeIn(world, first.payload, doc) == Ok(Some(raw)) && raw != ""
    requires Unheard(known, first.vendorId, FingerprintOf(first.payload, {}), raw)
    requires i < |inputs| && Conforms(world, doc, {raw}, inputs[i].d)
    requires OfShape(inputs[i].d, first.vendorId, FingerprintOf(first.payload, {}))
    ensures var o := Process(world, known, nextId, first, answer, Answered(event, Some(output)));
            && o.asked == 1 && o.event == Ok(Some(event))
            && (Undisturbed(world, o.known, o.nextId, inputs[..i], first.vendorId, FingerprintOf(first.payload, {})) ==>
                  var later := Outcomes(world, o.known, o.nextId, inputs)[i];
                  && Served(world, doc, o.known.eventTypes, inputs[i].d, later)
                  && ((first.vendorId, raw) !in known.eventTypes ==>
                        exists state :: Get(output, "event_type") == Str(state) &&
                          RightEvent(world, doc, inputs[i].d, doc.classification, state, later.event.value.value)))
  {
    var shape := FingerprintOf(first.payload, {});
    var o := Process(world, known, nextId, first, answer, Answered(event, Some(output)));
    BestIsFirst(known.rows, first.vendorId, shape);
    DiscoveryTeaches(world, known, nextId, first, output, doc, raw);
    LearningMapsThatType(world, known, nextId, first, output, doc, raw);
    if Undisturbed(world, o.known, o.nextId, inputs[..i], first.vendorId, shape) {
      LearnedForGood(world, o.known, o.nextId, first, output, doc, {raw}, inputs, i);
    }
  }
}
