/** `process_event` from the stored webhook to its final status: extraction by Path A or Path B, then one
    transaction that finalises, defers or hands over to a person. */
module Worker {
  import opened Prelude
  import opened Json
  import opened Canonical
  import opened Projection
  import opened Database
  import opened Engine
  import opened Fingerprint
  import opened Adapter
  import opened Registry
  import opened PathA
  import opened LearnedRuns
  import opened Normalizer
  import opened PyText
  import opened Learning
  import opened Tables

  datatype Verdict = NotFound | Finalized(outcome: Projection.Outcome) | Pending | InReview

  // ----- Which event is finalised -----

  /** Path A gives up: no row answers, or its document yields no event. */
  predicate NoPathA(world: World, known: Knowledge, d: Delivery, answer: TypeAnswer) {
    match BestOf(known.rows, d.vendorId, FingerprintOf(d.payload, {}))
    case None => true
    case Some(row) => ViaSchema(world, known, d, row, answer).event == Ok(None)
  }

  /** The event is the one that Path A extracts; where Path A gives up, it is Path B's, and there is none exactly where
      that deferred or found nothing it could use. */
  lemma WhichEvent(world: World, known: Knowledge, nextId: nat, d: Delivery, answer: TypeAnswer, b: PathB)
    ensures var event := Process(world, known, nextId, d, answer, b).event;
            && (!NoPathA(world, known, d, answer) ==>
                  && event != Ok(None)
                  && var row := BestOf(known.rows, d.vendorId, FingerprintOf(d.payload, {})).value;
                     && event == ViaSchema(world, known, d, row, answer).event
                     && (event.Ok? ==> event.value.value.eventId == d.eventId))
            && (NoPathA(world, known, d, answer) ==>
                  && (b.Answered? ==> event == Ok(Some(b.event)))
                  && (b.Unreachable? ==> event == Raised)
                  && (b.Deferred? || b.Unsupported? ==> event == Ok(None)))
  {
  }

  /** The vendor that an event is filed under: the pipeline's, unless it is empty or "unknown". */
  function FiledUnder(extracted: string, pipelineVendor: string): string {
    if pipelineVendor in ["", "unknown"] then extracted else pipelineVendor
  }

  /** Preparing changes the vendor only, and raises exactly where an id is blank. */
  lemma PreparedIs(extracted: Event, pipelineVendor: string)
    ensures var prepared, vendor := Prepared(extracted, pipelineVendor), FiledUnder(extracted.vendorId, pipelineVendor);
            && (prepared.Raised? <==> Strip(extracted.eventId) == "" || Strip(vendor) == "")
            && (prepared.Ok? ==>
                  && prepared.value.eventId == extracted.eventId && prepared.value.vendorId == Strip(vendor)
                  && (Strip(extracted.vendorId) != "" ==>
                        prepared.value == Normalized(extracted).value.(vendorId := Strip(vendor))))
  {
  }

  /** How the transaction at the end leaves a known event: an event that can be normalised is finalised, one that
      cannot raises and changes nothing; without one, a deferral is left pending and the rest goes to a person. */
  ghost predicate Ends(before: Db, next: nat, past: seq<Event>, eventId: EventId, event: Result<Option<Event>>,
                       vendorId: string, deferred: bool, after: Db, history: seq<Event>, r: Result<Verdict>) {
    match event
    case Raised => r == Raised && after == before && history == past
    case Ok(Some(extracted)) =>
      (match Prepared(extracted, vendorId)
       case Raised => r == Raised && after == before && history == past
       case Ok(it) =>
         && r == Ok(Finalized(if it.UnclassifiedEvent? then UnclassifiedRecorded
                              else StepOutcome(View(before.tables, Key(it)), it)))
         && after == FinalizeTx(before, it, IdOf(before.tables, it, next)) && history == past + [it])
    case Ok(None) =>
      && history == past && r == Ok(if deferred then Pending else InReview)
      && after == if deferred then SetRaw(before, eventId, None, PendingLlm)
                  else ReviewTx(before, eventId, "unsupported")
  }

  /** The pipeline's vendor: the stored one, unless there is none or it is empty. */
  ghost predicate IsVendor(stored: Option<string>, inferred: string, vendorId: string) {
    if stored == None || stored == Some("") then vendorId == inferred else stored == Some(vendorId)
  }

  class Worker {
    const store: Store
    const pipeline: Pipeline

    constructor (store: Store, pipeline: Pipeline)
      ensures this.store == store && this.pipeline == pipeline
    {
      this.store, this.pipeline := store, pipeline;
    }

    /** `row["vendor_id"] or _infer_vendor_id(payload, headers)`. */
    method VendorOf(eventId: EventId, inferredVendor: string) returns (vendorId: string)
      requires eventId in store.raw
      ensures IsVendor(store.raw[eventId].vendorId, inferredVendor, vendorId)
    {
      var stored := store.raw[eventId].vendorId;
      return if stored.Some? && stored.value != "" then stored.value else inferredVendor;
    }

    /** Both paths; the projections are not touched yet. */
    method ExtractEvent(d: Delivery, answer: TypeAnswer, b: PathB) returns (event: Result<Option<Event>>)
      requires pipeline.registry.Valid()
      requires b.Answered? ==> b.event.eventId == d.eventId
      modifies pipeline, pipeline.registry
      ensures pipeline.registry.Valid()
      ensures var o := Process(pipeline.world, old(pipeline.registry.known), old(pipeline.registry.nextId), d, answer,
                               b);
              && pipeline.registry.known == o.known && pipeline.registry.nextId == o.nextId
              && pipeline.asked == old(pipeline.asked) + o.asked && event == o.event
      ensures event.Ok? && event.value.Some? ==> event.value.value.eventId == d.eventId
    {
      WhichEvent(pipeline.world, pipeline.registry.known, pipeline.registry.nextId, d, answer, b);
      event := pipeline.ProcessEvent(d, answer, b);
    }

    /** The transaction at the end: finalise, defer or hand over. An event that cannot be normalised raises. */
    method Conclude(eventId: EventId, event: Option<Event>, vendorId: string, deferred: bool)
        returns (r: Result<Verdict>)
      requires store.Valid() && eventId in store.raw && (event.Some? ==> event.value.eventId == eventId)
      modifies store
      ensures store.Valid() && store.raw.Keys == old(store.raw).Keys
      ensures Ends(old(store.Contents()), old(store.nextId), old(store.history), eventId, Ok(event), vendorId, deferred,
                   store.Contents(), store.history, r)
    {
      if event.Some? {
        var result := store.Finalize(event.value, vendorId);
        return match result case Ok(outcome) => Ok(Finalized(outcome)) case Raised => Raised;
      }
      if deferred {
        store.MarkUnfinished(eventId, PendingLlm);
        return Ok(Pending);
      }
      var _ := store.MarkReview(eventId, "unsupported");
      return Ok(InReview);
    }

    /** `process_event`: an unknown id changes nothing. A known one is processed under its vendor, the registry learns,
        and the event that comes out of the two paths is finalised; an exception leaves the database as it was. */
    method ProcessEvent(eventId: EventId, payload: Json, inferredVendor: string, answer: TypeAnswer, b: PathB)
        returns (r: Result<Verdict>, ghost vendorId: string)
      requires store.Valid() && pipeline.registry.Valid()
      requires b.Answered? ==> b.event.eventId == eventId
      modifies store, pipeline, pipeline.registry
      ensures store.Valid() && pipeline.registry.Valid() && store.raw.Keys == old(store.raw).Keys
      ensures r == Ok(NotFound) <==> eventId !in old(store.raw)
      ensures eventId !in old(store.raw) ==>
                && store.Contents() == old(store.Contents()) && store.history == old(store.history)
                && pipeline.registry.known == old(pipeline.registry.known) && pipeline.asked == old(pipeline.asked)
      ensures eventId in old(store.raw) ==>
                && IsVendor(old(store.raw)[eventId].vendorId, inferredVendor, vendorId)
                && var o := Process(pipeline.world, old(pipeline.registry.known), old(pipeline.registry.nextId),
                                    Delivery(eventId, vendorId, payload), answer, b);
                   && pipeline.registry.known == o.known && pipeline.registry.nextId == o.nextId
                   && pipeline.asked == old(pipeline.asked) + o.asked
                   && Ends(old(store.Contents()), old(store.nextId), old(store.history), eventId, o.event, vendorId,
                           b.Deferred?, store.Contents(), store.history, r)
    {
      if eventId !in store.raw {
        return Ok(NotFound), "";
      }
      var vendor := VendorOf(eventId, inferredVendor);
      var event := ExtractEvent(Delivery(eventId, vendor, payload), answer, b);
      if event.Raised? {
        return Raised, vendor;
      }
      r := Conclude(eventId, event.value, vendor, b.Deferred?);
      vendorId := vendor;
    }
  }

  // ----- What that leaves in the tables -----

  /** A finalised event stands, prepared, in its canonical row and at the end of the history, and its status says so;
      a deferral and a hand-over leave the canonical rows alone. */
  lemma EndsInTables(before: Db, next: nat, past: seq<Event>, eventId: EventId, event: Option<Event>, vendorId: string,
                     deferred: bool, after: Db, history: seq<Event>, r: Result<Verdict>)
    requires Ends(before, next, past, eventId, Ok(event), vendorId, deferred, after, history, r)
    requires eventId in before.raw && (event.Some? ==> event.value.eventId == eventId)
    ensures event.Some? && r.Ok? ==>
              && after.raw[eventId].status == Processed && eventId in after.canonical
              && Prepared(event.value, vendorId) == Ok(after.canonical[eventId])
              && history == past + [after.canonical[eventId]]
    ensures event.Some? && r.Raised? ==> Prepared(event.value, vendorId).Raised? && after == before
    ensures event.None? ==> after.tables == before.tables && after.canonical == before.canonical
    ensures event.None? && deferred ==> r == Ok(Pending) && after.raw[eventId].status == PendingLlm
    ensures event.None? && !deferred ==>
              r == Ok(InReview) && after.raw[eventId].status == Review && eventId in after.reviews
  {
  }

  /** Where Path A gives up, the provider's event is the one that is finalised; the event is left pending exactly on a
      deferral, and handed over exactly where nothing could be used. */
  lemma ProviderIsFinalized(world: World, known: Knowledge, nextId: nat, d: Delivery, answer: TypeAnswer, b: PathB,
                            before: Db, next: nat, past: seq<Event>, after: Db, history: seq<Event>,
                            r: Result<Verdict>)
    requires NoPathA(world, known, d, answer)
    requires Ends(before, next, past, d.eventId, Process(world, known, nextId, d, answer, b).event, d.vendorId,
                  b.Deferred?, after, history, r)
    requires d.eventId in before.raw && (b.Answered? ==> b.event.eventId == d.eventId)
    ensures r == Ok(Pending) <==> b.Deferred?
    ensures r == Ok(InReview) <==> b.Unsupported?
    ensures b.Unreachable? ==> r == Raised && after == before
    ensures b.Answered? && r.Ok? ==>
              && after.raw[d.eventId].status == Processed && d.eventId in after.canonical
              && Prepared(b.event, d.vendorId) == Ok(after.canonical[d.eventId])
    ensures b.Answered? && r.Raised? ==> Prepared(b.event, d.vendorId).Raised?
  {
    WhichEvent(world, known, nextId, d, answer, b);
    var event := Process(world, known, nextId, d, answer, b).event;
    if event.Ok? {
      EndsInTables(before, next, past, d.eventId, event.value, d.vendorId, b.Deferred?, after, history, r);
    }
  }

  /** The row of a named delivery's event, as both paths of Path A bear the delivery's ids. */
  lemma NamedIsFinalized(d: Delivery, event: Event, deferred: bool, before: Db, next: nat, past: seq<Event>,
                         after: Db, history: seq<Event>, r: Result<Verdict>)
    requires Named(d) && event.eventId == d.eventId && event.vendorId == d.vendorId && d.eventId in before.raw
    requires Ends(before, next, past, d.eventId, Ok(Some(event)), d.vendorId, deferred, after, history, r)
    ensures r.Ok? && r.value.Finalized? && after.raw[d.eventId].status == Processed && d.eventId in after.canonical
    ensures Normalized(event) == Ok(after.canonical[d.eventId]) && history == past + [after.canonical[d.eventId]]
  {
    PreparedIs(event, d.vendorId);
    assert event == event.(vendorId := d.vendorId);
    assert Prepared(event, d.vendorId) == Normalized(event);
    EndsInTables(before, next, past, d.eventId, Some(event), d.vendorId, deferred, after, history, r);
  }

  /** Learn once, down to the tables: a conforming payload of a vendor and shape that has been taught ends with the
      right event, normalised, in its canonical row, whatever the orchestrator would have said. */
  lemma TaughtIsFinalized(world: World, known: Knowledge, nextId: nat, first: Delivery, output: seq<Member>,
                          doc: SchemaDoc, raws: set<string>, d: Delivery, answer: TypeAnswer, b: PathB, before: Db,
                          next: nat, past: seq<Event>, after: Db, history: seq<Event>, r: Result<Verdict>)
      returns (event: Event)
    requires Discovered(world, first, output, doc)
    requires Taught(known, first.vendorId, FingerprintOf(first.payload, {}), doc, raws)
    requires d.vendorId == first.vendorId && SameShape(first.payload, d.payload) && Conforms(world, doc, raws, d)
    requires d.eventId in before.raw
    requires Ends(before, next, past, d.eventId, Process(world, known, nextId, d, answer, b).event, d.vendorId,
                  b.Deferred?, after, history, r)
    ensures var mapping := known.eventTypes[(d.vendorId, RawTypeIn(world, d.payload, doc).value.value)];
            RightEvent(world, doc, d, mapping.classification, mapping.state, event)
    ensures r.Ok? && r.value.Finalized? && after.raw[d.eventId].status == Processed && d.eventId in after.canonical
    ensures Normalized(event) == Ok(after.canonical[d.eventId]) && history == past + [after.canonical[d.eventId]]
  {
    PathAServes(world, known, nextId, first, output, doc, raws, d, answer, b);
    event := Process(world, known, nextId, d, answer, b).event.value.value;
    NamedIsFinalized(d, event, b.Deferred?, before, next, past, after, history, r);
  }
}
