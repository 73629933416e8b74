/** The engine at the level at which one transaction runs to completion before the next begins: the
    statements of the state machine and of the pipeline, over mutable tables. */
module Engine {
  import opened Prelude
  import opened Canonical
  import opened Projection
  import opened Runs
  import opened Tables
  import opened Database
  import opened Normalizer

  /** `canonical.model_copy(update={"vendor_id": ...})`: the pipeline's vendor overrides the extracted one. */
  function WithVendor(ev: Event, pipelineVendor: string): Event {
    if pipelineVendor != "" && pipelineVendor != "unknown" then ev.(vendorId := pipelineVendor) else ev
  }

  /** What `_finalize` does to an extracted event before its transaction: the vendor override, then `normalize`. */
  function Prepared(extracted: Event, pipelineVendor: string): (r: Result<Event>)
    ensures r.Ok? ==> r.value.eventId == extracted.eventId
  {
    Normalized(WithVendor(extracted, pipelineVendor))
  }

  /** The id under which an event is applied when the sequence stands at `next`. */
  function IdOf(t: Tables, ev: Event, next: nat): nat {
    if ev.UnclassifiedEvent? then next else EntityId(t, Key(ev), next)
  }

  /** A sound database whose id sequence is ahead of it and whose projections are the runs of `history`. */
  ghost predicate Sound(db: Db, next: nat, history: seq<Event>) {
    DbOk(db) && IdsBelow(db.tables, next) && Shows(db.tables, history)
  }

  /** The sequence of a sound store yields an unused id. */
  lemma NextIdIsFree(db: Db, next: nat, history: seq<Event>)
    requires Sound(db, next, history)
    ensures KeysOk(db.tables) && NewId(db.tables, next)
  {
    NextIdIsNew(db.tables, next);
  }

  /** One finalisation keeps a store sound. */
  lemma FinalizeStep(db: Db, db': Db, ev: Event, next: nat, next': nat, history: seq<Event>)
    requires Sound(db, next, history) && ev.eventId in db.raw && NewId(db.tables, next)
    requires db' == FinalizeTx(db, ev, IdOf(db.tables, ev, next))
    requires next' == if ev.UnclassifiedEvent? || Key(ev) in db.tables.entities then next else next + 1
    ensures Sound(db', next', history + [ev]) && db'.raw.Keys == db.raw.Keys
  {
    var id := IdOf(db.tables, ev, next);
    FinalizeTxKeepsDb(db, ev, id);
    FinalizeTxShows(db, ev, id, history);
    if !ev.UnclassifiedEvent? {
      assert IdsBelow(db.tables, next');
      ApplyTxKeepsIdsBelow(db.tables, ev, id, next');
    }
  }

  /** Truncation keeps a store sound. */
  lemma TruncateStep(db: Db, next: nat)
    ensures Sound(TruncateTx(db), next, [])
  {
    TruncateTxShows(db, next);
  }

  class Store {
    var entities: map<EntityKey, nat>
    var nextId: nat
    var applied: map<AppliedKey, State>
    var shipments: map<nat, Row>
    var invoices: map<nat, Row>
    var staleLog: seq<StaleRow>
    var canonical: map<EventId, Event>
    var raw: map<EventId, RawEvent>
    var reviews: map<EventId, string>

    /** The events finalised since the tables were last empty. */
    ghost var history: seq<Event>

    ghost function Projections(): Tables
      reads this
    {
      Tables(entities, applied, shipments, invoices, staleLog)
    }

    ghost function Contents(): Db
      reads this
    {
      Db(Projections(), canonical, raw, reviews)
    }

    ghost predicate Valid()
      reads this
    {
      Sound(Contents(), nextId, history)
    }

    /** A store that has received events and processed none. */
    constructor (received: map<EventId, RawEvent>)
      requires forall e :: e in received ==> received[e].status == Queued
      ensures Valid() && history == [] && raw == received
    {
      entities, nextId, applied, shipments, invoices, staleLog := map[], 1, map[], map[], map[], [];
      canonical, raw, reviews := map[], received, map[];
      history := [];
      new;
      TruncateStep(Contents(), nextId);
      assert Contents() == TruncateTx(Contents());
    }

    method GetOrCreateEntity(k: EntityKey) returns (id: nat)
      modifies this`entities, this`nextId
      ensures id == EntityId(old(Projections()), k, old(nextId))
      ensures entities == old(entities)[k := id]
      ensures nextId == if k in old(entities) then old(nextId) else old(nextId) + 1
    {
      if k in entities {
        id := entities[k];
        assert entities == entities[k := id];
      } else {
        id := nextId;
        nextId := nextId + 1;
        entities := entities[k := id];
      }
    }

    method LogStaleEntry(id: nat, entry: Stale)
      modifies this`staleLog
      ensures Projections() == LogStale(old(Projections()), id, entry)
    {
      staleLog := staleLog + [StaleRow(id, entry)];
    }

    method ApplyShipment(ev: EntityEvent) returns (outcome: Outcome)
      requires ev.ShipmentEvent?
      requires KeysOk(Projections()) && NewId(Projections(), nextId)
      modifies this`entities, this`nextId, this`applied, this`shipments, this`staleLog
      ensures Projections() == ApplyTx(old(Projections()), ev, IdOf(old(Projections()), ev, old(nextId)))
      ensures outcome == StepOutcome(View(old(Projections()), Key(ev)), ev)
      ensures nextId == if Key(ev) in old(entities) then old(nextId) else old(nextId) + 1
    {
      var target := Target(ev);
      var id := GetOrCreateEntity(Key(ev));
      if AppliedKey(id, ev.eventId) in applied {
        assert Key(ev) in old(entities);
        assert entities == old(entities);
        return AlreadyApplied;
      }
      applied := applied[AppliedKey(id, ev.eventId) := target];
      if id !in shipments {
        shipments := shipments[id := Row(ev.vendorId, ev.externalId, target, ev.eventId, ev.ts, 1, ev.refs,
                                         ShipmentColumns(ev.location))];
        return AppliedInitial;
      }
      var existing := shipments[id];
      if ev.ts < existing.lastTs {
        LogStaleEntry(id, OlderThanLastApplied(ev.eventId, existing.state, existing.lastTs, ev.ts));
        return StaleSkipped;
      }
      if target.shipment !in ShipmentTransitions(Some(existing.state.shipment)) {
        LogStaleEntry(id, DisallowedTransition(ev.eventId, existing.state, target));
        return TransitionRejected;
      }
      // The same-state branch that the source has here is dead: no shipment state allows itself.
      if shipments[id].version == existing.version {
        var row := shipments[id];
        shipments := shipments[id := row.(state := target, lastEventId := ev.eventId, lastTs := ev.ts,
                                          version := row.version + 1, refs := row.refs + ev.refs,
                                          columns := ShipmentColumns(Coalesce(ev.location, row.columns.location)))];
      }
      return Applied;
    }

    method ApplyInvoice(ev: EntityEvent) returns (outcome: Outcome)
      requires ev.InvoiceEvent?
      requires KeysOk(Projections()) && NewId(Projections(), nextId)
      modifies this`entities, this`nextId, this`applied, this`invoices, this`staleLog
      ensures Projections() == ApplyTx(old(Projections()), ev, IdOf(old(Projections()), ev, old(nextId)))
      ensures outcome == StepOutcome(View(old(Projections()), Key(ev)), ev)
      ensures nextId == if Key(ev) in old(entities) then old(nextId) else old(nextId) + 1
    {
      var target := Target(ev);
      var id := GetOrCreateEntity(Key(ev));
      if AppliedKey(id, ev.eventId) in applied {
        assert Key(ev) in old(entities);
        assert entities == old(entities);
        return AlreadyApplied;
      }
      applied := applied[AppliedKey(id, ev.eventId) := target];
      var currency := if ev.amount.Some? then Some(ev.amount.value.currency) else None;
      var amountMinor := if ev.amount.Some? then Some(ev.amount.value.amountMinor) else None;
      if id !in invoices {
        invoices := invoices[id := Row(ev.vendorId, ev.externalId, target, ev.eventId, ev.ts, 1, ev.refs,
                                       InvoiceColumns(currency, amountMinor, ev.dueAt))];
        return AppliedInitial;
      }
      var existing := invoices[id];
      if ev.ts < existing.lastTs {
        LogStaleEntry(id, OlderThanLastApplied(ev.eventId, existing.state, existing.lastTs, ev.ts));
        return StaleSkipped;
      }
      if target.invoice !in InvoiceTransitions(Some(existing.state.invoice)) && target != existing.state {
        LogStaleEntry(id, DisallowedTransition(ev.eventId, existing.state, target));
        return TransitionRejected;
      }
      var row := invoices[id];
      if target == existing.state {
        if row.version == existing.version {
          invoices := invoices[id := row.(lastEventId := ev.eventId, lastTs := ev.ts, refs := row.refs + ev.refs,
                                          version := row.version + 1)];
        }
        return Applied;
      }
      if row.version == existing.version {
        invoices := invoices[id := row.(state := target, lastEventId := ev.eventId, lastTs := ev.ts,
                                        version := row.version + 1, refs := row.refs + ev.refs,
                                        columns := InvoiceColumns(
                                          Coalesce(currency, row.columns.currency),
                                          Coalesce(amountMinor, row.columns.amountMinor),
                                          Coalesce(ev.dueAt, row.columns.dueAt)))];
      }
      return Applied;
    }

    method ApplyEvent(ev: Event) returns (outcome: Outcome)
      requires KeysOk(Projections()) && NewId(Projections(), nextId)
      modifies this`entities, this`nextId, this`applied, this`shipments, this`invoices, this`staleLog
      ensures nextId == if ev.UnclassifiedEvent? || Key(ev) in old(entities) then old(nextId) else old(nextId) + 1
      ensures Projections() ==
              if ev.UnclassifiedEvent? then old(Projections())
              else ApplyTx(old(Projections()), ev, IdOf(old(Projections()), ev, old(nextId)))
      ensures outcome == if ev.UnclassifiedEvent? then UnclassifiedRecorded
                         else StepOutcome(View(old(Projections()), Key(ev)), ev)
    {
      match ev {
        case ShipmentEvent(_, _, _, _, _, _, _) => outcome := ApplyShipment(ev);
        case InvoiceEvent(_, _, _, _, _, _, _, _) => outcome := ApplyInvoice(ev);
        case UnclassifiedEvent(_, _, _, _) => outcome := UnclassifiedRecorded;
      }
    }

    /** `UPDATE raw_events`: the vendor is filled in only where it was unknown. */
    method UpdateRaw(e: EventId, vendorId: Option<string>, status: Status)
      modifies this`raw
      ensures Contents() == SetRaw(old(Contents()), e, vendorId, status)
    {
      if e in raw {
        raw := raw[e := RawEvent(Coalesce(raw[e].vendorId, vendorId), status)];
      }
    }

    /** The statements of `_finalize`'s transaction. */
    method FinalizeRows(ev: Event) returns (outcome: Outcome)
      requires KeysOk(Projections()) && NewId(Projections(), nextId)
      modifies this`entities, this`nextId, this`applied, this`shipments, this`invoices, this`staleLog
      modifies this`canonical, this`raw
      ensures Contents() == FinalizeTx(old(Contents()), ev, IdOf(old(Projections()), ev, old(nextId)))
      ensures nextId == if ev.UnclassifiedEvent? || Key(ev) in old(entities) then old(nextId) else old(nextId) + 1
      ensures outcome == if ev.UnclassifiedEvent? then UnclassifiedRecorded
                         else StepOutcome(View(old(Projections()), Key(ev)), ev)
    {
      canonical := canonical[ev.eventId := ev];
      outcome := ApplyEvent(ev);
      UpdateRaw(ev.eventId, Some(ev.vendorId), Processed);
    }

    /** `_finalize` from its transaction on. The canonical row's foreign key makes it raise, and change nothing,
        for an event that was never received. */
    method FinalizeNormalized(ev: Event) returns (result: Result<Outcome>)
      requires Valid()
      modifies this
      ensures Valid() && raw.Keys == old(raw).Keys
      ensures if ev.eventId in old(raw) then
                && Contents() == FinalizeTx(old(Contents()), ev, IdOf(old(Projections()), ev, old(nextId)))
                && history == old(history) + [ev]
                && result == Ok(if ev.UnclassifiedEvent? then UnclassifiedRecorded
                                else StepOutcome(old(View(Projections(), Key(ev))), ev))
              else
                result == Raised && Contents() == old(Contents()) && history == old(history)
    {
      if ev.eventId !in raw {
        return Raised;
      }
      ghost var before, next := Contents(), nextId;
      NextIdIsFree(before, next, history);
      var outcome := FinalizeRows(ev);
      ghost var after := Contents();
      FinalizeStep(before, after, ev, next, nextId, history);
      history := history + [ev];
      assert Contents() == after;
      return Ok(outcome);
    }

    /** `_finalize`: vendor override, normalisation, and one transaction; an event that cannot be normalised raises
        and changes nothing. */
    method Finalize(extracted: Event, pipelineVendor: string) returns (result: Result<Outcome>)
      requires Valid()
      modifies this
      ensures Valid() && raw.Keys == old(raw).Keys
      ensures var prepared := Prepared(extracted, pipelineVendor);
              if prepared.Ok? && extracted.eventId in old(raw) then
                var ev := prepared.value;
                && Contents() == FinalizeTx(old(Contents()), ev, IdOf(old(Projections()), ev, old(nextId)))
                && history == old(history) + [ev]
                && result == Ok(if ev.UnclassifiedEvent? then UnclassifiedRecorded
                                else StepOutcome(old(View(Projections(), Key(ev))), ev))
              else
                result == Raised && Contents() == old(Contents()) && history == old(history)
    {
      var prepared := Prepared(extracted, pipelineVendor);
      if prepared.Raised? {
        return Raised;
      }
      result := FinalizeNormalized(prepared.value);
    }

    /** `_mark_review`. */
    method MarkReview(e: EventId, reason: string) returns (result: Result<()>)
      requires Valid()
      modifies this`reviews, this`raw
      ensures Valid()
      ensures if e in old(raw) then result.Ok? && Contents() == ReviewTx(old(Contents()), e, reason)
              else result.Raised? && Contents() == old(Contents())
    {
      if e !in raw {
        return Raised;
      }
      ReviewTxKeepsDb(Contents(), e, reason);
      if e !in reviews {
        reviews := reviews[e := reason];
      }
      UpdateRaw(e, None, Review);
      return Ok(());
    }

    /** `_mark_pending_llm` and the worker's `_mark_failed`. */
    method MarkUnfinished(e: EventId, status: Status)
      requires Valid() && (status == PendingLlm || status == Failed)
      modifies this`raw
      ensures Valid() && Contents() == SetRaw(old(Contents()), e, None, status)
    {
      SetRawKeepsDb(Contents(), e, status);
      UpdateRaw(e, None, status);
    }

    /** `TRUNCATE TABLE ... CASCADE`. */
    method EmptyTables()
      modifies this`entities, this`applied, this`shipments, this`invoices, this`staleLog, this`canonical, this`reviews
      ensures Contents() == Db(NO_ROWS, map[], raw, map[])
    {
      entities, applied, shipments, invoices, staleLog := map[], map[], map[], map[], [];
      canonical, reviews := map[], map[];
    }

    /** `truncate`: the id sequence keeps its value. */
    method Truncate()
      requires Valid()
      modifies this
      ensures Valid() && Contents() == TruncateTx(old(Contents())) && history == []
      ensures raw.Keys == old(raw).Keys
    {
      TruncateStep(Contents(), nextId);
      EmptyTables();
      raw := Requeued(raw);
      history := [];
    }

    /** `process_event` for an event whose extraction and normalisation give `ev`: an unknown id is reported and
        skipped. */
    method ProcessEvent(ev: Event) returns (found: bool)
      requires Valid()
      modifies this
      ensures Valid() && raw.Keys == old(raw).Keys && found == (ev.eventId in raw)
      ensures history == if found then old(history) + [ev] else old(history)
      ensures !found ==> Contents() == old(Contents())
    {
      if ev.eventId !in raw {
        return false;
      }
      var _ := FinalizeNormalized(ev);
      return true;
    }

    /** The loop of an inline replay: the events of a slice of the log, in order. */
    method ProcessAll(evs: seq<Event>)
      requires Valid() && forall i :: 0 <= i < |evs| ==> evs[i].eventId in raw
      modifies this
      ensures Valid() && history == old(history) + evs
    {
      assert history + evs[..0] == history;
      for i := 0 to |evs|
        invariant Valid() && history == old(history) + evs[..i] && raw.Keys == old(raw).Keys
      {
        assert evs[i].eventId in old(raw).Keys;
        var _ := ProcessEvent(evs[i]);
        assert evs[..i + 1] == evs[..i] + [evs[i]];
      }
      assert evs[..|evs|] == evs;
    }

    /** The inline replay, with or without truncation first. A rebuild from empty tables gives back every entity's
        rows if the slice holds each entity's events in the order in which they were first finalised. */
    method Replay(evs: seq<Event>, truncateProjections: bool)
      requires Valid() && forall i :: 0 <= i < |evs| ==> evs[i].eventId in raw
      modifies this
      ensures Valid()
      ensures history == (if truncateProjections then [] else old(history)) + evs
      ensures truncateProjections && SameOrder(evs, old(history)) ==> SameViews(Projections(), old(Projections()))
    {
      ghost var live, past := Projections(), history;
      if truncateProjections {
        Truncate();
      }
      ProcessAll(evs);
      if truncateProjections {
        assert [] + evs == evs;
        if SameOrder(evs, past) {
          AgreeingDeliveriesAgree(Projections(), evs, live, past);
        }
      }
    }
  }
}
