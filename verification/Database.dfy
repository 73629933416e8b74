/** The whole database of the pipeline: the state machine's tables together with the canonical events,
    the raw event log and the review queue, and the transactions that touch them. */
module Database {
  import opened Prelude
  import opened Canonical
  import opened Projection
  import opened Runs
  import opened Tables
  import opened Convergence

  datatype Status = Queued | PendingLlm | Processed | Review | Failed

  datatype RawEvent = RawEvent(vendorId: Option<string>, status: Status)

  datatype Db = Db(tables: Tables, canonical: map<EventId, Event>, raw: map<EventId, RawEvent>,
                   reviews: map<EventId, string>)

  // ----- Invariants -----

  /** A shipment or invoice row of `canonical_events` has been applied to the entity it names. */
  ghost predicate CanonicalOk(db: Db) {
    forall e :: e in db.canonical ==>
      && e in db.raw
      && db.canonical[e].eventId == e
      && (!db.canonical[e].UnclassifiedEvent? ==>
            && Key(db.canonical[e]) in db.tables.entities
            && AppliedKey(db.tables.entities[Key(db.canonical[e])], e) in db.tables.applied)
  }

  /** A processed event has its canonical row, an event in review its review row. */
  ghost predicate StatusOk(db: Db) {
    forall e :: e in db.raw ==>
      && (db.raw[e].status == Processed ==> e in db.canonical)
      && (db.raw[e].status == Review ==> e in db.reviews)
  }

  ghost predicate DbOk(db: Db) {
    KeysOk(db.tables) && ForeignKeysOk(db.tables) && CanonicalOk(db) && StatusOk(db)
  }

  // ----- Transactions -----

  function SetRaw(db: Db, e: EventId, vendorId: Option<string>, status: Status): Db {
    if e in db.raw then
      db.(raw := db.raw[e := RawEvent(Coalesce(db.raw[e].vendorId, vendorId), status)])
    else db
  }

  ghost predicate IdOk(db: Db, ev: Event, id: nat) {
    !ev.UnclassifiedEvent? ==> IdFor(db.tables, Key(ev), id)
  }

  /** The transaction of `_finalize`. */
  function FinalizeTx(db: Db, ev: Event, id: nat): Db {
    var tables := if ev.UnclassifiedEvent? then db.tables else ApplyTx(db.tables, ev, id);
    SetRaw(db.(tables := tables, canonical := db.canonical[ev.eventId := ev]), ev.eventId, Some(ev.vendorId), Processed)
  }

  /** The transaction of `_mark_review`. */
  function ReviewTx(db: Db, e: EventId, reason: string): Db {
    SetRaw(db.(reviews := if e in db.reviews then db.reviews else db.reviews[e := reason]), e, None, Review)
  }

  /** `UPDATE raw_events SET processing_status = 'queued'`. */
  function Requeued(raw: map<EventId, RawEvent>): map<EventId, RawEvent> {
    map e | e in raw :: raw[e].(status := Queued)
  }

  /** `truncate`. */
  function TruncateTx(db: Db): Db {
    Db(NO_ROWS, map[], Requeued(db.raw), map[])
  }

  lemma FinalizeTxKeepsCanonical(db: Db, ev: Event, id: nat)
    requires KeysOk(db.tables) && CanonicalOk(db) && IdOk(db, ev, id) && ev.eventId in db.raw
    ensures CanonicalOk(FinalizeTx(db, ev, id))
  {
    if !ev.UnclassifiedEvent? {
      ApplyTxGrows(db.tables, ev, id);
    }
  }

  lemma FinalizeTxKeepsStatus(db: Db, ev: Event, id: nat)
    requires StatusOk(db)
    ensures StatusOk(FinalizeTx(db, ev, id))
  {
  }

  /** Processing an event keeps every invariant of the database. */
  lemma FinalizeTxKeepsDb(db: Db, ev: Event, id: nat)
    requires DbOk(db) && IdOk(db, ev, id) && ev.eventId in db.raw
    ensures DbOk(FinalizeTx(db, ev, id))
  {
    FinalizeTxKeepsCanonical(db, ev, id);
    FinalizeTxKeepsStatus(db, ev, id);
    if !ev.UnclassifiedEvent? {
      ApplyTxViews(db.tables, ev, id, Key(ev));
      ApplyTxKeepsForeignKeys(db.tables, ev, id);
    }
  }

  lemma ReviewTxKeepsDb(db: Db, e: EventId, reason: string)
    requires DbOk(db) && e in db.raw
    ensures DbOk(ReviewTx(db, e, reason))
  {
  }

  /** A status other than `processed` and `review` may be written at any time. */
  lemma SetRawKeepsDb(db: Db, e: EventId, status: Status)
    requires DbOk(db) && status != Processed && status != Review
    ensures DbOk(SetRaw(db, e, None, status))
  {
  }

  /** The log of received events keeps its vendors: finalising fills in one that was missing, and nothing else touches
      any. Only the status of the event itself changes. */
  lemma RawLogIsKept(db: Db, ev: Event, id: nat, reason: string, e: EventId)
    requires e in db.raw
    ensures var done := FinalizeTx(db, ev, id).raw;
            && e in done
            && done[e].vendorId == (if e == ev.eventId && db.raw[e].vendorId.None? then Some(ev.vendorId)
                                    else db.raw[e].vendorId)
            && done[e].status == if e == ev.eventId then Processed else db.raw[e].status
    ensures var handed := ReviewTx(db, ev.eventId, reason).raw;
            && e in handed && handed[e].vendorId == db.raw[e].vendorId
            && handed[e].status == if e == ev.eventId then Review else db.raw[e].status
    ensures var queued := TruncateTx(db).raw;
            e in queued && queued[e].vendorId == db.raw[e].vendorId && queued[e].status == Queued
  {
  }

  /** A person is given the reason that came first. */
  lemma FirstReasonStays(db: Db, e: EventId, reason: string, e': EventId)
    ensures var after := ReviewTx(db, e, reason).reviews;
            && (e' in after <==> e' in db.reviews || e' == e)
            && (e' in after ==> after[e'] == if e' in db.reviews then db.reviews[e'] else reason)
  {
  }

  lemma TruncateTxKeepsDb(db: Db)
    ensures DbOk(TruncateTx(db))
    ensures forall k :: View(TruncateTx(db).tables, k) == EMPTY
  {
  }

  /** Seen from outside, processing an event is one step of the entity it names and nothing else. */
  lemma FinalizeTxViews(db: Db, ev: Event, id: nat, k: EntityKey)
    requires KeysOk(db.tables) && IdOk(db, ev, id)
    ensures LedgerOf(View(db.tables, k), k)
    ensures View(FinalizeTx(db, ev, id).tables, k) ==
            if !ev.UnclassifiedEvent? && Key(ev) == k then Step(View(db.tables, k), ev) else View(db.tables, k)
  {
    ViewIsLedger(db.tables, k);
    if !ev.UnclassifiedEvent? {
      ApplyTxViews(db.tables, ev, id, k);
    }
  }

  // ----- Histories of many entities -----

  /** The part of a delivery that concerns one entity. */
  function Select(evs: seq<Event>, k: EntityKey): (own: seq<EntityEvent>)
    ensures For(own, k)
  {
    if evs == [] then []
    else if !Last(evs).UnclassifiedEvent? && Key(Last(evs)) == k then Select(Front(evs), k) + [Last(evs)]
    else Select(Front(evs), k)
  }

  lemma SelectSnoc(evs: seq<Event>, ev: Event, k: EntityKey)
    ensures Select(evs + [ev], k) ==
            if !ev.UnclassifiedEvent? && Key(ev) == k then Select(evs, k) + [ev] else Select(evs, k)
  {
    assert Front(evs + [ev]) == evs;
  }

  /** The tables show, for every entity, the run of that entity's own events. */
  ghost predicate Shows(t: Tables, history: seq<Event>) {
    forall k :: View(t, k) == Run(k, Select(history, k))
  }

  /** Truncation forgets the history. */
  lemma TruncateTxShows(db: Db, next: nat)
    ensures DbOk(TruncateTx(db)) && IdsBelow(TruncateTx(db).tables, next) && Shows(TruncateTx(db).tables, [])
  {
    TruncateTxKeepsDb(db);
  }

  lemma FinalizeTxShows(db: Db, ev: Event, id: nat, history: seq<Event>)
    requires KeysOk(db.tables) && IdOk(db, ev, id) && Shows(db.tables, history)
    ensures Shows(FinalizeTx(db, ev, id).tables, history + [ev])
  {
    forall k
      ensures View(FinalizeTx(db, ev, id).tables, k) == Run(k, Select(history + [ev], k))
    {
      FinalizeTxViews(db, ev, id, k);
      SelectSnoc(history, ev, k);
      if !ev.UnclassifiedEvent? && Key(ev) == k {
        RunSnoc(k, Select(history, k), ev);
      }
    }
  }

  /** Each entity's events, repeats aside, come in the same order. */
  ghost predicate SameOrder(history: seq<Event>, history': seq<Event>) {
    forall k :: Firsts(Select(history, k)) == Firsts(Select(history', k))
  }

  ghost predicate SameViews(t: Tables, t': Tables) {
    forall k :: View(t, k) == View(t', k)
  }

  /** Two deliveries that agree on every entity, up to repeats, leave the same projections, whatever
      their interleaving across entities. */
  lemma AgreeingDeliveriesAgree(t: Tables, history: seq<Event>, t': Tables, history': seq<Event>)
    requires Shows(t, history) && Shows(t', history')
    requires SameOrder(history, history')
    ensures SameViews(t, t')
  {
    forall k
      ensures View(t, k) == View(t', k)
    {
      OnlyFirstsMatter(k, Select(history, k));
      OnlyFirstsMatter(k, Select(history', k));
    }
  }

  /** A delivery and a cancellation of one shipment, at one instant. */
  function Delivery(key: EntityKey): EntityEvent
    requires key.entityType == ShipmentEntity
  {
    EventFor(key, "delivery", OfShipment(Delivered))
  }

  function Cancellation(key: EntityKey): EntityEvent
    requires key.entityType == ShipmentEntity
  {
    EventFor(key, "cancellation", OfShipment(Cancelled))
  }

  lemma TwoOrdersDiffer(key: EntityKey, a: EntityEvent, b: EntityEvent)
    requires Key(a) == key && Key(b) == key && a.eventId != b.eventId && a.ts == b.ts
    requires !Accepts(Target(a), Target(b)) && !Accepts(Target(b), Target(a))
    ensures var first, second := Run(key, Select([a, b], key)).row, Run(key, Select([b, a], key)).row;
            && first.Some? && first.value.state == Target(a)
            && second.Some? && second.value.state == Target(b)
  {
    SelectOfTwo(a, b, key);
    SelectOfTwo(b, a, key);
    TwoEventRun(key, a, b);
    TwoEventRun(key, b, a);
  }

  /** Where the log holds an entity's events in another order than that of their commits, a rebuild may not give
      the live projection back: two events, committed in one order and replayed in the other. */
  lemma LogOrderMatters(key: EntityKey, live: Tables, rebuilt: Tables)
    requires key.entityType == ShipmentEntity
    requires Shows(live, [Delivery(key), Cancellation(key)]) && Shows(rebuilt, [Cancellation(key), Delivery(key)])
    ensures View(live, key).row.Some? && View(live, key).row.value.state == OfShipment(Delivered)
    ensures View(rebuilt, key).row.Some? && View(rebuilt, key).row.value.state == OfShipment(Cancelled)
  {
    TwoOrdersDiffer(key, Delivery(key), Cancellation(key));
  }

  lemma SelectOfTwo(a: EntityEvent, b: EntityEvent, k: EntityKey)
    requires Key(a) == k && Key(b) == k
    ensures Select([a, b], k) == [a, b]
  {
    assert [] + [a] == [a] && [a] + [b] == [a, b];
    SelectSnoc([], a, k);
    SelectSnoc([a], b, k);
  }

  /** And both orders happen: from empty tables, finalising in either order gives the tables above. */
  lemma BothOrdersHappen(db: Db, key: EntityKey, id: nat)
    requires key.entityType == ShipmentEntity && db.tables == NO_ROWS
    requires Delivery(key).eventId in db.raw && Cancellation(key).eventId in db.raw
    ensures Shows(FinalizeTx(FinalizeTx(db, Delivery(key), id), Cancellation(key), id).tables,
                  [Delivery(key), Cancellation(key)])
    ensures Shows(FinalizeTx(FinalizeTx(db, Cancellation(key), id), Delivery(key), id).tables,
                  [Cancellation(key), Delivery(key)])
  {
    TwoFinalizedShow(db, Delivery(key), Cancellation(key), id);
    TwoFinalizedShow(db, Cancellation(key), Delivery(key), id);
  }

  lemma TwoFinalizedShow(db: Db, a: EntityEvent, b: EntityEvent, id: nat)
    requires db.tables == NO_ROWS && Key(a) == Key(b)
    ensures Shows(FinalizeTx(FinalizeTx(db, a, id), b, id).tables, [a, b])
  {
    OneFinalizedShows(db, a, id);
    FinalizeTxShows(FinalizeTx(db, a, id), b, id, [a]);
    assert [a] + [b] == [a, b];
  }

  lemma OneFinalizedShows(db: Db, a: EntityEvent, id: nat)
    requires db.tables == NO_ROWS
    ensures var db' := FinalizeTx(db, a, id);
            KeysOk(db'.tables) && IdFor(db'.tables, Key(a), id) && Shows(db'.tables, [a])
  {
    TruncateTxShows(db, 0);
    ApplyTxViews(db.tables, a, id, Key(a));
    ApplyTxGrows(db.tables, a, id);
    FinalizeTxShows(db, a, id, []);
    assert [] + [a] == [a];
  }

  /** Redelivering recorded (entity, event) pairs changes no projection, applied or stale-log row. */
  lemma RedeliveryIsNoOp(t: Tables, history: seq<Event>, t': Tables, again: seq<Event>)
    requires Shows(t, history) && Shows(t', history + again)
    requires forall k :: Ids(Select(again, k)) <= Ids(Select(history, k))
    ensures SameViews(t, t')
  {
    forall k
      ensures View(t, k) == View(t', k)
    {
      SelectAppend(history, again, k);
      ReprocessingIsNoOp(k, Select(history, k), Select(again, k));
    }
  }

  lemma {:induction false} SelectAppend(a: seq<Event>, b: seq<Event>, k: EntityKey)
    ensures Select(a + b, k) == Select(a, k) + Select(b, k)
  {
    if b == [] {
      assert a + b == a;
    } else {
      SelectAppend(a, Front(b), k);
      assert a + b == a + Front(b) + [Last(b)];
      SelectSnoc(a + Front(b), Last(b), k);
    }
  }
}
