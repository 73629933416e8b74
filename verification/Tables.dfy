/** The database tables behind the projection engine, and each transaction of the pipeline as one
    atomic change of them. */
module Tables {
  import opened Prelude
  import opened Canonical
  import opened Projection

  /** Primary key of `applied_events`. */
  datatype AppliedKey = AppliedKey(entityId: nat, eventId: EventId)

  datatype StaleRow = StaleRow(entityId: nat, entry: Stale)

  /** The tables that the state machine writes. */
  datatype Tables = Tables(
    entities: map<EntityKey, nat>,
    applied: map<AppliedKey, State>,
    shipments: map<nat, Row>,
    invoices: map<nat, Row>,
    staleLog: seq<StaleRow>)

  const NO_ROWS := Tables(map[], map[], map[], map[], [])

  function Rows(t: Tables, kind: EntityType): map<nat, Row> {
    if kind == ShipmentEntity then t.shipments else t.invoices
  }

  function PutRow(t: Tables, kind: EntityType, id: nat, row: Row): Tables {
    if kind == ShipmentEntity then t.(shipments := t.shipments[id := row])
    else t.(invoices := t.invoices[id := row])
  }

  // ----- Constraints -----

  /** Entities have distinct ids. */
  ghost predicate DistinctIds(t: Tables) {
    forall k, k' :: k in t.entities && k' in t.entities && t.entities[k] == t.entities[k'] ==> k == k'
  }

  /** The rows under an entity's id are of its kind and repeat its names. */
  ghost predicate RowsNamed(t: Tables) {
    forall k :: k in t.entities ==>
      && (t.entities[k] in t.shipments ==> k.entityType == ShipmentEntity && RowOf(t.shipments[t.entities[k]], k))
      && (t.entities[k] in t.invoices ==> k.entityType == InvoiceEntity && RowOf(t.invoices[t.entities[k]], k))
  }

  ghost predicate KeysOk(t: Tables) {
    DistinctIds(t) && RowsNamed(t)
  }

  /** No table mentions the id. */
  ghost predicate NewId(t: Tables, id: nat) {
    && (forall k :: k in t.entities ==> t.entities[k] != id)
    && (forall a :: a in t.applied ==> a.entityId != id)
    && (forall i :: 0 <= i < |t.staleLog| ==> t.staleLog[i].entityId != id)
    && id !in t.shipments && id !in t.invoices
  }

  /** The sequence behind `entities.id` has passed every id in use. */
  ghost predicate IdsBelow(t: Tables, next: nat) {
    && (forall k :: k in t.entities ==> t.entities[k] < next)
    && (forall a :: a in t.applied ==> a.entityId < next)
    && (forall i :: 0 <= i < |t.staleLog| ==> t.staleLog[i].entityId < next)
    && (forall id :: id in t.shipments ==> id < next)
    && (forall id :: id in t.invoices ==> id < next)
  }

  lemma NextIdIsNew(t: Tables, next: nat)
    requires IdsBelow(t, next)
    ensures NewId(t, next)
  {
  }

  predicate OwnedBy(entities: map<EntityKey, nat>, id: nat, k: EntityKey) {
    k in entities && entities[k] == id
  }

  ghost predicate Owned(entities: map<EntityKey, nat>, id: nat) {
    exists k :: OwnedBy(entities, id, k)
  }

  /** Foreign keys into `entities`. */
  ghost predicate ForeignKeysOk(t: Tables) {
    && (forall a :: a in t.applied ==> Owned(t.entities, a.entityId))
    && (forall i :: 0 <= i < |t.staleLog| ==> Owned(t.entities, t.staleLog[i].entityId))
    && (forall id :: id in t.shipments ==> Owned(t.entities, id))
    && (forall id :: id in t.invoices ==> Owned(t.entities, id))
  }

  /** The second unique key, on vendor and external id, can never be the one that an insert violates:
      rows of one table with equal names are the same row. */
  lemma VendorAndExternalIdAreUnique(t: Tables, kind: EntityType, id: nat, id': nat)
    requires KeysOk(t) && ForeignKeysOk(t)
    requires id in Rows(t, kind) && id' in Rows(t, kind)
    requires Rows(t, kind)[id].vendorId == Rows(t, kind)[id'].vendorId
    requires Rows(t, kind)[id].externalId == Rows(t, kind)[id'].externalId
    ensures id == id'
  {
    assert Owned(t.entities, id) && Owned(t.entities, id');
    var k :| OwnedBy(t.entities, id, k);
    var k' :| OwnedBy(t.entities, id', k');
    assert k == k';
  }

  // ----- One entity's share of the tables -----

  function AppliedIds(applied: map<AppliedKey, State>, id: nat): (r: set<EventId>)
    ensures forall e :: e in r <==> AppliedKey(id, e) in applied
  {
    set a | a in applied && a.entityId == id :: a.eventId
  }

  function AppliedTo(applied: map<AppliedKey, State>, id: nat): map<EventId, State> {
    map e | e in AppliedIds(applied, id) :: applied[AppliedKey(id, e)]
  }

  function StaleOf(log: seq<StaleRow>, id: nat): seq<Stale> {
    if log == [] then []
    else StaleOf(log[..|log| - 1], id)
         + if log[|log| - 1].entityId == id then [log[|log| - 1].entry] else []
  }

  function RowAt(rows: map<nat, Row>, id: nat): Option<Row> {
    if id in rows then Some(rows[id]) else None
  }

  /** Everything the tables hold about the entity `k`, under its external key and without its id. */
  function View(t: Tables, k: EntityKey): Ledger {
    if k !in t.entities then EMPTY
    else
      var id := t.entities[k];
      Ledger(AppliedTo(t.applied, id), RowAt(Rows(t, k.entityType), id), StaleOf(t.staleLog, id))
  }

  // ----- The state machine's transaction -----

  /** `_get_or_create_entity`, given the id that the sequence hands out next. */
  function EntityId(t: Tables, k: EntityKey, newId: nat): nat {
    if k in t.entities then t.entities[k] else newId
  }

  /** The id that the engine uses for `k` is the stored one or a new one. */
  ghost predicate IdFor(t: Tables, k: EntityKey, id: nat) {
    if k in t.entities then t.entities[k] == id else NewId(t, id)
  }

  /** The entity row and the `applied_events` row. */
  function Record(t: Tables, k: EntityKey, id: nat, e: EventId, target: State): Tables {
    t.(entities := t.entities[k := id], applied := t.applied[AppliedKey(id, e) := target])
  }

  function LogStale(t: Tables, id: nat, entry: Stale): Tables {
    t.(staleLog := t.staleLog + [StaleRow(id, entry)])
  }

  /** From the insert of the projection row to the end of the transaction. */
  function Project(t: Tables, id: nat, ev: EntityEvent): Tables {
    var kind := Key(ev).entityType;
    if id !in Rows(t, kind) then PutRow(t, kind, id, InitialRow(ev))
    else
      var row := Rows(t, kind)[id];
      if Decide(row, ev) == Applied then PutRow(t, kind, id, UpdatedRow(row, ev))
      else LogStale(t, id, StaleEntry(row, ev))
  }

  /** `_apply_shipment` and `_apply_invoice` run to completion, on the entity's id. */
  function ApplyTx(t: Tables, ev: EntityEvent, id: nat): Tables {
    if AppliedKey(id, ev.eventId) in t.applied then t
    else Project(Record(t, Key(ev), id, ev.eventId, Target(ev)), id, ev)
  }

  // ----- What it does to each entity -----

  lemma StaleOfFresh(log: seq<StaleRow>, id: nat)
    requires forall i :: 0 <= i < |log| ==> log[i].entityId != id
    ensures StaleOf(log, id) == []
  {
  }

  lemma StaleOfSnoc(log: seq<StaleRow>, row: StaleRow, id: nat)
    ensures StaleOf(log + [row], id) == StaleOf(log, id) + if row.entityId == id then [row.entry] else []
  {
    assert (log + [row])[..|log|] == log;
  }

  lemma ViewIsLedger(t: Tables, k: EntityKey)
    requires KeysOk(t)
    ensures LedgerOf(View(t, k), k)
  {
  }

  lemma RecordKeeps(t: Tables, k: EntityKey, id: nat, e: EventId, target: State)
    requires KeysOk(t) && IdFor(t, k, id)
    ensures KeysOk(Record(t, k, id, e, target))
  {
  }

  lemma AppliedToUpdated(applied: map<AppliedKey, State>, id: nat, e: EventId, target: State)
    ensures AppliedTo(applied[AppliedKey(id, e) := target], id) == AppliedTo(applied, id)[e := target]
  {
    var after := applied[AppliedKey(id, e) := target];
    assert forall e' :: AppliedKey(id, e') in after <==> AppliedKey(id, e') in applied || e' == e;
    assert AppliedIds(after, id) == AppliedIds(applied, id) + {e};
  }

  lemma AppliedToOther(applied: map<AppliedKey, State>, id: nat, e: EventId, target: State, other: nat)
    requires other != id
    ensures AppliedTo(applied[AppliedKey(id, e) := target], other) == AppliedTo(applied, other)
  {
    assert AppliedIds(applied[AppliedKey(id, e) := target], other) == AppliedIds(applied, other);
  }

  lemma AppliedToFresh(applied: map<AppliedKey, State>, id: nat)
    requires forall a :: a in applied ==> a.entityId != id
    ensures AppliedTo(applied, id) == map[]
  {
    assert forall e :: AppliedKey(id, e).entityId == id;
    assert AppliedIds(applied, id) == {};
  }

  lemma RecordViewsOwn(t: Tables, k: EntityKey, id: nat, e: EventId, target: State)
    requires IdFor(t, k, id)
    ensures View(Record(t, k, id, e, target), k) == View(t, k).(applied := View(t, k).applied[e := target])
  {
    AppliedToUpdated(t.applied, id, e, target);
    if k !in t.entities {
      StaleOfFresh(t.staleLog, id);
      AppliedToFresh(t.applied, id);
    }
  }

  lemma RecordViewsOther(t: Tables, k: EntityKey, id: nat, e: EventId, target: State, other: EntityKey)
    requires KeysOk(t) && IdFor(t, k, id) && other != k
    ensures View(Record(t, k, id, e, target), other) == View(t, other)
  {
    if other in t.entities {
      assert t.entities[other] != id;
      AppliedToOther(t.applied, id, e, target, t.entities[other]);
    }
  }

  lemma RecordViews(t: Tables, k: EntityKey, id: nat, e: EventId, target: State, other: EntityKey)
    requires KeysOk(t) && IdFor(t, k, id)
    ensures View(Record(t, k, id, e, target), other) ==
            if other == k then View(t, k).(applied := View(t, k).applied[e := target]) else View(t, other)
  {
    if other == k {
      RecordViewsOwn(t, k, id, e, target);
    } else {
      RecordViewsOther(t, k, id, e, target, other);
    }
  }

  lemma PutRowKeeps(t: Tables, k: EntityKey, row: Row)
    requires KeysOk(t) && k in t.entities && RowOf(row, k)
    ensures KeysOk(PutRow(t, k.entityType, t.entities[k], row))
  {
  }

  lemma PutRowViews(t: Tables, k: EntityKey, row: Row, other: EntityKey)
    requires KeysOk(t) && k in t.entities && RowOf(row, k)
    ensures View(PutRow(t, k.entityType, t.entities[k], row), other) ==
            if other == k then View(t, k).(row := Some(row)) else View(t, other)
  {
  }

  lemma LogStaleKeeps(t: Tables, k: EntityKey, entry: Stale)
    requires KeysOk(t) && k in t.entities
    ensures KeysOk(LogStale(t, t.entities[k], entry))
  {
  }

  lemma LogStaleViews(t: Tables, k: EntityKey, entry: Stale, other: EntityKey)
    requires KeysOk(t) && k in t.entities
    ensures View(LogStale(t, t.entities[k], entry), other) ==
            if other == k then View(t, k).(stale := View(t, k).stale + [entry]) else View(t, other)
  {
    if other in t.entities {
      StaleOfSnoc(t.staleLog, StaleRow(t.entities[k], entry), t.entities[other]);
    }
  }

  lemma ProjectKeeps(t: Tables, ev: EntityEvent, other: EntityKey)
    requires KeysOk(t) && Key(ev) in t.entities
    ensures KeysOk(Project(t, t.entities[Key(ev)], ev))
    ensures View(Project(t, t.entities[Key(ev)], ev), other) ==
            if other != Key(ev) then View(t, other)
            else
              var l := View(t, other);
              if l.row.None? then l.(row := Some(InitialRow(ev)))
              else if Decide(l.row.value, ev) == Applied then l.(row := Some(UpdatedRow(l.row.value, ev)))
              else l.(stale := l.stale + [StaleEntry(l.row.value, ev)])
  {
    var k := Key(ev);
    var id := t.entities[k];
    if id !in Rows(t, k.entityType) {
      PutRowKeeps(t, k, InitialRow(ev));
      PutRowViews(t, k, InitialRow(ev), other);
    } else {
      var row := Rows(t, k.entityType)[id];
      if Decide(row, ev) == Applied {
        PutRowKeeps(t, k, UpdatedRow(row, ev));
        PutRowViews(t, k, UpdatedRow(row, ev), other);
      } else {
        LogStaleKeeps(t, k, StaleEntry(row, ev));
        LogStaleViews(t, k, StaleEntry(row, ev), other);
      }
    }
  }

  /** The event's own entity takes one step and every other entity is untouched. */
  lemma ApplyTxViews(t: Tables, ev: EntityEvent, id: nat, other: EntityKey)
    requires KeysOk(t) && IdFor(t, Key(ev), id)
    ensures KeysOk(ApplyTx(t, ev, id))
    ensures LedgerOf(View(t, other), other)
    ensures View(ApplyTx(t, ev, id), other) ==
            if other == Key(ev) then Step(View(t, other), ev) else View(t, other)
  {
    var k := Key(ev);
    ViewIsLedger(t, other);
    if AppliedKey(id, ev.eventId) !in t.applied {
      RecordKeeps(t, k, id, ev.eventId, Target(ev));
      RecordViews(t, k, id, ev.eventId, Target(ev), other);
      ProjectKeeps(Record(t, k, id, ev.eventId, Target(ev)), ev, other);
    }
  }

  /** Entity ids and `applied_events` rows are never lost, and the event's own pair is recorded. */
  lemma ApplyTxGrows(t: Tables, ev: EntityEvent, id: nat)
    requires KeysOk(t) && IdFor(t, Key(ev), id)
    ensures var t', k := ApplyTx(t, ev, id), Key(ev);
            && (forall k' :: k' in t.entities ==> k' in t'.entities && t'.entities[k'] == t.entities[k'])
            && k in t'.entities && t'.entities[k] == id
            && (forall a :: a in t'.applied <==> a in t.applied || a == AppliedKey(id, ev.eventId))
  {
    if AppliedKey(id, ev.eventId) in t.applied {
      assert AppliedKey(id, ev.eventId).entityId == id;
    } else {
      var recorded := Record(t, Key(ev), id, ev.eventId, Target(ev));
      var t' := Project(recorded, id, ev);
      assert t'.entities == recorded.entities && t'.applied == recorded.applied;
    }
  }

  /** The id sequence stays ahead of the tables. */
  lemma ApplyTxKeepsIdsBelow(t: Tables, ev: EntityEvent, id: nat, next: nat)
    requires KeysOk(t) && IdFor(t, Key(ev), id) && IdsBelow(t, next) && id < next
    ensures IdsBelow(ApplyTx(t, ev, id), next)
  {
    if AppliedKey(id, ev.eventId) !in t.applied {
      assert IdsBelow(Record(t, Key(ev), id, ev.eventId, Target(ev)), next);
    }
  }

  lemma OwnedGrows(entities: map<EntityKey, nat>, k: EntityKey, id: nat)
    requires k in entities ==> entities[k] == id
    ensures Owned(entities[k := id], id)
    ensures forall other :: Owned(entities, other) ==> Owned(entities[k := id], other)
  {
    assert OwnedBy(entities[k := id], id, k);
    forall other | Owned(entities, other)
      ensures Owned(entities[k := id], other)
    {
      var k' :| OwnedBy(entities, other, k');
      assert OwnedBy(entities[k := id], other, k');
    }
  }

  lemma RecordKeepsForeignKeys(t: Tables, k: EntityKey, id: nat, e: EventId, target: State)
    requires ForeignKeysOk(t) && IdFor(t, k, id)
    ensures ForeignKeysOk(Record(t, k, id, e, target))
  {
    OwnedGrows(t.entities, k, id);
  }

  lemma ApplyTxKeepsForeignKeys(t: Tables, ev: EntityEvent, id: nat)
    requires KeysOk(t) && IdFor(t, Key(ev), id) && ForeignKeysOk(t)
    ensures ForeignKeysOk(ApplyTx(t, ev, id))
  {
    if AppliedKey(id, ev.eventId) !in t.applied {
      var k := Key(ev);
      RecordKeepsForeignKeys(t, k, id, ev.eventId, Target(ev));
      RecordKeeps(t, k, id, ev.eventId, Target(ev));
      ProjectKeepsForeignKeys(Record(t, k, id, ev.eventId, Target(ev)), ev);
    }
  }

  lemma ProjectKeepsForeignKeys(t: Tables, ev: EntityEvent)
    requires KeysOk(t) && Key(ev) in t.entities && ForeignKeysOk(t)
    ensures ForeignKeysOk(Project(t, t.entities[Key(ev)], ev))
  {
    assert OwnedBy(t.entities, t.entities[Key(ev)], Key(ev));
  }
}
