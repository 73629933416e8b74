/** The same transactions as concurrent workers run them: one SQL statement at a time, interleaved, each
    statement reading what is committed, every lock held to the end of its transaction, and an abort
    possible at any point. */
module Transactions {
  import opened Prelude
  import opened Canonical
  import opened Projection
  import opened Runs
  import opened Tables
  import opened Database

  type Worker = int

  datatype Job =
    | Finalize(ev: Event)
    | MarkReview(event: EventId, reason: string)
    | MarkUnfinished(event: EventId, status: Status)

  function EventOf(job: Job): EventId {
    if job.Finalize? then job.ev.eventId else job.event
  }

  /** What a transaction has written so far, invisible to others until it commits; `own` marks an entity
      row that it inserted itself. */
  datatype Effect =
    | Nothing
    | AlreadyRecorded(id: nat, own: bool)
    | RowInserted(id: nat, own: bool, row: Row)
    | RowUpdated(id: nat, own: bool, read: Row, row: Row)
    | UpdateMissed(id: nat, own: bool, read: Row)
    | StaleLogged(id: nat, own: bool, read: Row, entry: Stale)
    | ReviewUpserted(inserted: bool)

  /** The program counter: the statement that a worker runs next, with what earlier statements returned. */
  datatype Phase =
    | AtUpsertCanonical
    | AtSelectEntity
    | AtInsertEntity
    | AtReselectEntity
    | AtInsertApplied(id: nat, own: bool)
    | AtInsertRow(id: nat, own: bool)
    | AtSelectForUpdate(id: nat, own: bool)
    | AtDecide(id: nat, own: bool, read: Row)
    | AtInsertReview
    | AtUpdateRaw(effect: Effect)
    | AtCommit(effect: Effect, raw: RawEvent)

  datatype Tx = Tx(job: Job, phase: Phase)

  datatype Lock =
    | CanonicalLock(event: EventId)
    | ReviewLock(event: EventId)
    | SequenceLock(id: nat)
    | EntityLock(key: EntityKey)
    | AppliedLock(applied: AppliedKey)
    | RowLock(kind: EntityType, id: nat)
    | RawLock(event: EventId)

  predicate OnEntity(job: Job) {
    job.Finalize? && !job.ev.UnclassifiedEvent?
  }

  function KeyOf(job: Job): EntityKey
    requires OnEntity(job)
  {
    Key(job.ev)
  }

  // ----- Locks -----

  function IdLocks(job: Job, id: nat, own: bool): set<Lock> {
    if OnEntity(job) && own then {EntityLock(KeyOf(job)), SequenceLock(id)} else {}
  }

  function RecordLocks(job: Job, id: nat, own: bool): set<Lock> {
    if OnEntity(job) then IdLocks(job, id, own) + {AppliedLock(AppliedKey(id, EventOf(job)))} else {}
  }

  function RowLocks(job: Job, id: nat, own: bool): set<Lock> {
    if OnEntity(job) then RecordLocks(job, id, own) + {RowLock(KeyOf(job).entityType, id)} else {}
  }

  function EffectLocks(job: Job, effect: Effect): set<Lock> {
    match effect
    case Nothing => {}
    case AlreadyRecorded(id, own) => IdLocks(job, id, own)
    case RowInserted(id, own, _) => RowLocks(job, id, own)
    case RowUpdated(id, own, _, _) => RowLocks(job, id, own)
    case UpdateMissed(id, own, _) => RowLocks(job, id, own)
    case StaleLogged(id, own, _, _) => RowLocks(job, id, own)
    case ReviewUpserted(inserted) => if inserted then {ReviewLock(EventOf(job))} else {}
  }

  function PhaseLocks(tx: Tx): set<Lock> {
    match tx.phase
    case AtInsertApplied(id, own) => IdLocks(tx.job, id, own)
    case AtInsertRow(id, own) => RecordLocks(tx.job, id, own)
    case AtSelectForUpdate(id, own) => RecordLocks(tx.job, id, own)
    case AtDecide(id, own, _) => RowLocks(tx.job, id, own)
    case AtUpdateRaw(effect) => EffectLocks(tx.job, effect)
    case AtCommit(effect, _) => EffectLocks(tx.job, effect) + {RawLock(EventOf(tx.job))}
    case _ => {}
  }

  /** Everything the transaction holds. */
  function Locks(tx: Tx): set<Lock> {
    PhaseLocks(tx)
    + if tx.job.Finalize? && tx.phase != AtUpsertCanonical then {CanonicalLock(EventOf(tx.job))} else {}
  }

  /** The lock that the next statement waits for. `ON CONFLICT DO NOTHING` waits only where no committed
      row is in the way. */
  function Wants(db: Db, tx: Tx): Option<Lock> {
    match tx.phase
    case AtUpsertCanonical => Some(CanonicalLock(EventOf(tx.job)))
    case AtInsertEntity =>
      if OnEntity(tx.job) && KeyOf(tx.job) !in db.tables.entities then Some(EntityLock(KeyOf(tx.job))) else None
    case AtInsertApplied(id, _) =>
      var a := AppliedKey(id, EventOf(tx.job));
      if a !in db.tables.applied then Some(AppliedLock(a)) else None
    case AtInsertRow(id, _) =>
      if OnEntity(tx.job) && id !in Rows(db.tables, KeyOf(tx.job).entityType)
      then Some(RowLock(KeyOf(tx.job).entityType, id)) else None
    case AtSelectForUpdate(id, _) =>
      if OnEntity(tx.job) then Some(RowLock(KeyOf(tx.job).entityType, id)) else None
    case AtInsertReview =>
      if EventOf(tx.job) !in db.reviews then Some(ReviewLock(EventOf(tx.job))) else None
    case AtUpdateRaw(_) => Some(RawLock(EventOf(tx.job)))
    case _ => None
  }

  // ----- Statements -----

  function FirstPhase(job: Job): Phase {
    match job
    case Finalize(_) => AtUpsertCanonical
    case MarkReview(_, _) => AtInsertReview
    case MarkUnfinished(_, _) => AtUpdateRaw(Nothing)
  }

  /** The rows that `UPDATE ... WHERE entity_id = id AND version = version` hits. */
  function Hits(rows: map<nat, Row>, id: nat, version: int): set<nat> {
    set i | i in rows && i == id && rows[i].version == version
  }

  /** The decision on the row that was read, and the statement that carries it out on the row that is there. */
  function Write(db: Db, ev: EntityEvent, id: nat, own: bool, read: Row): Effect {
    if Decide(read, ev) != Applied then StaleLogged(id, own, read, StaleEntry(read, ev))
    else if id in Hits(Rows(db.tables, Key(ev).entityType), id, read.version) then
      RowUpdated(id, own, read, UpdatedRow(Rows(db.tables, Key(ev).entityType)[id], ev))
    else UpdateMissed(id, own, read)
  }

  function RawWrite(raw: RawEvent, job: Job): RawEvent {
    match job
    case Finalize(ev) => RawEvent(Coalesce(raw.vendorId, Some(ev.vendorId)), Processed)
    case MarkReview(_, _) => raw.(status := Review)
    case MarkUnfinished(_, status) => raw.(status := status)
  }

  /** One statement, given that it need not wait; `next` is the id sequence. */
  function Advance(db: Db, next: nat, tx: Tx): Phase
    requires EventOf(tx.job) in db.raw
    requires !tx.phase.AtCommit?
  {
    match tx.phase
    case AtUpsertCanonical => if OnEntity(tx.job) then AtSelectEntity else AtUpdateRaw(Nothing)
    case AtSelectEntity =>
      if OnEntity(tx.job) && KeyOf(tx.job) in db.tables.entities
      then AtInsertApplied(db.tables.entities[KeyOf(tx.job)], false) else AtInsertEntity
    case AtInsertEntity =>
      if OnEntity(tx.job) && KeyOf(tx.job) in db.tables.entities then AtReselectEntity else AtInsertApplied(next, true)
    case AtReselectEntity =>
      if OnEntity(tx.job) && KeyOf(tx.job) in db.tables.entities
      then AtInsertApplied(db.tables.entities[KeyOf(tx.job)], false) else tx.phase
    case AtInsertApplied(id, own) =>
      if AppliedKey(id, EventOf(tx.job)) in db.tables.applied then AtUpdateRaw(AlreadyRecorded(id, own))
      else AtInsertRow(id, own)
    case AtInsertRow(id, own) =>
      if !OnEntity(tx.job) then AtUpdateRaw(Nothing)
      else if id in Rows(db.tables, KeyOf(tx.job).entityType) then AtSelectForUpdate(id, own)
      else AtUpdateRaw(RowInserted(id, own, InitialRow(tx.job.ev)))
    case AtSelectForUpdate(id, own) =>
      if OnEntity(tx.job) && id in Rows(db.tables, KeyOf(tx.job).entityType)
      then AtDecide(id, own, Rows(db.tables, KeyOf(tx.job).entityType)[id]) else tx.phase
    case AtDecide(id, own, read) =>
      if OnEntity(tx.job) then AtUpdateRaw(Write(db, tx.job.ev, id, own, read)) else AtUpdateRaw(Nothing)
    case AtInsertReview => AtUpdateRaw(ReviewUpserted(EventOf(tx.job) !in db.reviews))
    case AtUpdateRaw(effect) => AtCommit(effect, RawWrite(db.raw[EventOf(tx.job)], tx.job))
  }

  function OwnEntity(t: Tables, job: Job, id: nat, own: bool): Tables {
    if OnEntity(job) && own then t.(entities := t.entities[KeyOf(job) := id]) else t
  }

  function OwnApplied(t: Tables, job: Job, id: nat): Tables {
    if OnEntity(job) then t.(applied := t.applied[AppliedKey(id, EventOf(job)) := Target(job.ev)]) else t
  }

  /** The pending rows of the projection tables, made visible. */
  function Published(t: Tables, job: Job, effect: Effect): Tables {
    match effect
    case AlreadyRecorded(id, own) => OwnEntity(t, job, id, own)
    case RowInserted(id, own, row) =>
      if OnEntity(job)
      then PutRow(OwnApplied(OwnEntity(t, job, id, own), job, id), KeyOf(job).entityType, id, row) else t
    case RowUpdated(id, own, _, row) =>
      if OnEntity(job)
      then PutRow(OwnApplied(OwnEntity(t, job, id, own), job, id), KeyOf(job).entityType, id, row) else t
    case UpdateMissed(id, own, _) => OwnApplied(OwnEntity(t, job, id, own), job, id)
    case StaleLogged(id, own, _, entry) => LogStale(OwnApplied(OwnEntity(t, job, id, own), job, id), id, entry)
    case _ => t
  }

  /** `COMMIT`: exactly the transaction's own writes become visible. */
  function Commit(db: Db, job: Job, effect: Effect, raw: RawEvent): Db {
    Db(Published(db.tables, job, effect),
       if job.Finalize? then db.canonical[EventOf(job) := job.ev] else db.canonical,
       db.raw[EventOf(job) := raw],
       if job.MarkReview? && effect == ReviewUpserted(true) then db.reviews[EventOf(job) := job.reason]
       else db.reviews)
  }

  // ----- The system -----

  /** A committed transaction, with the entity id it worked under. */
  datatype Entry = Entry(job: Job, id: nat) | Truncation

  datatype Sys = Sys(db: Db, txs: map<Worker, Tx>, next: nat, log: seq<Entry>)

  datatype Action = Begin(w: Worker, job: Job) | Statement(w: Worker) | Abort(w: Worker) | Truncate

  predicate Blocked(s: Sys, w: Worker)
    requires w in s.txs
  {
    Wants(s.db, s.txs[w]).Some?
    && exists w' :: w' in s.txs && w' != w && Wants(s.db, s.txs[w]).value in Locks(s.txs[w'])
  }

  /** A worker begins on an event it has read from the log; `TRUNCATE` waits for every open transaction. */
  predicate Enabled(s: Sys, a: Action) {
    match a
    case Begin(w, job) => w !in s.txs && EventOf(job) in s.db.raw && JobOk(job)
    case Statement(w) => w in s.txs && EventOf(s.txs[w].job) in s.db.raw && !Blocked(s, w)
    case Abort(w) => w in s.txs
    case Truncate => s.txs == map[]
  }

  predicate JobOk(job: Job) {
    job.MarkUnfinished? ==> job.status == PendingLlm || job.status == Failed
  }

  function EffectId(effect: Effect): nat {
    match effect
    case AlreadyRecorded(id, _) => id
    case RowInserted(id, _, _) => id
    case RowUpdated(id, _, _, _) => id
    case UpdateMissed(id, _, _) => id
    case StaleLogged(id, _, _, _) => id
    case _ => 0
  }

  function Next(s: Sys, a: Action): Sys
    requires Enabled(s, a)
  {
    match a
    case Begin(w, job) => s.(txs := s.txs[w := Tx(job, FirstPhase(job))])
    case Statement(w) =>
      var tx := s.txs[w];
      if tx.phase.AtCommit? then
        Sys(Commit(s.db, tx.job, tx.phase.effect, tx.phase.raw), s.txs - {w}, s.next,
            s.log + [Entry(tx.job, EffectId(tx.phase.effect))])
      else
        s.(txs := s.txs[w := tx.(phase := Advance(s.db, s.next, tx))],
           next := if tx.phase.AtInsertEntity? then s.next + 1 else s.next)
    case Abort(w) => s.(txs := s.txs - {w})
    case Truncate => s.(db := TruncateTx(s.db), log := s.log + [Truncation])
  }
}
