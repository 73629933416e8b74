/** Every interleaving of the statements of any number of workers, with aborts anywhere, commits exactly
    what the committed transactions would have done one after the other; and some worker can always move. */
module Serializability {
  import opened Prelude
  import opened Canonical
  import opened Projection
  import opened Runs
  import opened Tables
  import opened Database
  import opened Transactions

  // ----- What a worker's program counter says about the committed tables -----

  ghost predicate IdKnown(db: Db, next: nat, job: Job, id: nat, own: bool) {
    && OnEntity(job)
    && (if own then KeyOf(job) !in db.tables.entities && NewId(db.tables, id) && id < next
        else KeyOf(job) in db.tables.entities && db.tables.entities[KeyOf(job)] == id)
  }

  ghost predicate NotYetApplied(db: Db, job: Job, id: nat) {
    AppliedKey(id, EventOf(job)) !in db.tables.applied
  }

  predicate HasRow(db: Db, job: Job, id: nat)
    requires OnEntity(job)
  {
    id in Rows(db.tables, KeyOf(job).entityType)
  }

  ghost predicate ReadRow(db: Db, job: Job, id: nat, own: bool, read: Row)
    requires OnEntity(job)
  {
    !own && HasRow(db, job, id) && Rows(db.tables, KeyOf(job).entityType)[id] == read
  }

  ghost predicate EffectOk(db: Db, next: nat, job: Job, effect: Effect) {
    match effect
    case Nothing => !OnEntity(job) && !job.MarkReview?
    case AlreadyRecorded(id, own) => IdKnown(db, next, job, id, own) && !own && !NotYetApplied(db, job, id)
    case RowInserted(id, own, row) =>
      && IdKnown(db, next, job, id, own) && NotYetApplied(db, job, id)
      && !HasRow(db, job, id) && row == InitialRow(job.ev)
    case RowUpdated(id, own, read, row) =>
      && IdKnown(db, next, job, id, own) && NotYetApplied(db, job, id) && ReadRow(db, job, id, own, read)
      && Decide(read, job.ev) == Applied && row == UpdatedRow(read, job.ev)
    case UpdateMissed(_, _, _) => false
    case StaleLogged(id, own, read, entry) =>
      && IdKnown(db, next, job, id, own) && NotYetApplied(db, job, id) && ReadRow(db, job, id, own, read)
      && Decide(read, job.ev) != Applied && entry == StaleEntry(read, job.ev)
    case ReviewUpserted(inserted) => job.MarkReview? && (inserted <==> EventOf(job) !in db.reviews)
  }

  ghost predicate TxOk(db: Db, next: nat, tx: Tx) {
    && EventOf(tx.job) in db.raw && JobOk(tx.job)
    && match tx.phase
       case AtUpsertCanonical => tx.job.Finalize?
       case AtSelectEntity => OnEntity(tx.job)
       case AtInsertEntity => OnEntity(tx.job)
       case AtReselectEntity => OnEntity(tx.job) && KeyOf(tx.job) in db.tables.entities
       case AtInsertApplied(id, own) => IdKnown(db, next, tx.job, id, own)
       case AtInsertRow(id, own) => IdKnown(db, next, tx.job, id, own) && NotYetApplied(db, tx.job, id)
       case AtSelectForUpdate(id, own) =>
         IdKnown(db, next, tx.job, id, own) && NotYetApplied(db, tx.job, id) && !own && HasRow(db, tx.job, id)
       case AtDecide(id, own, read) =>
         && IdKnown(db, next, tx.job, id, own) && NotYetApplied(db, tx.job, id)
         && ReadRow(db, tx.job, id, own, read)
       case AtInsertReview => tx.job.MarkReview?
       case AtUpdateRaw(effect) => EffectOk(db, next, tx.job, effect)
       case AtCommit(effect, raw) =>
         EffectOk(db, next, tx.job, effect) && raw == RawWrite(db.raw[EventOf(tx.job)], tx.job)
  }

  lemma FirstPhaseOk(db: Db, next: nat, job: Job)
    requires EventOf(job) in db.raw && JobOk(job)
    ensures TxOk(db, next, Tx(job, FirstPhase(job)))
    ensures Locks(Tx(job, FirstPhase(job))) == {}
  {
  }

  /** An `UPDATE ... WHERE entity_id AND version` hits exactly the one row that its worker knows. */
  lemma UpdateHitsOneRow(db: Db, next: nat, tx: Tx)
    requires TxOk(db, next, tx) && tx.phase.AtDecide?
    ensures Hits(Rows(db.tables, KeyOf(tx.job).entityType), tx.phase.id, tx.phase.read.version) == {tx.phase.id}
    ensures !Write(db, tx.job.ev, tx.phase.id, tx.phase.own, tx.phase.read).UpdateMissed?
  {
    assert tx.phase.id in Hits(Rows(db.tables, KeyOf(tx.job).entityType), tx.phase.id, tx.phase.read.version);
  }

  /** A statement leaves its worker with true knowledge. */
  lemma AdvanceOk(db: Db, next: nat, tx: Tx)
    requires IdsBelow(db.tables, next) && TxOk(db, next, tx) && !tx.phase.AtCommit?
    ensures TxOk(db, if tx.phase.AtInsertEntity? then next + 1 else next, tx.(phase := Advance(db, next, tx)))
  {
    match tx.phase {
      case AtInsertEntity =>
        NextIdIsNew(db.tables, next);
      case AtInsertApplied(id, own) =>
        assert AppliedKey(id, EventOf(tx.job)).entityId == id;
      case AtDecide(_, _, _) =>
        UpdateHitsOneRow(db, next, tx);
      case _ =>
    }
  }

  /** A statement acquires the lock it waited for, an id from the sequence, and nothing else. */
  lemma AdvanceLocks(db: Db, next: nat, tx: Tx)
    requires TxOk(db, next, tx) && !tx.phase.AtCommit?
    ensures forall l :: l in Locks(tx.(phase := Advance(db, next, tx))) ==>
              || l in Locks(tx) || Wants(db, tx) == Some(l)
              || (tx.phase.AtInsertEntity? && l == SequenceLock(next))
  {
    if tx.phase.AtDecide? {
      UpdateHitsOneRow(db, next, tx);
    }
  }

  lemma SequenceLocksAreOld(db: Db, next: nat, tx: Tx, id: nat)
    requires TxOk(db, next, tx) && SequenceLock(id) in Locks(tx)
    ensures id < next
  {
  }

  // ----- Commits -----

  /** A log entry as one atomic transaction. */
  function Serial(db: Db, entry: Entry): Db {
    match entry
    case Truncation => TruncateTx(db)
    case Entry(job, id) =>
      match job
      case Finalize(ev) => FinalizeTx(db, ev, id)
      case MarkReview(e, reason) => ReviewTx(db, e, reason)
      case MarkUnfinished(e, status) => SetRaw(db, e, None, status)
  }

  /** The entry may run on `db`: its event is in the log and its id is the entity's own or a new one. */
  ghost predicate Admissible(db: Db, entry: Entry) {
    entry.Entry? ==>
      && EventOf(entry.job) in db.raw && JobOk(entry.job)
      && (entry.job.Finalize? ==> IdOk(db, entry.job.ev, entry.id))
  }

  lemma OwnEntityIsRecord(t: Tables, job: Job, id: nat, own: bool)
    requires OnEntity(job) && (!own ==> KeyOf(job) in t.entities && t.entities[KeyOf(job)] == id)
    ensures OwnApplied(OwnEntity(t, job, id, own), job, id) == Record(t, KeyOf(job), id, EventOf(job), Target(job.ev))
  {
    if !own {
      assert t.entities[KeyOf(job) := id] == t.entities;
    }
  }

  lemma PublishedIsApply(db: Db, next: nat, job: Job, effect: Effect)
    requires OnEntity(job) && EffectOk(db, next, job, effect)
    ensures Published(db.tables, job, effect) == ApplyTx(db.tables, job.ev, EffectId(effect))
    ensures IdFor(db.tables, KeyOf(job), EffectId(effect))
  {
    if !effect.AlreadyRecorded? {
      OwnEntityIsRecord(db.tables, job, effect.id, effect.own);
    }
  }

  /** A commit does what its transaction would do alone on the tables as they are at the commit. */
  lemma CommitIsSerial(db: Db, next: nat, tx: Tx)
    requires TxOk(db, next, tx) && tx.phase.AtCommit?
    ensures var entry := Entry(tx.job, EffectId(tx.phase.effect));
            && Admissible(db, entry)
            && Commit(db, tx.job, tx.phase.effect, tx.phase.raw) == Serial(db, entry)
  {
    if OnEntity(tx.job) {
      PublishedIsApply(db, next, tx.job, tx.phase.effect);
    }
  }

  ghost predicate EntitiesWithin(t: Tables, t': Tables, locks: set<Lock>) {
    && (forall k :: k in t.entities ==> k in t'.entities && t'.entities[k] == t.entities[k])
    && (forall k :: k in t'.entities && k !in t.entities ==>
          EntityLock(k) in locks && SequenceLock(t'.entities[k]) in locks)
  }

  ghost predicate AppliedWithin(t: Tables, t': Tables, locks: set<Lock>) {
    && (forall a :: a in t.applied ==> a in t'.applied)
    && (forall a :: a in t'.applied && a !in t.applied ==> AppliedLock(a) in locks)
  }

  ghost predicate RowsWithin(t: Tables, t': Tables, locks: set<Lock>) {
    && (forall kind, id :: id in Rows(t, kind) ==> id in Rows(t', kind))
    && (forall kind, id :: RowLock(kind, id) !in locks ==> RowAt(Rows(t', kind), id) == RowAt(Rows(t, kind), id))
  }

  /** What a commit may have changed, in terms of the locks that the transaction held. */
  ghost predicate ChangedWithin(db: Db, db': Db, locks: set<Lock>) {
    && EntitiesWithin(db.tables, db'.tables, locks)
    && AppliedWithin(db.tables, db'.tables, locks)
    && RowsWithin(db.tables, db'.tables, locks)
    && db'.raw.Keys == db.raw.Keys
    && (forall e :: e in db.raw && RawLock(e) !in locks ==> db'.raw[e] == db.raw[e])
    && (forall e :: e in db.reviews ==> e in db'.reviews)
    && (forall e :: e in db'.reviews && e !in db.reviews ==> ReviewLock(e) in locks)
  }

  lemma RecordWithinLocks(db: Db, next: nat, job: Job, id: nat, own: bool, locks: set<Lock>)
    requires IdKnown(db, next, job, id, own) && RecordLocks(job, id, own) <= locks
    ensures var t' := OwnApplied(OwnEntity(db.tables, job, id, own), job, id);
            && EntitiesWithin(db.tables, t', locks) && AppliedWithin(db.tables, t', locks)
            && t'.shipments == db.tables.shipments && t'.invoices == db.tables.invoices
  {
    assert AppliedLock(AppliedKey(id, EventOf(job))) in RecordLocks(job, id, own);
    assert own ==> EntityLock(KeyOf(job)) in RecordLocks(job, id, own) && SequenceLock(id) in RecordLocks(job, id, own);
  }

  lemma PutRowWithinLocks(t: Tables, kind: EntityType, id: nat, row: Row, locks: set<Lock>)
    requires RowLock(kind, id) in locks
    ensures RowsWithin(t, PutRow(t, kind, id, row), locks)
  {
  }

  lemma PublishedWithinLocks(db: Db, next: nat, job: Job, effect: Effect, locks: set<Lock>)
    requires EffectOk(db, next, job, effect) && EffectLocks(job, effect) <= locks
    ensures var t' := Published(db.tables, job, effect);
            && EntitiesWithin(db.tables, t', locks) && AppliedWithin(db.tables, t', locks)
            && RowsWithin(db.tables, t', locks)
  {
    if OnEntity(job) && !effect.AlreadyRecorded? {
      RecordWithinLocks(db, next, job, effect.id, effect.own, locks);
      if effect.RowInserted? || effect.RowUpdated? {
        var t := OwnApplied(OwnEntity(db.tables, job, effect.id, effect.own), job, effect.id);
        PutRowWithinLocks(t, KeyOf(job).entityType, effect.id, effect.row, locks);
      }
    }
  }

  lemma CommitChangesWithinLocks(db: Db, next: nat, tx: Tx)
    requires TxOk(db, next, tx) && tx.phase.AtCommit?
    ensures ChangedWithin(db, Commit(db, tx.job, tx.phase.effect, tx.phase.raw), Locks(tx))
  {
    PublishedWithinLocks(db, next, tx.job, tx.phase.effect, Locks(tx));
  }

  /** Any id that a commit newly mentions is one that it inserted itself. */
  lemma CommitKeepsNewIds(db: Db, next: nat, tx: Tx, id: nat)
    requires TxOk(db, next, tx) && tx.phase.AtCommit?
    requires NewId(db.tables, id) && SequenceLock(id) !in Locks(tx)
    ensures NewId(Commit(db, tx.job, tx.phase.effect, tx.phase.raw).tables, id)
  {
    if OnEntity(tx.job) {
      var effect := tx.phase.effect;
      assert effect.own ==> SequenceLock(effect.id) in EffectLocks(tx.job, effect);
      PublishedMentions(db.tables, tx.job, effect, id);
    }
  }

  lemma RecordMentions(t: Tables, job: Job, id': nat, own: bool, id: nat)
    requires NewId(t, id) && id' != id
    ensures NewId(OwnEntity(t, job, id', own), id)
    ensures NewId(OwnApplied(OwnEntity(t, job, id', own), job, id'), id)
  {
  }

  lemma PublishedMentions(t: Tables, job: Job, effect: Effect, id: nat)
    requires OnEntity(job) && NewId(t, id) && !effect.Nothing? && !effect.ReviewUpserted? && effect.id != id
    ensures NewId(Published(t, job, effect), id)
  {
    RecordMentions(t, job, effect.id, effect.own, id);
  }

  lemma IdSurvives(db: Db, db': Db, next: nat, locks: set<Lock>, job: Job, id: nat, own: bool)
    requires IdKnown(db, next, job, id, own) && ChangedWithin(db, db', locks)
    requires own ==> EntityLock(KeyOf(job)) !in locks && NewId(db'.tables, id)
    ensures IdKnown(db', next, job, id, own)
  {
  }

  lemma RowSurvives(db: Db, db': Db, locks: set<Lock>, job: Job, id: nat)
    requires OnEntity(job) && ChangedWithin(db, db', locks) && RowLock(KeyOf(job).entityType, id) !in locks
    ensures HasRow(db', job, id) <==> HasRow(db, job, id)
    ensures HasRow(db, job, id) ==>
              Rows(db'.tables, KeyOf(job).entityType)[id] == Rows(db.tables, KeyOf(job).entityType)[id]
  {
    assert RowAt(Rows(db'.tables, KeyOf(job).entityType), id) == RowAt(Rows(db.tables, KeyOf(job).entityType), id);
  }

  lemma EffectSurvives(db: Db, db': Db, next: nat, locks: set<Lock>, job: Job, effect: Effect)
    requires EffectOk(db, next, job, effect) && ChangedWithin(db, db', locks) && locks !! EffectLocks(job, effect)
    requires EventOf(job) in db.raw
    requires forall id :: SequenceLock(id) in EffectLocks(job, effect) && NewId(db.tables, id) ==> NewId(db'.tables, id)
    ensures EffectOk(db', next, job, effect)
  {
    if OnEntity(job) && !effect.AlreadyRecorded? {
      var id, own := effect.id, effect.own;
      assert RowLock(KeyOf(job).entityType, id) in EffectLocks(job, effect);
      assert AppliedLock(AppliedKey(id, EventOf(job))) in EffectLocks(job, effect);
      assert own ==> SequenceLock(id) in EffectLocks(job, effect) && EntityLock(KeyOf(job)) in EffectLocks(job, effect);
      IdSurvives(db, db', next, locks, job, id, own);
      RowSurvives(db, db', locks, job, id);
    } else if OnEntity(job) {
      IdSurvives(db, db', next, locks, job, effect.id, false);
    } else if effect.ReviewUpserted? && effect.inserted {
      assert ReviewLock(EventOf(job)) in EffectLocks(job, effect);
    }
  }

  /** What another worker knows survives a commit, because the two hold no lock in common. */
  lemma KnowledgeSurvives(db: Db, db': Db, next: nat, locks: set<Lock>, other: Tx)
    requires TxOk(db, next, other) && ChangedWithin(db, db', locks) && locks !! Locks(other)
    requires forall id :: SequenceLock(id) in Locks(other) && NewId(db.tables, id) ==> NewId(db'.tables, id)
    ensures TxOk(db', next, other)
  {
    var job := other.job;
    match other.phase {
      case AtInsertApplied(id, own) =>
        assert own ==> SequenceLock(id) in Locks(other) && EntityLock(KeyOf(job)) in Locks(other);
        IdSurvives(db, db', next, locks, job, id, own);
      case AtInsertRow(id, own) =>
        assert own ==> SequenceLock(id) in Locks(other) && EntityLock(KeyOf(job)) in Locks(other);
        assert AppliedLock(AppliedKey(id, EventOf(job))) in Locks(other);
        IdSurvives(db, db', next, locks, job, id, own);
      case AtSelectForUpdate(id, own) =>
        assert AppliedLock(AppliedKey(id, EventOf(job))) in Locks(other);
        IdSurvives(db, db', next, locks, job, id, own);
      case AtDecide(id, own, _) =>
        assert AppliedLock(AppliedKey(id, EventOf(job))) in Locks(other);
        assert RowLock(KeyOf(job).entityType, id) in Locks(other);
        IdSurvives(db, db', next, locks, job, id, own);
        RowSurvives(db, db', locks, job, id);
      case AtUpdateRaw(effect) =>
        EffectSurvives(db, db', next, locks, job, effect);
      case AtCommit(effect, _) =>
        assert RawLock(EventOf(job)) in Locks(other);
        EffectSurvives(db, db', next, locks, job, effect);
      case _ =>
    }
  }

  // ----- Every reachable state -----

  ghost predicate WorkersOk(s: Sys) {
    forall w :: w in s.txs ==> TxOk(s.db, s.next, s.txs[w])
  }

  /** No lock is held twice. */
  ghost predicate Exclusive(s: Sys) {
    forall w, w' :: w in s.txs && w' in s.txs && w != w' ==> Locks(s.txs[w]) !! Locks(s.txs[w'])
  }

  ghost predicate Inv(s: Sys) {
    DbOk(s.db) && IdsBelow(s.db.tables, s.next) && WorkersOk(s) && Exclusive(s)
  }

  lemma BeginKeepsInv(s: Sys, w: Worker, job: Job)
    requires Inv(s) && Enabled(s, Begin(w, job))
    ensures Inv(Next(s, Begin(w, job)))
  {
    FirstPhaseOk(s.db, s.next, job);
  }

  lemma AbortKeepsInv(s: Sys, w: Worker)
    requires Inv(s) && w in s.txs
    ensures Inv(Next(s, Abort(w)))
  {
  }

  lemma LaterSequenceKeepsTx(db: Db, next: nat, next': nat, tx: Tx)
    requires TxOk(db, next, tx) && next <= next'
    ensures TxOk(db, next', tx)
  {
  }

  lemma LaterSequenceKeepsIds(t: Tables, next: nat, next': nat)
    requires IdsBelow(t, next) && next <= next'
    ensures IdsBelow(t, next')
  {
  }

  lemma StatementKeepsInv(s: Sys, w: Worker)
    requires Inv(s) && Enabled(s, Statement(w)) && !s.txs[w].phase.AtCommit?
    ensures Inv(Next(s, Statement(w)))
  {
    var tx, s' := s.txs[w], Next(s, Statement(w));
    AdvanceOk(s.db, s.next, tx);
    AdvanceLocks(s.db, s.next, tx);
    LaterSequenceKeepsIds(s.db.tables, s.next, s'.next);
    forall w' | w' in s.txs && w' != w
      ensures TxOk(s'.db, s'.next, s'.txs[w'])
      ensures Locks(s'.txs[w]) !! Locks(s'.txs[w'])
    {
      LaterSequenceKeepsTx(s.db, s.next, s'.next, s.txs[w']);
      forall l | l in Locks(s'.txs[w])
        ensures l !in Locks(s.txs[w'])
      {
        if l == SequenceLock(s.next) && l in Locks(s.txs[w']) {
          SequenceLocksAreOld(s.db, s.next, s.txs[w'], s.next);
        }
      }
    }
  }

  lemma CommitKeepsIdsBelow(db: Db, next: nat, tx: Tx)
    requires DbOk(db) && IdsBelow(db.tables, next) && TxOk(db, next, tx) && tx.phase.AtCommit?
    ensures IdsBelow(Commit(db, tx.job, tx.phase.effect, tx.phase.raw).tables, next)
  {
    CommitIsSerial(db, next, tx);
    if OnEntity(tx.job) {
      PublishedIsApply(db, next, tx.job, tx.phase.effect);
      ApplyTxKeepsIdsBelow(db.tables, tx.job.ev, EffectId(tx.phase.effect), next);
    }
  }

  /** An admissible transaction keeps the database sound and takes every entity one step or none. */
  lemma SerialKeepsDb(db: Db, entry: Entry, history: seq<Event>)
    requires DbOk(db) && Admissible(db, entry) && Shows(db.tables, history)
    ensures DbOk(Serial(db, entry))
    ensures Shows(Serial(db, entry).tables, HistoryAfter(history, [entry]))
  {
    assert [entry][..0] == [];
    match entry {
      case Truncation =>
        TruncateTxKeepsDb(db);
      case Entry(Finalize(ev), id) =>
        FinalizeTxKeepsDb(db, ev, id);
        FinalizeTxShows(db, ev, id, history);
      case Entry(MarkReview(e, reason), _) =>
        ReviewTxKeepsDb(db, e, reason);
      case Entry(MarkUnfinished(e, status), _) =>
        SetRawKeepsDb(db, e, status);
    }
  }

  lemma CommitKeepsInv(s: Sys, w: Worker)
    requires Inv(s) && Enabled(s, Statement(w)) && s.txs[w].phase.AtCommit?
    ensures Inv(Next(s, Statement(w)))
  {
    var tx, s' := s.txs[w], Next(s, Statement(w));
    CommitIsSerial(s.db, s.next, tx);
    CommitChangesWithinLocks(s.db, s.next, tx);
    CommitKeepsIdsBelow(s.db, s.next, tx);
    SerialKeepsSoundness(s.db, Entry(tx.job, EffectId(tx.phase.effect)));
    forall w' | w' in s'.txs
      ensures TxOk(s'.db, s'.next, s'.txs[w'])
    {
      forall id | SequenceLock(id) in Locks(s.txs[w']) && NewId(s.db.tables, id)
        ensures NewId(s'.db.tables, id)
      {
        CommitKeepsNewIds(s.db, s.next, tx, id);
      }
      KnowledgeSurvives(s.db, s'.db, s.next, Locks(tx), s.txs[w']);
    }
  }

  lemma SerialKeepsSoundness(db: Db, entry: Entry)
    requires DbOk(db) && Admissible(db, entry)
    ensures DbOk(Serial(db, entry))
  {
    match entry {
      case Truncation =>
        TruncateTxKeepsDb(db);
      case Entry(Finalize(ev), id) =>
        FinalizeTxKeepsDb(db, ev, id);
      case Entry(MarkReview(e, reason), _) =>
        ReviewTxKeepsDb(db, e, reason);
      case Entry(MarkUnfinished(e, status), _) =>
        SetRawKeepsDb(db, e, status);
    }
  }

  lemma NextKeepsInv(s: Sys, a: Action)
    requires Inv(s) && Enabled(s, a)
    ensures Inv(Next(s, a))
  {
    match a {
      case Begin(w, job) => BeginKeepsInv(s, w, job);
      case Abort(w) => AbortKeepsInv(s, w);
      case Truncate => TruncateTxKeepsDb(s.db);
      case Statement(w) =>
        if s.txs[w].phase.AtCommit? {
          CommitKeepsInv(s, w);
        } else {
          StatementKeepsInv(s, w);
        }
    }
  }

  // ----- Main results -----

  /** The system after a schedule, provided that every action of it was possible in turn. */
  function Exec(s: Sys, schedule: seq<Action>): Option<Sys> {
    if schedule == [] then Some(s)
    else
      var before := Exec(s, Front(schedule));
      if before.Some? && Enabled(before.value, Last(schedule)) then Some(Next(before.value, Last(schedule))) else None
  }

  /** The log entries, run one after the other. */
  function SerialRun(db: Db, log: seq<Entry>): Db {
    if log == [] then db else Serial(SerialRun(db, Front(log)), Last(log))
  }

  ghost predicate AllAdmissible(db: Db, log: seq<Entry>) {
    forall i :: 0 <= i < |log| ==> Admissible(SerialRun(db, log[..i]), log[i])
  }

  /** The events finalised since the last truncation, in commit order. */
  function HistoryAfter(history: seq<Event>, log: seq<Entry>): seq<Event> {
    if log == [] then history
    else match Last(log)
      case Truncation => []
      case Entry(Finalize(ev), _) => HistoryAfter(history, Front(log)) + [ev]
      case Entry(_, _) => HistoryAfter(history, Front(log))
  }

  lemma SerialRunSnoc(db: Db, log: seq<Entry>, entry: Entry, history: seq<Event>)
    requires AllAdmissible(db, log) && Admissible(SerialRun(db, log), entry)
    ensures SerialRun(db, log + [entry]) == Serial(SerialRun(db, log), entry)
    ensures AllAdmissible(db, log + [entry])
    ensures HistoryAfter(history, log + [entry]) == HistoryAfter(HistoryAfter(history, log), [entry])
  {
    assert Front(log + [entry]) == log && Front([entry]) == [];
    forall i | 0 <= i < |log + [entry]|
      ensures Admissible(SerialRun(db, (log + [entry])[..i]), (log + [entry])[i])
    {
      if i < |log| {
        assert (log + [entry])[..i] == log[..i];
      } else {
        assert (log + [entry])[..i] == log;
      }
    }
  }

  ghost predicate Idle(s: Sys) {
    Inv(s) && s.txs == map[] && s.log == []
  }

  /** Freshly received events over empty tables are such a start. */
  lemma FreshSystemIsIdle(raw: map<EventId, RawEvent>, next: nat)
    requires forall e :: e in raw ==> raw[e].status == Queued
    ensures Idle(Sys(Db(NO_ROWS, map[], raw, map[]), map[], next, [])) && Shows(NO_ROWS, [])
  {
    TruncateTxShows(Db(NO_ROWS, map[], raw, map[]), next);
  }

  /** Serializability: for any number of workers and any interleaving of their statements, with aborts
      at any point, the committed database is what the committed transactions leave behind when they run
      atomically in commit order. */
  lemma {:induction false} Serializable(s0: Sys, schedule: seq<Action>)
    requires Idle(s0) && Exec(s0, schedule).Some?
    ensures var s := Exec(s0, schedule).value;
            && Inv(s)
            && AllAdmissible(s0.db, s.log)
            && s.db == SerialRun(s0.db, s.log)
  {
    if schedule != [] {
      Serializable(s0, Front(schedule));
      var s, a := Exec(s0, Front(schedule)).value, Last(schedule);
      NextKeepsInv(s, a);
      if a == Truncate {
        SerialRunSnoc(s0.db, s.log, Truncation, []);
      } else if a.Statement? && s.txs[a.w].phase.AtCommit? {
        var tx := s.txs[a.w];
        CommitIsSerial(s.db, s.next, tx);
        SerialRunSnoc(s0.db, s.log, Entry(tx.job, EffectId(tx.phase.effect)), []);
      }
    }
  }

  lemma {:induction false} SerialRunShows(db: Db, log: seq<Entry>, history: seq<Event>)
    requires DbOk(db) && AllAdmissible(db, log) && Shows(db.tables, history)
    ensures DbOk(SerialRun(db, log))
    ensures Shows(SerialRun(db, log).tables, HistoryAfter(history, log))
  {
    if log != [] {
      assert log == Front(log) + [Last(log)];
      assert Front(log) == log[..|log| - 1];
      forall i | 0 <= i < |Front(log)|
        ensures Admissible(SerialRun(db, Front(log)[..i]), Front(log)[i])
      {
        assert Front(log)[..i] == log[..i];
      }
      SerialRunShows(db, Front(log), history);
      SerialRunSnoc(db, Front(log), Last(log), history);
      SerialKeepsDb(SerialRun(db, Front(log)), Last(log), HistoryAfter(history, Front(log)));
    }
  }

  /** In every reachable state, a worker about to update a projection row hits exactly the one row that it read,
      although the engine never looks at the row count. */
  lemma EveryUpdateHitsOneRow(s0: Sys, schedule: seq<Action>, w: Worker)
    requires Idle(s0) && Exec(s0, schedule).Some?
    requires w in Exec(s0, schedule).value.txs && Exec(s0, schedule).value.txs[w].phase.AtDecide?
    ensures var s := Exec(s0, schedule).value;
            var tx := s.txs[w];
            && OnEntity(tx.job)
            && Hits(Rows(s.db.tables, KeyOf(tx.job).entityType), tx.phase.id, tx.phase.read.version) == {tx.phase.id}
            && Rows(s.db.tables, KeyOf(tx.job).entityType)[tx.phase.id] == tx.phase.read
            && !Write(s.db, tx.job.ev, tx.phase.id, tx.phase.own, tx.phase.read).UpdateMissed?
  {
    Serializable(s0, schedule);
    var s := Exec(s0, schedule).value;
    assert TxOk(s.db, s.next, s.txs[w]);
    UpdateHitsOneRow(s.db, s.next, s.txs[w]);
  }

  /** In every reachable state each entity's committed rows are the run of its own committed events, so
      every theorem about runs holds of the concurrent engine. */
  lemma ConcurrentEngineShowsRuns(s0: Sys, schedule: seq<Action>, history: seq<Event>)
    requires Idle(s0) && Shows(s0.db.tables, history) && Exec(s0, schedule).Some?
    ensures var s := Exec(s0, schedule).value;
            DbOk(s.db) && Shows(s.db.tables, HistoryAfter(history, s.log))
  {
    Serializable(s0, schedule);
    SerialRunShows(s0.db, Exec(s0, schedule).value.log, history);
  }

  // ----- Progress -----

  /** The fixed order in which every transaction takes its locks. */
  function LockRank(l: Lock): nat {
    match l
    case CanonicalLock(_) => 0
    case ReviewLock(_) => 0
    case SequenceLock(_) => 1
    case EntityLock(_) => 1
    case AppliedLock(_) => 2
    case RowLock(_, _) => 3
    case RawLock(_) => 4
  }

  lemma LocksAreTakenInOrder(db: Db, next: nat, tx: Tx, l: Lock)
    requires TxOk(db, next, tx) && Wants(db, tx).Some? && l in Locks(tx)
    ensures LockRank(l) < LockRank(Wants(db, tx).value)
  {
  }

  /** How many ranks lie above the lock that a worker wants. */
  function Waits(s: Sys, w: Worker): nat
    requires w in s.txs
  {
    var lock := Wants(s.db, s.txs[w]);
    if lock.Some? then 5 - LockRank(lock.value) else 0
  }

  /** A worker that holds what another waits for waits itself for something that is taken later. */
  lemma HolderWaitsForLater(s: Sys, w: Worker, holder: Worker)
    requires Inv(s) && w in s.txs && holder in s.txs && Wants(s.db, s.txs[w]).Some?
    requires Wants(s.db, s.txs[w]).value in Locks(s.txs[holder])
    ensures Waits(s, holder) < Waits(s, w)
  {
    if Wants(s.db, s.txs[holder]).Some? {
      LocksAreTakenInOrder(s.db, s.next, s.txs[holder], Wants(s.db, s.txs[w]).value);
    }
  }

  lemma UnblockedBehind(s: Sys, w: Worker) returns (free: Worker)
    requires Inv(s) && w in s.txs
    ensures free in s.txs && Enabled(s, Statement(free))
    decreases Waits(s, w)
  {
    if !Blocked(s, w) {
      free := w;
    } else {
      var holder :| holder in s.txs && holder != w && Wants(s.db, s.txs[w]).value in Locks(s.txs[holder]);
      if Blocked(s, holder) {
        HolderWaitsForLater(s, w, holder);
        free := UnblockedBehind(s, holder);
      } else {
        free := holder;
      }
    }
  }

  function Position(phase: Phase): nat {
    match phase
    case AtUpsertCanonical => 0
    case AtSelectEntity => 1
    case AtInsertEntity => 2
    case AtReselectEntity => 3
    case AtInsertApplied(_, _) => 4
    case AtInsertRow(_, _) => 5
    case AtSelectForUpdate(_, _) => 6
    case AtDecide(_, _, _) => 7
    case AtInsertReview => 7
    case AtUpdateRaw(_) => 8
    case AtCommit(_, _) => 9
  }

  /** A statement always moves its worker on: the reads that the engine asserts to find a row find it. */
  lemma StatementMovesOn(db: Db, next: nat, tx: Tx)
    requires TxOk(db, next, tx) && !tx.phase.AtCommit?
    ensures Position(tx.phase) < Position(Advance(db, next, tx)) <= 9
  {
  }

  /** No deadlock: in every reachable state with an unfinished transaction some worker can run its next
      statement, and that statement either commits or brings the worker nearer to its commit. */
  lemma Progress(s0: Sys, schedule: seq<Action>, w: Worker) returns (free: Worker)
    requires Idle(s0) && Exec(s0, schedule).Some? && w in Exec(s0, schedule).value.txs
    ensures var s := Exec(s0, schedule).value;
            && free in s.txs && Enabled(s, Statement(free))
            && (s.txs[free].phase.AtCommit?
                || Position(s.txs[free].phase) < Position(Next(s, Statement(free)).txs[free].phase) <= 9)
  {
    Serializable(s0, schedule);
    var s := Exec(s0, schedule).value;
    free := UnblockedBehind(s, w);
    if !s.txs[free].phase.AtCommit? {
      StatementMovesOn(s.db, s.next, s.txs[free]);
    }
  }
}
