/** The schema registry: `vendor_schemas` and `vendor_event_type_map`. A payload's shape set stands for its
    fingerprint. */
module Registry {
  import opened Prelude
  import opened Json
  import opened Fingerprint
  import opened Adapter

  datatype Status = Provisional | Active | Retired

  datatype SchemaRow = SchemaRow(id: nat, vendorId: string, shape: set<Entry>, version: int, doc: SchemaDoc,
                                 status: Status, successes: nat, failures: nat)

  datatype Mapping = Mapping(classification: string, state: string, reviewed: bool)

  /** Everything that has been learned. */
  datatype Knowledge = Knowledge(rows: seq<SchemaRow>, eventTypes: map<(string, string), Mapping>)

  // ----- The two tables' keys -----

  predicate SameUnique(a: SchemaRow, b: SchemaRow) {
    a.vendorId == b.vendorId && a.shape == b.shape && a.version == b.version
  }

  /** `UNIQUE (vendor_id, structural_fingerprint, schema_version)`; versions count from 1, the default. */
  predicate KeyedRows(rows: seq<SchemaRow>) {
    && (forall i, j :: 0 <= i < j < |rows| ==> !SameUnique(rows[i], rows[j]))
    && (forall i :: 0 <= i < |rows| ==> rows[i].version >= 1)
  }

  /** The same, and `PRIMARY KEY (id)`. */
  predicate RowsOk(rows: seq<SchemaRow>) {
    KeyedRows(rows) && forall i, j :: 0 <= i < j < |rows| ==> rows[i].id != rows[j].id
  }

  // ----- Looking up -----

  predicate Answers(row: SchemaRow, vendorId: string, shape: set<Entry>) {
    row.vendorId == vendorId && row.shape == shape && row.status != Retired
  }

  /** `ORDER BY CASE status WHEN 'active' THEN 0 ELSE 1 END, schema_version DESC`. */
  predicate Before(a: SchemaRow, b: SchemaRow) {
    || (a.status == Active && b.status != Active)
    || ((a.status == Active <==> b.status == Active) && a.version > b.version)
  }

  function BestOf(rows: seq<SchemaRow>, vendorId: string, shape: set<Entry>): Option<SchemaRow> {
    if rows == [] then None
    else
      var last := rows[|rows| - 1];
      var best := BestOf(rows[..|rows| - 1], vendorId, shape);
      if Answers(last, vendorId, shape) && (best.None? || Before(last, best.value)) then Some(last) else best
  }

  /** The lookup finds a row exactly when one answers, and then no other row of the table comes before it. */
  lemma {:induction false} BestIsFirst(rows: seq<SchemaRow>, vendorId: string, shape: set<Entry>)
    ensures var best := BestOf(rows, vendorId, shape);
            && (best.None? <==> forall i :: 0 <= i < |rows| ==> !Answers(rows[i], vendorId, shape))
            && (best.Some? ==> best.value in rows && Answers(best.value, vendorId, shape)
                               && forall i :: 0 <= i < |rows| && Answers(rows[i], vendorId, shape) ==>
                                                !Before(rows[i], best.value))
  {
    if rows != [] {
      var front := rows[..|rows| - 1];
      BestIsFirst(front, vendorId, shape);
      assert forall i :: 0 <= i < |rows| ==> rows[i] == if i < |front| then front[i] else rows[|rows| - 1];
      assert forall row :: row in front ==> row in rows;
    }
  }

  /** What that means: an active row goes before every provisional one, and of rows of one status the latest version
      is found; a retired row never is. */
  lemma BestIsActiveOrLatest(rows: seq<SchemaRow>, vendorId: string, shape: set<Entry>, i: nat)
    requires i < |rows| && rows[i].vendorId == vendorId && rows[i].shape == shape
    requires rows[i].status == Active || rows[i].status == Provisional
    ensures var best := BestOf(rows, vendorId, shape);
            && best.Some? && best.value in rows && best.value.vendorId == vendorId && best.value.shape == shape
            && (best.value.status == Active || (best.value.status == Provisional && rows[i].status == Provisional))
            && (rows[i].status == best.value.status ==> rows[i].version <= best.value.version)
  {
    BestIsFirst(rows, vendorId, shape);
  }

  // ----- Writing -----

  function FindUnique(rows: seq<SchemaRow>, vendorId: string, shape: set<Entry>, version: int): (r: Option<nat>)
    ensures r.Some? ==> && r.value < |rows| && rows[r.value].vendorId == vendorId && rows[r.value].shape == shape
                        && rows[r.value].version == version
    ensures r.None? ==> forall i :: 0 <= i < |rows| ==>
                          !(rows[i].vendorId == vendorId && rows[i].shape == shape && rows[i].version == version)
  {
    if rows == [] then None
    else
      var last := rows[|rows| - 1];
      if last.vendorId == vendorId && last.shape == shape && last.version == version then Some(|rows| - 1)
      else FindUnique(rows[..|rows| - 1], vendorId, shape, version)
  }

  function FindId(rows: seq<SchemaRow>, id: nat): (r: Option<nat>)
    ensures r.Some? ==> r.value < |rows| && rows[r.value].id == id
    ensures r.None? ==> forall i :: 0 <= i < |rows| ==> rows[i].id != id
  {
    if rows == [] then None
    else if rows[|rows| - 1].id == id then Some(|rows| - 1)
    else FindId(rows[..|rows| - 1], id)
  }

  /** `_persist`: insert version 1, or replace the document of a provisional version 1. Where version 1 is no
      longer provisional the statement returns no row, and reading its id raises. */
  function Persisted(rows: seq<SchemaRow>, id: nat, vendorId: string, shape: set<Entry>, doc: SchemaDoc)
    : Result<(seq<SchemaRow>, nat)>
  {
    match FindUnique(rows, vendorId, shape, 1)
    case None => Ok((rows + [SchemaRow(id, vendorId, shape, 1, doc, Provisional, 0, 0)], id))
    case Some(i) =>
      if rows[i].status == Provisional then Ok((rows[i := rows[i].(doc := doc)], rows[i].id)) else Raised
  }

  function Counted(rows: seq<SchemaRow>, id: nat, success: bool): seq<SchemaRow> {
    match FindId(rows, id)
    case None => rows
    case Some(i) =>
      rows[i := if success then rows[i].(successes := rows[i].successes + 1)
                else rows[i].(failures := rows[i].failures + 1)]
  }

  /** `INSERT ... ON CONFLICT DO UPDATE ... WHERE NOT reviewed_by_human`. */
  function Mapped(eventTypes: map<(string, string), Mapping>, key: (string, string), classification: string,
                  state: string): map<(string, string), Mapping> {
    if key in eventTypes && eventTypes[key].reviewed then eventTypes
    else eventTypes[key := Mapping(classification, state, false)]
  }

  /** The discoverer's own insert: `ON CONFLICT DO NOTHING`. */
  function MappedOnce(eventTypes: map<(string, string), Mapping>, key: (string, string), classification: string,
                      state: string): map<(string, string), Mapping> {
    if key in eventTypes then eventTypes else eventTypes[key := Mapping(classification, state, false)]
  }

  /** Counting adds one to the successes or to the failures of the row with the id, and changes nothing else. */
  lemma CountedAt(rows: seq<SchemaRow>, id: nat, success: bool, i: nat)
    requires RowsOk(rows) && i < |rows|
    ensures |Counted(rows, id, success)| == |rows|
    ensures var before, after := rows[i], Counted(rows, id, success)[i];
            && after == before.(successes := after.successes, failures := after.failures)
            && after.successes == before.successes + (if before.id == id && success then 1 else 0)
            && after.failures == before.failures + (if before.id == id && !success then 1 else 0)
  {
    var found := FindId(rows, id);
    if found.Some? && rows[i].id == id {
      assert found.value == i;
    }
  }

  // ----- What a lookup keeps seeing -----

  /** The document that a payload of this vendor and shape is extracted with. */
  function DocFor(rows: seq<SchemaRow>, vendorId: string, shape: set<Entry>): Option<SchemaDoc> {
    var best := BestOf(rows, vendorId, shape);
    if best.Some? then Some(best.value.doc) else None
  }

  /** Two rows that differ at most in their counters. */
  predicate AlikeRows(a: SchemaRow, b: SchemaRow) {
    a == b.(successes := a.successes, failures := a.failures)
  }

  /** Rows that do not answer, or differ only in their counters, do not show in a lookup. */
  lemma {:induction false} BestIgnores(a: seq<SchemaRow>, b: seq<SchemaRow>, vendorId: string, shape: set<Entry>)
    requires |a| == |b|
    requires forall i :: 0 <= i < |a| ==>
               || AlikeRows(a[i], b[i])
               || (!Answers(a[i], vendorId, shape) && !Answers(b[i], vendorId, shape))
    ensures BestOf(a, vendorId, shape).Some? <==> BestOf(b, vendorId, shape).Some?
    ensures BestOf(a, vendorId, shape).Some? ==>
              AlikeRows(BestOf(a, vendorId, shape).value, BestOf(b, vendorId, shape).value)
  {
    if a != [] {
      BestIgnores(a[..|a| - 1], b[..|b| - 1], vendorId, shape);
    }
  }

  /** A lookup for this vendor and shape sees the same row, up to its counters. */
  predicate SameBest(a: seq<SchemaRow>, b: seq<SchemaRow>, vendorId: string, shape: set<Entry>) {
    var before, after := BestOf(a, vendorId, shape), BestOf(b, vendorId, shape);
    (before.Some? <==> after.Some?) && (before.Some? ==> AlikeRows(before.value, after.value))
  }

  lemma CountingKeepsBest(rows: seq<SchemaRow>, id: nat, success: bool, vendorId: string, shape: set<Entry>)
    ensures SameBest(rows, Counted(rows, id, success), vendorId, shape)
    ensures KeyedRows(rows) ==> KeyedRows(Counted(rows, id, success))
    ensures RowsOk(rows) ==> RowsOk(Counted(rows, id, success))
  {
    BestIgnores(rows, Counted(rows, id, success), vendorId, shape);
  }

  lemma InsertKeepsOthers(rows: seq<SchemaRow>, row: SchemaRow, vendorId: string, shape: set<Entry>)
    requires !Answers(row, vendorId, shape)
    ensures SameBest(rows, rows + [row], vendorId, shape)
  {
    assert (rows + [row])[..|rows|] == rows;
  }

  lemma ReplacingKeepsOthers(rows: seq<SchemaRow>, i: nat, row: SchemaRow, vendorId: string, shape: set<Entry>)
    requires i < |rows| && !Answers(rows[i], vendorId, shape) && !Answers(row, vendorId, shape)
    ensures SameBest(rows, rows[i := row], vendorId, shape)
  {
    BestIgnores(rows, rows[i := row], vendorId, shape);
  }

  /** Persisting a document for one vendor and shape changes no lookup for another. */
  lemma PersistingKeepsOthers(rows: seq<SchemaRow>, id: nat, vendorId: string, shape: set<Entry>, doc: SchemaDoc,
                              vendorId': string, shape': set<Entry>)
    requires Persisted(rows, id, vendorId, shape, doc).Ok? && (vendorId != vendorId' || shape != shape')
    ensures SameBest(rows, Persisted(rows, id, vendorId, shape, doc).value.0, vendorId', shape')
  {
    match FindUnique(rows, vendorId, shape, 1) {
      case None =>
        InsertKeepsOthers(rows, SchemaRow(id, vendorId, shape, 1, doc, Provisional, 0, 0), vendorId', shape');
      case Some(i) =>
        ReplacingKeepsOthers(rows, i, rows[i].(doc := doc), vendorId', shape');
    }
  }

  lemma PersistingKeepsAllOthers(rows: seq<SchemaRow>, id: nat, vendorId: string, shape: set<Entry>, doc: SchemaDoc)
    ensures Persisted(rows, id, vendorId, shape, doc).Ok? ==>
              forall vendorId', shape' :: vendorId' != vendorId || shape' != shape ==>
                SameBest(rows, Persisted(rows, id, vendorId, shape, doc).value.0, vendorId', shape')
  {
    if Persisted(rows, id, vendorId, shape, doc).Ok? {
      forall vendorId', shape' | vendorId' != vendorId || shape' != shape
        ensures SameBest(rows, Persisted(rows, id, vendorId, shape, doc).value.0, vendorId', shape')
      {
        PersistingKeepsOthers(rows, id, vendorId, shape, doc, vendorId', shape');
      }
    }
  }

  lemma PersistingKeepsKeys(rows: seq<SchemaRow>, id: nat, vendorId: string, shape: set<Entry>, doc: SchemaDoc)
    requires KeyedRows(rows) && Persisted(rows, id, vendorId, shape, doc).Ok?
    ensures KeyedRows(Persisted(rows, id, vendorId, shape, doc).value.0)
  {
  }

  lemma PersistingKeepsIds(rows: seq<SchemaRow>, id: nat, vendorId: string, shape: set<Entry>, doc: SchemaDoc)
    requires RowsOk(rows) && (forall i :: 0 <= i < |rows| ==> rows[i].id < id)
    requires Persisted(rows, id, vendorId, shape, doc).Ok?
    ensures var rows' := Persisted(rows, id, vendorId, shape, doc).value.0;
            RowsOk(rows') && forall i :: 0 <= i < |rows'| ==> rows'[i].id < id + 1
  {
    PersistingKeepsKeys(rows, id, vendorId, shape, doc);
  }

  // ----- What persisting does to its own lookup -----

  /** The upsert of the discoverer may overwrite this row. */
  predicate Replaceable(row: SchemaRow) {
    row.status == Provisional && row.version == 1
  }

  lemma KeyedPrefix(rows: seq<SchemaRow>)
    requires KeyedRows(rows) && rows != []
    ensures KeyedRows(rows[..|rows| - 1])
  {
  }

  /** A new document in a row shows in the lookup exactly when the row is the one that is found. */
  lemma {:induction false} BestAfterReplacing(rows: seq<SchemaRow>, i: nat, doc: SchemaDoc, vendorId: string,
                                              shape: set<Entry>)
    requires KeyedRows(rows) && i < |rows| && Answers(rows[i], vendorId, shape)
    ensures var best := BestOf(rows, vendorId, shape);
            && best.Some?
            && BestOf(rows[i := rows[i].(doc := doc)], vendorId, shape) ==
               if best == Some(rows[i]) then Some(rows[i].(doc := doc)) else best
  {
    var n := |rows| - 1;
    var front := rows[..n];
    var rows' := rows[i := rows[i].(doc := doc)];
    BestIsFirst(front, vendorId, shape);
    if i == n {
      assert rows'[..n] == front;
    } else {
      KeyedPrefix(rows);
      BestAfterReplacing(front, i, doc, vendorId, shape);
      assert rows'[..n] == front[i := front[i].(doc := doc)] && rows'[n] == rows[n];
      assert !SameUnique(rows[i], rows[n]);
    }
  }

  lemma BestAfterInserting(rows: seq<SchemaRow>, row: SchemaRow, vendorId: string, shape: set<Entry>)
    requires KeyedRows(rows) && Replaceable(row) && Answers(row, vendorId, shape)
    requires FindUnique(rows, vendorId, shape, 1).None?
    ensures var best := BestOf(rows, vendorId, shape);
            && (best.Some? ==> !Replaceable(best.value))
            && BestOf(rows + [row], vendorId, shape) == if best.None? then Some(row) else best
  {
    assert (rows + [row])[..|rows|] == rows;
    BestIsFirst(rows, vendorId, shape);
  }

  /** What a lookup sees after the discoverer's upsert, in every case: the new row where none answered, the new
      document where the row found is a provisional version 1, and what it saw before otherwise. The upsert
      raises only where it could not have shown. */
  lemma BestAfterPersisting(rows: seq<SchemaRow>, id: nat, vendorId: string, shape: set<Entry>, doc: SchemaDoc)
    requires KeyedRows(rows)
    ensures var best, persisted := BestOf(rows, vendorId, shape), Persisted(rows, id, vendorId, shape, doc);
            && (persisted.Raised? ==> best.None? || !Replaceable(best.value))
            && (persisted.Ok? ==>
                  BestOf(persisted.value.0, vendorId, shape) ==
                  if best.None? then Some(SchemaRow(id, vendorId, shape, 1, doc, Provisional, 0, 0))
                  else if Replaceable(best.value) then Some(best.value.(doc := doc))
                  else best)
  {
    BestIsFirst(rows, vendorId, shape);
    match FindUnique(rows, vendorId, shape, 1) {
      case None =>
        BestAfterInserting(rows, SchemaRow(id, vendorId, shape, 1, doc, Provisional, 0, 0), vendorId, shape);
      case Some(i) =>
        FoundIsTheVersion(rows, vendorId, shape, i);
        if rows[i].status == Provisional {
          BestAfterReplacing(rows, i, doc, vendorId, shape);
        }
    }
  }

  /** A provisional version 1 that a lookup finds is the row that the upsert conflicts with. */
  lemma FoundIsTheVersion(rows: seq<SchemaRow>, vendorId: string, shape: set<Entry>, i: nat)
    requires KeyedRows(rows) && FindUnique(rows, vendorId, shape, 1) == Some(i)
    ensures var best := BestOf(rows, vendorId, shape);
            best.Some? ==> (Replaceable(best.value) <==> best == Some(rows[i]) && rows[i].status == Provisional)
  {
    BestIsFirst(rows, vendorId, shape);
    var best := BestOf(rows, vendorId, shape);
    if best.Some? {
      var j :| 0 <= j < |rows| && rows[j] == best.value;
      if j < i {
        assert !SameUnique(rows[j], rows[i]);
      } else if i < j {
        assert !SameUnique(rows[i], rows[j]);
      }
    }
  }

  // ----- Event-type mappings over runs -----

  /** A write of either kind. */
  datatype MappingWrite = MappingWrite(key: (string, string), classification: string, state: string, once: bool)

  function Written(eventTypes: map<(string, string), Mapping>, w: MappingWrite): map<(string, string), Mapping> {
    if w.once then MappedOnce(eventTypes, w.key, w.classification, w.state)
    else Mapped(eventTypes, w.key, w.classification, w.state)
  }

  function WrittenAll(eventTypes: map<(string, string), Mapping>, writes: seq<MappingWrite>)
    : map<(string, string), Mapping> {
    if writes == [] then eventTypes
    else Written(WrittenAll(eventTypes, writes[..|writes| - 1]), writes[|writes| - 1])
  }

  function MappingFor(eventTypes: map<(string, string), Mapping>, key: (string, string)): Option<Mapping> {
    if key in eventTypes then Some(eventTypes[key]) else None
  }

  /** The last write that may overwrite the key's mapping, -1 if there is none. */
  function LastOverwrite(writes: seq<MappingWrite>, key: (string, string)): (i: int)
    ensures -1 <= i < |writes| && (i >= 0 ==> writes[i].key == key && !writes[i].once)
    ensures forall j :: i < j < |writes| && writes[j].key == key ==> writes[j].once
  {
    if writes == [] then -1
    else
      var n := |writes| - 1;
      if writes[n].key == key && !writes[n].once then n else LastOverwrite(writes[..n], key)
  }

  /** The first write for the key, -1 if there is none. */
  function FirstWrite(writes: seq<MappingWrite>, key: (string, string)): (i: int)
    ensures -1 <= i < |writes| && (i >= 0 ==> writes[i].key == key)
    ensures forall j :: 0 <= j < (if i < 0 then |writes| else i) ==> writes[j].key != key
  {
    if writes == [] then -1
    else
      var n := |writes| - 1;
      var i := FirstWrite(writes[..n], key);
      if i >= 0 then i else if writes[n].key == key then n else -1
  }

  function MappingOf(w: MappingWrite): Mapping {
    Mapping(w.classification, w.state, false)
  }

  predicate Locked(mapping: Option<Mapping>) {
    mapping.Some? && mapping.value.reviewed
  }

  /** What a lookup sees behind a run of writes: a reviewed mapping for ever, otherwise the last overwriting write,
      otherwise the mapping that was there, otherwise the first write. */
  function Seen(before: Option<Mapping>, writes: seq<MappingWrite>, key: (string, string)): Option<Mapping> {
    var last, first := LastOverwrite(writes, key), FirstWrite(writes, key);
    if Locked(before) then before
    else if last >= 0 then Some(MappingOf(writes[last]))
    else if before.Some? then before
    else if first >= 0 then Some(MappingOf(writes[first]))
    else None
  }

  lemma SeenSnoc(before: Option<Mapping>, writes: seq<MappingWrite>, key: (string, string))
    requires writes != []
    ensures var w, between := writes[|writes| - 1], Seen(before, writes[..|writes| - 1], key);
            Seen(before, writes, key) ==
            if w.key != key || Locked(between) || (w.once && between.Some?) then between else Some(MappingOf(w))
  {
  }

  /** After any run of writes by both paths a lookup sees the right one. */
  lemma {:induction false} LookupSeesTheRightWrite(eventTypes: map<(string, string), Mapping>,
                                                   writes: seq<MappingWrite>, key: (string, string))
    ensures MappingFor(WrittenAll(eventTypes, writes), key) == Seen(MappingFor(eventTypes, key), writes, key)
  {
    if writes != [] {
      var n := |writes| - 1;
      LookupSeesTheRightWrite(eventTypes, writes[..n], key);
      OneWrite(WrittenAll(eventTypes, writes[..n]), writes[n], key);
      SeenSnoc(MappingFor(eventTypes, key), writes, key);
    }
  }

  lemma OneWrite(eventTypes: map<(string, string), Mapping>, w: MappingWrite, key: (string, string))
    ensures var before, after := MappingFor(eventTypes, key), MappingFor(Written(eventTypes, w), key);
            after == if w.key != key || Locked(before) || (w.once && before.Some?) then before else Some(MappingOf(w))
  {
  }

  // ----- The registry itself -----

  class SchemaRegistry {
    var known: Knowledge
    var nextId: nat

    ghost predicate Valid()
      reads this
    {
      RowsOk(known.rows) && forall i :: 0 <= i < |known.rows| ==> known.rows[i].id < nextId
    }

    constructor ()
      ensures Valid() && known == Knowledge([], map[])
    {
      known, nextId := Knowledge([], map[]), 0;
    }

    /** `lookup`. */
    method Lookup(vendorId: string, payload: Json) returns (row: Option<SchemaRow>)
      requires Valid()
      ensures row == BestOf(known.rows, vendorId, FingerprintOf(payload, {}))
    {
      var shape := StructuralFingerprint(payload, {});
      row := None;
      var rows := known.rows;
      for i := 0 to |rows|
        invariant row == BestOf(rows[..i], vendorId, shape)
      {
        assert rows[..i + 1][..i] == rows[..i];
        if Answers(rows[i], vendorId, shape) && (row.None? || Before(rows[i], row.value)) {
          row := Some(rows[i]);
        }
      }
      assert rows[..|rows|] == rows;
    }

    /** `lookup_event_type`. */
    method LookupEventType(vendorId: string, raw: string) returns (mapping: Option<Mapping>)
      ensures mapping.Some? <==> (vendorId, raw) in known.eventTypes
      ensures mapping.Some? ==> known.eventTypes[(vendorId, raw)] == mapping.value
    {
      if (vendorId, raw) !in known.eventTypes {
        return None;
      }
      return Some(known.eventTypes[(vendorId, raw)]);
    }

    /** `persist_event_type`: the next lookup of the raw type returns the mapping that a person has reviewed, if
        there is one, and the new mapping otherwise; every other lookup returns what it returned before. */
    method PersistEventType(vendorId: string, raw: string, classification: string, state: string)
      requires Valid()
      modifies `known
      ensures Valid() && known.rows == old(known.rows)
      ensures known.eventTypes == Mapped(old(known.eventTypes), (vendorId, raw), classification, state)
      ensures var before := MappingFor(old(known.eventTypes), (vendorId, raw));
              MappingFor(known.eventTypes, (vendorId, raw)) ==
              if before.Some? && before.value.reviewed then before else Some(Mapping(classification, state, false))
      ensures forall key :: key != (vendorId, raw) ==>
                MappingFor(known.eventTypes, key) == MappingFor(old(known.eventTypes), key)
    {
      var key := (vendorId, raw);
      if key in known.eventTypes && known.eventTypes[key].reviewed {
        return;
      }
      known := known.(eventTypes := known.eventTypes[key := Mapping(classification, state, false)]);
    }

    /** `increment_success` and `increment_failure`: the counters change, and no lookup does. */
    method Increment(id: nat, success: bool)
      requires Valid()
      modifies `known
      ensures Valid() && known == old(known).(rows := Counted(old(known.rows), id, success))
      ensures forall vendorId, shape :: SameBest(old(known.rows), known.rows, vendorId, shape)
    {
      ghost var rows := known.rows;
      known := known.(rows := Counted(known.rows, id, success));
      forall vendorId, shape
        ensures SameBest(rows, known.rows, vendorId, shape)
        ensures RowsOk(known.rows)
      {
        CountingKeepsBest(rows, id, success, vendorId, shape);
      }
    }

    /** `_persist`: the next lookup returns the document where none was found before or the one found was a provisional
        version 1, and what it returned before otherwise; it raises only in that last case, or behind a version 1 that
        no lookup finds. Every other lookup returns what it returned before. */
    method PersistSchema(vendorId: string, shape: set<Entry>, doc: SchemaDoc) returns (id: Result<nat>)
      requires Valid()
      modifies this
      ensures Valid() && known.eventTypes == old(known.eventTypes)
      ensures match Persisted(old(known.rows), old(nextId), vendorId, shape, doc)
              case Ok((rows, rowId)) => id == Ok(rowId) && known.rows == rows && nextId == old(nextId) + 1
              case Raised => id == Raised && known == old(known) && nextId == old(nextId)
      ensures var before := BestOf(old(known.rows), vendorId, shape);
              if id.Ok? && (before.None? || Replaceable(before.value))
              then DocFor(known.rows, vendorId, shape) == Some(doc)
              else BestOf(known.rows, vendorId, shape) == before && (before.Some? ==> !Replaceable(before.value))
      ensures forall vendorId', shape' :: vendorId' != vendorId || shape' != shape ==>
                SameBest(old(known.rows), known.rows, vendorId', shape')
    {
      ghost var before := known.rows;
      BestAfterPersisting(before, nextId, vendorId, shape, doc);
      PersistingKeepsAllOthers(before, nextId, vendorId, shape, doc);
      match Persisted(known.rows, nextId, vendorId, shape, doc) {
        case Ok((rows, rowId)) =>
          PersistingKeepsIds(before, nextId, vendorId, shape, doc);
          known := known.(rows := rows);
          nextId := nextId + 1;
          id := Ok(rowId);
        case Raised =>
          id := Raised;
      }
    }

    /** `_persist_event_type`: the next lookup of the raw type returns the mapping that was there, if there was
        one, and the new mapping otherwise; every other lookup returns what it returned before. */
    method PersistEventTypeOnce(vendorId: string, raw: string, classification: string, state: string)
      requires Valid()
      modifies `known
      ensures Valid() && known.rows == old(known.rows)
      ensures known.eventTypes == MappedOnce(old(known.eventTypes), (vendorId, raw), classification, state)
      ensures var before := MappingFor(old(known.eventTypes), (vendorId, raw));
              MappingFor(known.eventTypes, (vendorId, raw)) ==
              if before.Some? then before else Some(Mapping(classification, state, false))
      ensures forall key :: key != (vendorId, raw) ==>
                MappingFor(known.eventTypes, key) == MappingFor(old(known.eventTypes), key)
    {
      var key := (vendorId, raw);
      if key !in known.eventTypes {
        known := known.(eventTypes := known.eventTypes[key := Mapping(classification, state, false)]);
      }
    }
  }
}
