/** Whole deliveries against one entity: any sequence of events, with duplicates, in any order. */
module Runs {
  import opened Prelude
  import opened Canonical
  import opened Projection

  /** Every event of the delivery names the entity `key`. */
  predicate For(evs: seq<EntityEvent>, key: EntityKey) {
    forall i :: 0 <= i < |evs| ==> Key(evs[i]) == key
  }

  function Front<T>(s: seq<T>): seq<T>
    requires s != []
  {
    s[..|s| - 1]
  }

  function Last<T>(s: seq<T>): T
    requires s != []
  {
    s[|s| - 1]
  }

  /** The ledger after a delivery to an entity not seen before. */
  function Run(key: EntityKey, evs: seq<EntityEvent>): (l: Ledger)
    requires For(evs, key)
    ensures LedgerOf(l, key)
  {
    if evs == [] then EMPTY else Step(Run(key, Front(evs)), Last(evs))
  }

  lemma RunSnoc(key: EntityKey, evs: seq<EntityEvent>, ev: EntityEvent)
    requires For(evs, key) && Key(ev) == key
    ensures For(evs + [ev], key)
    ensures Run(key, evs + [ev]) == Step(Run(key, evs), ev)
  {
    assert Front(evs + [ev]) == evs;
  }

  function Ids(evs: seq<EntityEvent>): set<EventId> {
    set i | 0 <= i < |evs| :: evs[i].eventId
  }

  lemma IdsSnoc(evs: seq<EntityEvent>)
    requires evs != []
    ensures Ids(evs) == Ids(Front(evs)) + {Last(evs).eventId}
  {
    forall id | id in Ids(evs)
      ensures id in Ids(Front(evs)) + {Last(evs).eventId}
    {
      var i :| 0 <= i < |evs| && evs[i].eventId == id;
      if i < |evs| - 1 {
        assert Front(evs)[i].eventId == id;
      }
    }
    forall id | id in Ids(Front(evs))
      ensures id in Ids(evs)
    {
      var i :| 0 <= i < |Front(evs)| && Front(evs)[i].eventId == id;
      assert evs[i].eventId == id;
    }
    assert evs[|evs| - 1].eventId == Last(evs).eventId;
  }

  // ----- Duplicates -----

  /** The delivery with only the first occurrence of each event id kept. */
  function Firsts(evs: seq<EntityEvent>): seq<EntityEvent> {
    if evs == [] then []
    else if Last(evs).eventId in Ids(Front(evs)) then Firsts(Front(evs))
    else Firsts(Front(evs)) + [Last(evs)]
  }

  /** `applied_events` holds exactly the ids delivered so far. */
  lemma {:induction false} RecordedIds(key: EntityKey, evs: seq<EntityEvent>)
    requires For(evs, key)
    ensures Run(key, evs).applied.Keys == Ids(evs)
  {
    if evs != [] {
      RecordedIds(key, Front(evs));
      IdsSnoc(evs);
    }
  }

  lemma {:induction false} FirstsFor(key: EntityKey, evs: seq<EntityEvent>)
    requires For(evs, key)
    ensures For(Firsts(evs), key)
  {
    if evs != [] {
      FirstsFor(key, Front(evs));
    }
  }

  /** Duplicate deliveries change nothing: only first occurrences matter. */
  lemma {:induction false} OnlyFirstsMatter(key: EntityKey, evs: seq<EntityEvent>)
    requires For(evs, key)
    ensures For(Firsts(evs), key)
    ensures Run(key, evs) == Run(key, Firsts(evs))
  {
    FirstsFor(key, evs);
    if evs != [] {
      OnlyFirstsMatter(key, Front(evs));
      RecordedIds(key, Front(evs));
      if Last(evs).eventId !in Ids(Front(evs)) {
        RunSnoc(key, Firsts(Front(evs)), Last(evs));
      }
    }
  }

  /** Reprocessing recorded events, any number of times and in any order, is a no-op. */
  lemma {:induction false} ReprocessingIsNoOp(key: EntityKey, evs: seq<EntityEvent>, again: seq<EntityEvent>)
    requires For(evs, key) && For(again, key)
    requires Ids(again) <= Ids(evs)
    ensures For(evs + again, key)
    ensures Run(key, evs + again) == Run(key, evs)
  {
    if again == [] {
      assert evs + again == evs;
    } else {
      IdsSnoc(again);
      ReprocessingIsNoOp(key, evs, Front(again));
      RecordedIds(key, evs);
      assert evs + again == evs + Front(again) + [Last(again)];
      RunSnoc(key, evs + Front(again), Last(again));
    }
  }

  // ----- Histories -----

  /** The events that moved the row, in the order in which they did. */
  function Trace(key: EntityKey, evs: seq<EntityEvent>): (trace: seq<EntityEvent>)
    requires For(evs, key)
    ensures For(trace, key)
  {
    if evs == [] then []
    else
      var before := Trace(key, Front(evs));
      if StepOutcome(Run(key, Front(evs)), Last(evs)) in {AppliedInitial, Applied} then before + [Last(evs)]
      else before
  }

  function StaleIds(stale: seq<Stale>): set<EventId> {
    set i | 0 <= i < |stale| :: stale[i].eventId
  }

  function Version(l: Ledger): int {
    if l.row.Some? then l.row.value.version else 0
  }

  /** Every recorded event either moved the row or was logged, and did so exactly once. */
  lemma {:induction false} RecordedExactlyOnce(key: EntityKey, evs: seq<EntityEvent>)
    requires For(evs, key)
    ensures var l, trace := Run(key, evs), Trace(key, evs);
            && Ids(trace) + StaleIds(l.stale) == l.applied.Keys
            && Ids(trace) !! StaleIds(l.stale)
            && (forall i, j :: 0 <= i < j < |trace| ==> trace[i].eventId != trace[j].eventId)
            && (forall i, j :: 0 <= i < j < |l.stale| ==> l.stale[i].eventId != l.stale[j].eventId)
  {
    if evs != [] {
      var before, ev := Run(key, Front(evs)), Last(evs);
      RecordedExactlyOnce(key, Front(evs));
      if ev.eventId !in before.applied {
        if StepOutcome(before, ev) in {AppliedInitial, Applied} {
          IdsSnoc(Trace(key, evs));
          IdsContain(Trace(key, Front(evs)));
        } else {
          StaleIdsSnoc(before.stale, Last(Run(key, evs).stale));
          StaleIdsContain(before.stale);
        }
      }
    }
  }

  lemma IdsContain(evs: seq<EntityEvent>)
    ensures forall i :: 0 <= i < |evs| ==> evs[i].eventId in Ids(evs)
  {
  }

  lemma StaleIdsContain(stale: seq<Stale>)
    ensures forall i :: 0 <= i < |stale| ==> stale[i].eventId in StaleIds(stale)
  {
  }

  lemma StaleIdsSnoc(stale: seq<Stale>, entry: Stale)
    ensures StaleIds(stale + [entry]) == StaleIds(stale) + {entry.eventId}
  {
    var longer := stale + [entry];
    assert longer[|stale|] == entry;
    forall id | id in StaleIds(stale)
      ensures id in StaleIds(longer)
    {
      var i :| 0 <= i < |stale| && stale[i].eventId == id;
      assert longer[i].eventId == id;
    }
  }

  lemma NewKeyCounts(applied: map<EventId, State>, id: EventId, target: State)
    requires id !in applied
    ensures |applied[id := target]| == |applied| + 1
  {
    assert applied[id := target].Keys == applied.Keys + {id};
  }

  lemma StepCounts(l: Ledger, ev: EntityEvent)
    requires LedgerOf(l, Key(ev)) && ev.eventId !in l.applied
    ensures var l', moved := Step(l, ev), StepOutcome(l, ev) in {AppliedInitial, Applied};
            && |l'.applied| == |l.applied| + 1
            && Version(l') == Version(l) + (if moved then 1 else 0)
            && |l'.stale| == |l.stale| + (if moved then 0 else 1)
            && l'.row.Some?
  {
    NewKeyCounts(l.applied, ev.eventId, Target(ev));
  }

  /** Conservation: the ids recorded for an entity are as many as the row's version and the log entries
      together, and an entity has a row as soon as it has an event. */
  lemma {:induction false} Conservation(key: EntityKey, evs: seq<EntityEvent>)
    requires For(evs, key)
    ensures var l := Run(key, evs);
            && |l.applied| == Version(l) + |l.stale|
            && Version(l) == |Trace(key, evs)|
            && (l.row.Some? <==> evs != [])
  {
    if evs != [] {
      Conservation(key, Front(evs));
      if Last(evs).eventId !in Run(key, Front(evs)).applied {
        StepCounts(Run(key, Front(evs)), Last(evs));
      } else {
        RecordedIds(key, Front(evs));
      }
    }
  }

  /** Every older event in the log is strictly older than the row. */
  predicate OlderThanRow(l: Ledger) {
    && (l.stale != [] ==> l.row.Some?)
    && forall i :: 0 <= i < |l.stale| && l.stale[i].OlderThanLastApplied? ==>
         l.stale[i].eventTs < l.stale[i].currentTs <= l.row.value.lastTs
  }

  /** The log grows and the row's timestamp does not go back. */
  predicate Advances(l: Ledger, l': Ledger) {
    && l.stale <= l'.stale
    && (l.row.Some? ==> l'.row.Some? && l.row.value.lastTs <= l'.row.value.lastTs)
  }

  lemma StepAdvances(l: Ledger, ev: EntityEvent)
    requires LedgerOf(l, Key(ev)) && OlderThanRow(l)
    ensures Advances(l, Step(l, ev)) && OlderThanRow(Step(l, ev))
  {
  }

  /** Every logged older event is strictly older than the row, now and in every later state. */
  lemma {:induction false} OlderStaysOlder(key: EntityKey, evs: seq<EntityEvent>, upTo: nat)
    requires For(evs, key) && upTo <= |evs|
    ensures For(evs[..upTo], key)
    ensures Advances(Run(key, evs[..upTo]), Run(key, evs)) && OlderThanRow(Run(key, evs))
    decreases |evs|
  {
    if evs != [] {
      OlderStaysOlder(key, Front(evs), if upTo == |evs| then |evs| - 1 else upTo);
      StepAdvances(Run(key, Front(evs)), Last(evs));
      assert upTo < |evs| ==> Front(evs)[..upTo] == evs[..upTo];
      assert upTo == |evs| ==> evs[..upTo] == evs;
    }
  }

  /** The row shows the trace's last event, and the trace's timestamps never decrease. */
  predicate ShowsTrace(l: Ledger, trace: seq<EntityEvent>) {
    && (l.row.Some? <==> trace != [])
    && (trace != [] ==>
          && l.row.value.version == |trace|
          && l.row.value.state == Target(Last(trace))
          && l.row.value.lastTs == Last(trace).ts
          && l.row.value.lastEventId == Last(trace).eventId)
    && forall i :: 0 < i < |trace| ==>
         trace[i - 1].ts <= trace[i].ts && Accepts(Target(trace[i - 1]), Target(trace[i]))
  }

  lemma StepShowsTrace(l: Ledger, trace: seq<EntityEvent>, ev: EntityEvent)
    requires LedgerOf(l, Key(ev)) && ShowsTrace(l, trace)
    ensures ShowsTrace(Step(l, ev),
                       if StepOutcome(l, ev) in {AppliedInitial, Applied} then trace + [ev] else trace)
  {
  }

  /** The row is a function of the trace. */
  lemma {:induction false} RowShowsTrace(key: EntityKey, evs: seq<EntityEvent>)
    requires For(evs, key)
    ensures ShowsTrace(Run(key, evs), Trace(key, evs))
  {
    if evs != [] {
      RowShowsTrace(key, Front(evs));
      StepShowsTrace(Run(key, Front(evs)), Trace(key, Front(evs)), Last(evs));
    }
  }

  // ----- Merged columns -----

  /** `k` is last written at position `i` of the trace. */
  predicate LastWrittenAt(trace: seq<EntityEvent>, k: string, i: int) {
    && 0 <= i < |trace| && k in trace[i].refs
    && forall j :: i < j < |trace| ==> k !in trace[j].refs
  }

  /** The right-biased merge of the references of a history. */
  function MergedRefs(trace: seq<EntityEvent>): Refs {
    if trace == [] then map[] else MergedRefs(Front(trace)) + Last(trace).refs
  }

  /** The merge holds, for each key, what the latest event that carried the key said. */
  lemma {:induction false} MergedRefsAt(trace: seq<EntityEvent>, k: string)
    ensures k in MergedRefs(trace) <==> exists i :: LastWrittenAt(trace, k, i)
    ensures forall i :: LastWrittenAt(trace, k, i) ==> MergedRefs(trace)[k] == trace[i].refs[k]
  {
    if trace != [] {
      var n := |trace| - 1;
      MergedRefsAt(Front(trace), k);
      if k in Last(trace).refs {
        assert LastWrittenAt(trace, k, n);
        forall i | LastWrittenAt(trace, k, i)
          ensures i == n
        {
        }
      } else {
        forall i
          ensures LastWrittenAt(trace, k, i) <==> LastWrittenAt(Front(trace), k, i)
        {
          if LastWrittenAt(Front(trace), k, i) {
            assert trace[i] == Front(trace)[i];
          }
        }
      }
    }
  }

  function RefsIn(l: Ledger): Refs {
    if l.row.Some? then l.row.value.refs else map[]
  }

  lemma StepRefs(l: Ledger, ev: EntityEvent)
    requires LedgerOf(l, Key(ev))
    ensures RefsIn(Step(l, ev)) ==
            if StepOutcome(l, ev) in {AppliedInitial, Applied} then RefsIn(l) + ev.refs else RefsIn(l)
  {
    assert map[] + ev.refs == ev.refs;
  }

  lemma {:induction false} RowRefsAreMerged(key: EntityKey, evs: seq<EntityEvent>)
    requires For(evs, key)
    ensures RefsIn(Run(key, evs)) == MergedRefs(Trace(key, evs))
  {
    if evs != [] {
      RowRefsAreMerged(key, Front(evs));
      StepRefs(Run(key, Front(evs)), Last(evs));
      assert Front(Trace(key, Front(evs)) + [Last(evs)]) == Trace(key, Front(evs));
    }
  }

  /** `reference_ids` and `linked_references` hold, for each key, what the latest applied event that
      carried the key said, and no other keys. */
  lemma RefsAreRightBiasedMerge(key: EntityKey, evs: seq<EntityEvent>, k: string)
    requires For(evs, key) && evs != []
    ensures var row, trace := Run(key, evs).row, Trace(key, evs);
            && row.Some?
            && (k in row.value.refs <==> exists i :: LastWrittenAt(trace, k, i))
            && (forall i :: LastWrittenAt(trace, k, i) ==> row.value.refs[k] == trace[i].refs[k])
  {
    Conservation(key, evs);
    RowRefsAreMerged(key, evs);
    MergedRefsAt(Trace(key, evs), k);
  }

  /** The applied event at position `i` of the trace created the row or changed its state. */
  predicate ChangesState(trace: seq<EntityEvent>, i: int) {
    0 <= i < |trace| && (i == 0 || Target(trace[i]) != Target(trace[i - 1]))
  }

  /** Position `i` is the latest state change whose event carried the column. */
  predicate SetAt<T>(trace: seq<EntityEvent>, column: EntityEvent -> Option<T>, i: int) {
    && ChangesState(trace, i) && column(trace[i]).Some?
    && forall j :: i < j < |trace| && ChangesState(trace, j) ==> column(trace[j]).None?
  }

  /** What the initial and state-changing events of a history leave behind in a column. */
  function Left<T>(trace: seq<EntityEvent>, column: EntityEvent -> Option<T>): Option<T> {
    if trace == [] then None
    else if ChangesState(trace, |trace| - 1) then Coalesce(column(Last(trace)), Left(Front(trace), column))
    else Left(Front(trace), column)
  }

  lemma ChangesSnoc(trace: seq<EntityEvent>, ev: EntityEvent)
    ensures forall i :: 0 <= i < |trace| ==> (ChangesState(trace + [ev], i) <==> ChangesState(trace, i))
  {
  }

  lemma SetSnoc<T>(trace: seq<EntityEvent>, ev: EntityEvent, column: EntityEvent -> Option<T>, i: int)
    requires !(ChangesState(trace + [ev], |trace|) && column(ev).Some?)
    ensures SetAt(trace + [ev], column, i) <==> SetAt(trace, column, i)
  {
    ChangesSnoc(trace, ev);
    var longer := trace + [ev];
    if SetAt(longer, column, i) {
      assert i < |trace|;
      forall j | i < j < |trace| && ChangesState(trace, j)
        ensures column(trace[j]).None?
      {
        assert ChangesState(longer, j) && longer[j] == trace[j];
      }
    }
    if SetAt(trace, column, i) {
      forall j | i < j < |longer| && ChangesState(longer, j)
        ensures column(longer[j]).None?
      {
        if j < |trace| {
          assert ChangesState(trace, j) && longer[j] == trace[j];
        }
      }
    }
  }

  lemma {:induction false} LeftAt<T>(trace: seq<EntityEvent>, column: EntityEvent -> Option<T>)
    ensures Left(trace, column).Some? <==> exists i :: SetAt(trace, column, i)
    ensures forall i :: SetAt(trace, column, i) ==> Left(trace, column) == column(trace[i])
  {
    if trace != [] {
      var n := |trace| - 1;
      assert trace == Front(trace) + [trace[n]];
      LeftAt(Front(trace), column);
      if ChangesState(trace, n) && column(trace[n]).Some? {
        assert SetAt(trace, column, n);
        forall i | SetAt(trace, column, i)
          ensures i == n
        {
        }
      } else {
        forall i
          ensures SetAt(trace, column, i) <==> SetAt(Front(trace), column, i)
        {
          SetSnoc(Front(trace), trace[n], column, i);
        }
      }
    }
  }

  lemma LeftSnoc<T>(trace: seq<EntityEvent>, ev: EntityEvent, column: EntityEvent -> Option<T>)
    ensures Left(trace + [ev], column) ==
            if trace == [] || Target(ev) != Target(Last(trace)) then Coalesce(column(ev), Left(trace, column))
            else Left(trace, column)
  {
    var longer := trace + [ev];
    assert Front(longer) == trace && Last(longer) == ev;
    assert trace != [] ==> longer[|trace| - 1] == Last(trace);
  }

  /** The columns that a history leaves in the row of an entity. */
  function ColumnsLeft(key: EntityKey, trace: seq<EntityEvent>): Columns {
    if key.entityType == ShipmentEntity then ShipmentColumns(Left(trace, LocationOf))
    else
      var amount := Left(trace, AmountOf);
      InvoiceColumns(Currency(amount), AmountMinor(amount), Left(trace, DueAtOf))
  }

  lemma StepColumns(l: Ledger, ev: EntityEvent)
    requires LedgerOf(l, Key(ev)) && StepOutcome(l, ev) in {AppliedInitial, Applied}
    ensures Step(l, ev).row.Some?
    ensures Step(l, ev).row.value.columns ==
            if l.row.None? then InitialColumns(ev)
            else if Target(ev) == l.row.value.state then l.row.value.columns
            else MergedColumns(l.row.value.columns, ev)
  {
  }

  lemma ColumnsSnoc(key: EntityKey, trace: seq<EntityEvent>, ev: EntityEvent)
    requires Key(ev) == key
    ensures ColumnsLeft(key, trace + [ev]) ==
            if trace == [] then InitialColumns(ev)
            else if Target(ev) == Target(Last(trace)) then ColumnsLeft(key, trace)
            else MergedColumns(ColumnsLeft(key, trace), ev)
  {
    LeftSnoc(trace, ev, LocationOf);
    LeftSnoc(trace, ev, AmountOf);
    LeftSnoc(trace, ev, DueAtOf);
  }

  lemma {:induction false} RowColumnsAreLeft(key: EntityKey, evs: seq<EntityEvent>)
    requires For(evs, key)
    ensures Run(key, evs).row.Some? ==> Run(key, evs).row.value.columns == ColumnsLeft(key, Trace(key, evs))
  {
    if evs != [] {
      RowColumnsAreLeft(key, Front(evs));
      RowShowsTrace(key, Front(evs));
      if StepOutcome(Run(key, Front(evs)), Last(evs)) in {AppliedInitial, Applied} {
        StepColumns(Run(key, Front(evs)), Last(evs));
        ColumnsSnoc(key, Trace(key, Front(evs)), Last(evs));
      }
    }
  }

  /** An invoice's currency and amount always come from the same event: the latest initial or state-changing one that
      carried an amount. Its due date comes from the latest such event that carried one. */
  lemma AmountFromOneEvent(key: EntityKey, evs: seq<EntityEvent>)
    requires For(evs, key) && key.entityType == InvoiceEntity && evs != []
    ensures var row, trace := Run(key, evs).row, Trace(key, evs);
            && row.Some? && row.value.columns.InvoiceColumns?
            && (row.value.columns.currency.Some? <==> row.value.columns.amountMinor.Some?)
            && (row.value.columns.currency.Some? <==> exists i :: SetAt(trace, AmountOf, i))
            && (forall i :: SetAt(trace, AmountOf, i) ==>
                  && row.value.columns.currency == Some(trace[i].amount.value.currency)
                  && row.value.columns.amountMinor == Some(trace[i].amount.value.amountMinor))
            && (row.value.columns.dueAt.Some? <==> exists i :: SetAt(trace, DueAtOf, i))
            && (forall i :: SetAt(trace, DueAtOf, i) ==> row.value.columns.dueAt == trace[i].dueAt)
  {
    Conservation(key, evs);
    RowColumnsAreLeft(key, evs);
    LeftAt(Trace(key, evs), AmountOf);
    LeftAt(Trace(key, evs), DueAtOf);
  }

  /** Every applied event of a shipment changes its state. */
  lemma ShipmentAlwaysChanges(key: EntityKey, evs: seq<EntityEvent>, i: nat)
    requires For(evs, key) && key.entityType == ShipmentEntity && i < |Trace(key, evs)|
    ensures ChangesState(Trace(key, evs), i)
  {
    RowShowsTrace(key, evs);
    if i > 0 {
      var trace := Trace(key, evs);
      assert Accepts(Target(trace[i - 1]), Target(trace[i]));
      ShipmentAcceptsIff(Target(trace[i - 1]).shipment, Target(trace[i]).shipment);
    }
  }

  /** A shipment's location comes from the latest applied event that carried one. */
  lemma LocationFromLatest(key: EntityKey, evs: seq<EntityEvent>)
    requires For(evs, key) && key.entityType == ShipmentEntity && evs != []
    ensures var row, trace := Run(key, evs).row, Trace(key, evs);
            && row.Some? && row.value.columns.ShipmentColumns?
            && (forall i :: 0 <= i < |trace| ==> ChangesState(trace, i))
            && (row.value.columns.location.Some? <==> exists i :: SetAt(trace, LocationOf, i))
            && (forall i :: SetAt(trace, LocationOf, i) ==> row.value.columns.location == trace[i].location)
  {
    Conservation(key, evs);
    RowColumnsAreLeft(key, evs);
    LeftAt(Trace(key, evs), LocationOf);
    forall i | 0 <= i < |Trace(key, evs)|
      ensures ChangesState(Trace(key, evs), i)
    {
      ShipmentAlwaysChanges(key, evs, i);
    }
  }

  // ----- The logs -----

  /** A log entry is explained by position `j` of a delivery: the event that arrived there, and the row that it met. */
  predicate Explains(key: EntityKey, evs: seq<EntityEvent>, entry: Stale, j: int)
    requires For(evs, key)
  {
    && 0 <= j < |evs| && For(evs[..j], key) && evs[j].eventId == entry.eventId && Run(key, evs[..j]).row.Some?
    && var row := Run(key, evs[..j]).row.value;
       && entry.current == row.state
       && match entry
          case OlderThanLastApplied(_, _, currentTs, eventTs) =>
            currentTs == row.lastTs && eventTs == evs[j].ts && eventTs < currentTs
          case DisallowedTransition(_, _, target) =>
            target == Target(evs[j]) && !Follows(row.state, target) && row.lastTs <= evs[j].ts
  }

  lemma ExplainsLonger(key: EntityKey, evs: seq<EntityEvent>, entry: Stale, j: int)
    requires For(evs, key) && evs != [] && Explains(key, Front(evs), entry, j)
    ensures Explains(key, evs, entry, j)
  {
    assert Front(evs)[..j] == evs[..j];
  }

  lemma NewEntryIsExplained(key: EntityKey, evs: seq<EntityEvent>)
    requires For(evs, key) && evs != []
    requires Run(key, evs).stale != Run(key, Front(evs)).stale
    ensures Run(key, evs).stale != [] && Front(Run(key, evs).stale) == Run(key, Front(evs)).stale
    ensures Explains(key, evs, Last(Run(key, evs).stale), |evs| - 1)
  {
    assert evs[..|evs| - 1] == Front(evs);
    OutcomeIs(Run(key, Front(evs)), Last(evs));
  }

  /** Every log entry tells what happened: which event was turned away, which row it met, and why. */
  lemma {:induction false} LogTellsWhy(key: EntityKey, evs: seq<EntityEvent>, i: nat)
    requires For(evs, key) && i < |Run(key, evs).stale|
    ensures exists j :: Explains(key, evs, Run(key, evs).stale[i], j)
  {
    if evs != [] {
      var before, after := Run(key, Front(evs)).stale, Run(key, evs).stale;
      if after != before {
        NewEntryIsExplained(key, evs);
      }
      if after == before || i < |before| {
        LogTellsWhy(key, Front(evs), i);
        var j :| Explains(key, Front(evs), before[i], j);
        ExplainsLonger(key, evs, before[i], j);
      }
    }
  }

  /** `applied_events` records for each id the state that its first event was for. */
  lemma {:induction false} RecordedStates(key: EntityKey, evs: seq<EntityEvent>, i: nat)
    requires For(evs, key) && i < |evs| && forall j :: 0 <= j < i ==> evs[j].eventId != evs[i].eventId
    ensures evs[i].eventId in Run(key, evs).applied && Run(key, evs).applied[evs[i].eventId] == Target(evs[i])
  {
    RecordedIds(key, Front(evs));
    if i == |evs| - 1 {
      assert Last(evs).eventId !in Ids(Front(evs));
    } else {
      assert forall j :: 0 <= j < i ==> Front(evs)[j] == evs[j];
      RecordedStates(key, Front(evs), i);
    }
  }
}
