/** The race on a mapping: two jobs ask about one raw type, the first answer is stored and serves, and the second one,
    arriving late, replaces it by a state that its classification does not know. */
module LateAnswer {
  import opened Prelude
  import opened Json
  import opened Fingerprint
  import opened Adapter
  import opened Registry
  import opened Learning
  import opened PathA
  import opened LearnedRuns
  import opened Traffic
  import opened Learners
  import opened SharedLearning

  /** The document is stored for the vendor and shape, and the raw type has no mapping yet. */
  ghost predicate NewType(known: Knowledge, vendorId: string, shape: set<Entry>, doc: SchemaDoc, raw: string) {
    DocFor(known.rows, vendorId, shape) == Some(doc) && (vendorId, raw) !in known.eventTypes && raw != ""
  }

  lemma RawOfConforming(world: World, doc: SchemaDoc, raw: string, d: Delivery, row: SchemaRow)
    requires Conforms(world, doc, {raw}, d) && raw != "" && row.doc == doc
    requires doc.classification == "shipment" || doc.classification == "invoice"
    ensures RawTypeIn(world, d.payload, doc) == Ok(Some(raw)) && FirstPhase(world, d, row) == Matched(row, raw)
  {
    FirstPhaseOfConforming(world, d, row);
  }

  lemma UnknownStateIsNothing(world: World, d: Delivery, doc: SchemaDoc, kind: string, state: string)
    requires HasEssentials(world, d.payload, doc.fields) && !Usable(kind, state)
    requires kind != "" && kind != "unclassified" && RawTypeIn(world, d.payload, doc).Ok?
    requires doc.fields.eventType.Some? && doc.fields.eventType.value.Path?
    ensures var r := Extract(world, d, doc, Some(state), Some(kind)); r.Ok? && r.value.NotExtracted?
  {
  }

  /** With a state that its classification does not know, Path A gives up on a conforming payload. */
  lemma UnusableGivesUp(world: World, first: Delivery, output: seq<Member>, doc: SchemaDoc, raws: set<string>,
                        d: Delivery, row: SchemaRow, mapping: Mapping)
    requires Discovered(world, first, output, doc) && SameShape(first.payload, d.payload)
    requires Conforms(world, doc, raws, d) && row.doc == doc
    requires !Usable(KindFor(doc, mapping), mapping.state) && mapping.classification != "unclassified"
    ensures SecondPhase(world, d, row, mapping.classification, mapping.state) == GivingUp(row)
  {
    InferredId(world, first.payload, output, doc);
    EssentialsStay(world, first, output, doc, d.payload);
    UnknownStateIsNothing(world, d, doc, KindFor(doc, mapping), mapping.state);
    assert Extract(world, d, doc, Some(mapping.state), Some(mapping.classification)) ==
           Extract(world, d, doc, Some(mapping.state), Some(KindFor(doc, mapping)));
  }

  function AskedJob(d: Delivery, row: SchemaRow, raw: string): Job {
    Job(d, 1, Some(row), None, Unmapped(row, raw))
  }

  /** A job of the new raw type finds the row, finds no mapping, and asks. */
  lemma NewTypeAsks(world: World, s: Sys, w: nat, vendorId: string, shape: set<Entry>, doc: SchemaDoc, raw: string,
                    d: Delivery)
    requires w < |s.jobs| && s.jobs[w] == Job(d, 0, None, None, Received)
    requires NewType(s.known, vendorId, shape, doc, raw) && Concerns(world, doc, {raw}, vendorId, shape, d)
    requires doc.classification == "shipment" || doc.classification == "invoice"
    ensures Executable(world, s, [Step(w), Step(w)])
    ensures Exec(world, s, [Step(w), Step(w)]) ==
            s.(jobs := s.jobs[w := AskedJob(d, BestOf(s.known.rows, vendorId, shape).value, raw)])
  {
    var row := BestOf(s.known.rows, vendorId, shape).value;
    RawOfConforming(world, doc, raw, d, row);
    var s' := Next(world, s, Step(w));
    assert s' == s.(jobs := s.jobs[w := Job(d, 0, Some(row), None, Matched(row, raw))]);
    ExecOne(world, s', Step(w));
    ExecCons(world, s, Step(w), [Step(w)]);
    assert [Step(w)] + [Step(w)] == [Step(w), Step(w)];
    assert Next(world, s', Step(w)).jobs == s.jobs[w := AskedJob(d, row, raw)];
  }

  /** A delivery begins and asks. */
  lemma OneAsks(world: World, s: Sys, vendorId: string, shape: set<Entry>, doc: SchemaDoc, raw: string, d: Delivery)
      returns (actions: seq<Action>)
    requires NewType(s.known, vendorId, shape, doc, raw) && Concerns(world, doc, {raw}, vendorId, shape, d)
    requires doc.classification == "shipment" || doc.classification == "invoice"
    ensures Executable(world, s, actions)
    ensures Exec(world, s, actions) ==
            s.(jobs := s.jobs + [AskedJob(d, BestOf(s.known.rows, vendorId, shape).value, raw)])
  {
    var n, s' := |s.jobs|, Next(world, s, Begin(d));
    NewTypeAsks(world, s', n, vendorId, shape, doc, raw, d);
    ExecCons(world, s, Begin(d), [Step(n), Step(n)]);
    actions := [Begin(d)] + [Step(n), Step(n)];
    assert Exec(world, s, actions).jobs ==
           s.jobs + [AskedJob(d, BestOf(s.known.rows, vendorId, shape).value, raw)];
  }

  /** An answer comes and is stored. */
  lemma AnswerIsStored(world: World, s: Sys, w: nat, kind: string, state: string) returns (actions: seq<Action>)
    requires w < |s.jobs| && s.jobs[w].phase.Unmapped?
    ensures actions == [Classify(w, Ok(Some((kind, state)))), Step(w)] && Executable(world, s, actions)
    ensures var key, end := (s.jobs[w].d.vendorId, s.jobs[w].phase.raw), Exec(world, s, actions);
            && end.known == s.known.(eventTypes := Mapped(s.known.eventTypes, key, kind, state))
            && |end.jobs| == |s.jobs| && forall v :: 0 <= v < |s.jobs| && v != w ==> end.jobs[v] == s.jobs[v]
  {
    var reply := Classify(w, Ok(Some((kind, state))));
    var s' := Next(world, s, reply);
    assert s'.jobs[w].phase == Classified(s.jobs[w].phase.row, s.jobs[w].phase.raw, kind, state);
    ExecOne(world, s', Step(w));
    ExecCons(world, s, reply, [Step(w)]);
    actions := [reply, Step(w)];
    assert [reply] + [Step(w)] == actions;
  }

  /** A delivery whose two passes end in nothing begins, and asks. */
  lemma NothingAsks(world: World, s: Sys, d: Delivery, row: SchemaRow, raw: string) returns (actions: seq<Action>)
    requires BestOf(s.known.rows, d.vendorId, FingerprintOf(d.payload, {})) == Some(row)
    requires FirstPhase(world, d, row) == Matched(row, raw) && (d.vendorId, raw) in s.known.eventTypes
    requires var mapping := s.known.eventTypes[(d.vendorId, raw)];
             SecondPhase(world, d, row, mapping.classification, mapping.state) == GivingUp(row)
    ensures Executable(world, s, actions)
    ensures var n, end := |s.jobs|, Exec(world, s, actions);
            |end.jobs| == n + 1 && end.jobs[n].d == d && end.jobs[n].asked == 1 && end.jobs[n].phase == Universal
  {
    var n := |s.jobs|;
    var s1 := Next(world, s, Begin(d));
    var s2 := Next(world, s1, Step(n));
    assert s2.known == s.known && s2.jobs[n] == Job(d, 0, Some(row), None, Matched(row, raw));
    var s3 := Next(world, s2, Step(n));
    assert s3.jobs[n].phase == GivingUp(row) && s3.jobs[n].asked == 0 && s3.jobs[n].d == d;
    ExecOne(world, s3, Step(n));
    ExecCons(world, s2, Step(n), [Step(n)]);
    ExecCons(world, s1, Step(n), [Step(n)] + [Step(n)]);
    ExecCons(world, s, Begin(d), [Step(n)] + ([Step(n)] + [Step(n)]));
    actions := [Begin(d)] + ([Step(n)] + ([Step(n)] + [Step(n)]));
  }

  /** Where the mapping cannot be used, a conforming payload costs a question. */
  lemma UnusableAsks(world: World, s: Sys, first: Delivery, output: seq<Member>, doc: SchemaDoc, raw: string,
                     d: Delivery) returns (actions: seq<Action>)
    requires Discovered(world, first, output, doc) && raw != ""
    requires DocFor(s.known.rows, first.vendorId, FingerprintOf(first.payload, {})) == Some(doc)
    requires (first.vendorId, raw) in s.known.eventTypes
    requires var mapping := s.known.eventTypes[(first.vendorId, raw)];
             !Usable(KindFor(doc, mapping), mapping.state) && mapping.classification != "unclassified"
    requires Concerns(world, doc, {raw}, first.vendorId, FingerprintOf(first.payload, {}), d)
    ensures Executable(world, s, actions)
    ensures var n, end := |s.jobs|, Exec(world, s, actions);
            |end.jobs| == n + 1 && end.jobs[n].d == d && end.jobs[n].asked == 1 && end.jobs[n].phase == Universal
  {
    var row := BestOf(s.known.rows, first.vendorId, FingerprintOf(first.payload, {})).value;
    InferredId(world, first.payload, output, doc);
    RawOfConforming(world, doc, raw, d, row);
    UnusableGivesUp(world, first, output, doc, {raw}, d, row, s.known.eventTypes[(first.vendorId, raw)]);
    actions := NothingAsks(world, s, d, row, raw);
  }

  /** Two deliveries of the new raw type ask, and the first answer is stored: the service is taught the raw type. */
  lemma FirstAnswerTeaches(world: World, s: Sys, vendorId: string, shape: set<Entry>, doc: SchemaDoc, raw: string,
                           a: Delivery, b: Delivery, good: Mapping) returns (actions: seq<Action>)
    requires NewType(s.known, vendorId, shape, doc, raw) && Usable(good.classification, good.state)
    requires Concerns(world, doc, {raw}, vendorId, shape, a) && Concerns(world, doc, {raw}, vendorId, shape, b)
    requires doc.classification == "shipment" || doc.classification == "invoice"
    ensures Executable(world, s, actions)
    ensures var n, end := |s.jobs|, Exec(world, s, actions);
            && Taught(end.known, vendorId, shape, doc, {raw}) && end.known.rows == s.known.rows
            && !end.known.eventTypes[(vendorId, raw)].reviewed
            && |end.jobs| == n + 2 && end.jobs[n + 1].phase.Unmapped?
            && end.jobs[n + 1].phase.raw == raw && end.jobs[n + 1].d == b
  {
    var n, key := |s.jobs|, (vendorId, raw);
    var one := OneAsks(world, s, vendorId, shape, doc, raw, a);
    var s1 := Exec(world, s, one);
    var two := OneAsks(world, s1, vendorId, shape, doc, raw, b);
    ExecAppend(world, s, one, two);
    var s2 := Exec(world, s, one + two);
    var stored := AnswerIsStored(world, s2, n, good.classification, good.state);
    ExecAppend(world, s, one + two, stored);
    actions := one + two + stored;
    var end := Exec(world, s, actions);
    assert end.jobs[n + 1] == s2.jobs[n + 1];
    assert end.known.eventTypes[key] == Mapping(good.classification, good.state, false);
  }

  /** A late answer stops the service, for every learned document, settled or not, and every raw type that is new. Some
      schedule leads to a state in which the service is taught the raw type; two more actions leave the rows as they
      are and replace the mapping; and after them a payload that conforms to the document costs a question. */
  lemma LateAnswerForgets(world: World, s: Sys, first: Delivery, output: seq<Member>, doc: SchemaDoc, raw: string,
                          a: Delivery, b: Delivery, c: Delivery, good: Mapping, bad: Mapping)
      returns (before: seq<Action>, late: seq<Action>, again: seq<Action>)
    requires Discovered(world, first, output, doc)
    requires NewType(s.known, first.vendorId, FingerprintOf(first.payload, {}), doc, raw)
    requires Concerns(world, doc, {raw}, first.vendorId, FingerprintOf(first.payload, {}), a)
    requires Concerns(world, doc, {raw}, first.vendorId, FingerprintOf(first.payload, {}), b)
    requires Concerns(world, doc, {raw}, first.vendorId, FingerprintOf(first.payload, {}), c)
    requires Usable(good.classification, good.state)
    requires !Usable(KindFor(doc, bad), bad.state) && bad.classification != "unclassified"
    ensures Executable(world, s, before) && |late| == 2
    ensures var shape, mid := FingerprintOf(first.payload, {}), Exec(world, s, before);
            && Taught(mid.known, first.vendorId, shape, doc, {raw}) && Executable(world, mid, late)
            && var end := Exec(world, mid, late);
               && end.known.rows == s.known.rows && Executable(world, end, again)
               && var jobs := Exec(world, end, again).jobs;
                  |jobs| == |end.jobs| + 1 && jobs[|end.jobs|].d == c && jobs[|end.jobs|].asked == 1
  {
    var n, shape := |s.jobs|, FingerprintOf(first.payload, {});
    InferredId(world, first.payload, output, doc);
    before := FirstAnswerTeaches(world, s, first.vendorId, shape, doc, raw, a, b, good);
    var mid := Exec(world, s, before);
    late := AnswerIsStored(world, mid, n + 1, bad.classification, bad.state);
    var end := Exec(world, mid, late);
    assert end.known.eventTypes[(first.vendorId, raw)] == Mapping(bad.classification, bad.state, false);
    again := UnusableAsks(world, end, first, output, doc, raw, c);
  }
}
