/** Many deliveries on their way through the pipeline at once. Every statement to the registry is one step, every
    reply of the orchestrator arrives when it likes, and any job may fall over anywhere. */
module Learners {
  import opened Prelude
  import opened Json
  import opened Canonical
  import opened Fingerprint
  import opened Adapter
  import opened Registry
  import opened Learning
  import opened PathA
  import opened LearnedRuns
  import opened Traffic

  datatype Phase =
    | Received                                                              // the row is looked up next
    | Matched(row: SchemaRow, raw: string)                                  // the mapping is looked up next
    | Unmapped(row: SchemaRow, raw: string)                                 // the raw type's meaning is awaited
    | Classified(row: SchemaRow, raw: string, kind: string, state: string)  // the new mapping is stored next
    | Counting(row: SchemaRow, event: Event)                                // the success is counted next
    | GivingUp(row: SchemaRow)                                              // the failure is counted next
    | Universal                                                             // the provider's event is awaited
    | Discovering(event: Event, doc: SchemaDoc, output: seq<Member>)        // the document is stored next
    | Noting(event: Event, raw: string, kind: string, state: string)        // its mapping is stored next
    | Finished(result: Result<Option<Event>>)

  /** A delivery, how often it asked the orchestrator, and what its two lookups returned. */
  datatype Job = Job(d: Delivery, asked: nat, row: Option<SchemaRow>, mapping: Option<Mapping>, phase: Phase)

  datatype Sys = Sys(known: Knowledge, nextId: nat, jobs: seq<Job>)

  datatype Action =
    | Begin(d: Delivery)
    | Step(w: nat)                              // the job's next statement to the registry
    | Classify(w: nat, answer: TypeAnswer)      // what the orchestrator says about a raw type
    | Answer(w: nat, b: PathB)                  // what Path B comes back with
    | Abort(w: nat)                             // an exception, a timeout or the end of the process

  // ----- One job -----

  /** After the row: the first pass. */
  function FirstPhase(world: World, d: Delivery, row: SchemaRow): Phase {
    match Extract(world, d, row.doc, None, None)
    case Raised => Finished(Raised)
    case Ok(first) =>
      if row.doc.classification == "unclassified" && first.Extracted? then Counting(row, first.event)
      else if first.raw.None? || first.raw.value == "" then GivingUp(row)
      else Matched(row, first.raw.value)
  }

  /** After the mapping: the second pass. */
  function SecondPhase(world: World, d: Delivery, row: SchemaRow, kind: string, state: string): Phase {
    match Extract(world, d, row.doc, Some(state), Some(kind))
    case Raised => Finished(Raised)
    case Ok(NotExtracted(_)) => GivingUp(row)
    case Ok(Extracted(event, _, _)) => Counting(row, event)
  }

  /** After the provider's event: whether there is a document to store. */
  function AnswerPhase(world: World, d: Delivery, b: PathB): Phase {
    match b
    case Answered(event, output) =>
      var doc := FreshDoc(world, d, b);
      if doc.Some? then Discovering(event, doc.value, output.value) else Finished(Ok(Some(event)))
    case Unreachable => Finished(Raised)
    case _ => Finished(Ok(None))
  }

  /** After the document: whether there is a mapping to store. */
  function NotePhase(world: World, d: Delivery, event: Event, doc: SchemaDoc, output: seq<Member>): Phase {
    var raw := RawTypeIn(world, d.payload, doc);
    match Get(output, "event_type")
    case Str(state) =>
      if raw.Raised? || raw.value.None? || state == "" || doc.classification == "unclassified" then
        Finished(Ok(Some(event)))
      else Noting(event, raw.value.value, doc.classification, state)
    case _ => Finished(Ok(Some(event)))
  }

  /** What the job's next statement writes. */
  function Write(known: Knowledge, nextId: nat, job: Job): Knowledge {
    match job.phase
    case Classified(_, raw, kind, state) =>
      known.(eventTypes := Mapped(known.eventTypes, (job.d.vendorId, raw), kind, state))
    case Counting(row, _) => known.(rows := Counted(known.rows, row.id, true))
    case GivingUp(row) => known.(rows := Counted(known.rows, row.id, false))
    case Discovering(_, doc, _) =>
      var persisted := Persisted(known.rows, nextId, job.d.vendorId, FingerprintOf(job.d.payload, {}), doc);
      if persisted.Ok? then known.(rows := persisted.value.0) else known
    case Noting(_, raw, kind, state) =>
      known.(eventTypes := MappedOnce(known.eventTypes, (job.d.vendorId, raw), kind, state))
    case _ => known
  }

  function NextId(known: Knowledge, nextId: nat, job: Job): nat {
    if job.phase.Discovering?
       && Persisted(known.rows, nextId, job.d.vendorId, FingerprintOf(job.d.payload, {}), job.phase.doc).Ok?
    then nextId + 1 else nextId
  }

  /** Where the job stands after it. */
  function Advanced(world: World, known: Knowledge, nextId: nat, job: Job): Job {
    match job.phase
    case Received =>
      var row := BestOf(known.rows, job.d.vendorId, FingerprintOf(job.d.payload, {}));
      if row.None? then job.(asked := job.asked + 1, phase := Universal)
      else job.(row := row, phase := FirstPhase(world, job.d, row.value))
    case Matched(row, raw) =>
      var mapping := MappingFor(known.eventTypes, (job.d.vendorId, raw));
      if mapping.None? then job.(asked := job.asked + 1, phase := Unmapped(row, raw))
      else job.(mapping := mapping,
                phase := SecondPhase(world, job.d, row, mapping.value.classification, mapping.value.state))
    case Classified(row, _, kind, state) => job.(phase := SecondPhase(world, job.d, row, kind, state))
    case Counting(_, event) => job.(phase := Finished(Ok(Some(event))))
    case GivingUp(_) => job.(asked := job.asked + 1, phase := Universal)
    case Discovering(event, doc, output) =>
      var persisted := Persisted(known.rows, nextId, job.d.vendorId, FingerprintOf(job.d.payload, {}), doc);
      job.(phase := if persisted.Ok? then NotePhase(world, job.d, event, doc, output) else Finished(Ok(Some(event))))
    case Noting(event, _, _, _) => job.(phase := Finished(Ok(Some(event))))
    case _ => job
  }

  // ----- All of them -----

  predicate Enabled(s: Sys, a: Action) {
    if a.Begin? then true
    else if a.w >= |s.jobs| then false
    else
      var phase := s.jobs[a.w].phase;
      match a
      case Step(_) => !phase.Unmapped? && !phase.Universal? && !phase.Finished?
      case Classify(_, _) => phase.Unmapped?
      case Answer(_, _) => phase.Universal?
      case Abort(_) => !phase.Finished?
  }

  function Replied(world: World, job: Job, a: Action): Job
    requires (a.Classify? && job.phase.Unmapped?) || (a.Answer? && job.phase.Universal?) || a.Abort?
  {
    match a
    case Classify(_, Raised) => job.(phase := Finished(Raised))
    case Classify(_, Ok(None)) => job.(phase := GivingUp(job.phase.row))
    case Classify(_, Ok(Some((kind, state)))) => job.(phase := Classified(job.phase.row, job.phase.raw, kind, state))
    case Answer(_, b) => job.(phase := AnswerPhase(world, job.d, b))
    case Abort(_) => job.(phase := Finished(Raised))
  }

  function Next(world: World, s: Sys, a: Action): (s': Sys)
    requires Enabled(s, a)
    ensures |s.jobs| <= |s'.jobs|
  {
    match a
    case Begin(d) => s.(jobs := s.jobs + [Job(d, 0, None, None, Received)])
    case Step(w) =>
      Sys(Write(s.known, s.nextId, s.jobs[w]), NextId(s.known, s.nextId, s.jobs[w]),
          s.jobs[w := Advanced(world, s.known, s.nextId, s.jobs[w])])
    case _ => s.(jobs := s.jobs[a.w := Replied(world, s.jobs[a.w], a)])
  }

  predicate Executable(world: World, s: Sys, actions: seq<Action>)
    decreases |actions|
  {
    actions == [] || (Enabled(s, actions[0]) && Executable(world, Next(world, s, actions[0]), actions[1..]))
  }

  function Exec(world: World, s: Sys, actions: seq<Action>): (s': Sys)
    requires Executable(world, s, actions)
    ensures |s.jobs| <= |s'.jobs|
    decreases |actions|
  {
    if actions == [] then s else Exec(world, Next(world, s, actions[0]), actions[1..])
  }

  lemma ExecOne(world: World, s: Sys, a: Action)
    requires Enabled(s, a)
    ensures Executable(world, s, [a]) && Exec(world, s, [a]) == Next(world, s, a)
  {
    assert [a][1..] == [];
  }

  lemma ExecCons(world: World, s: Sys, a: Action, actions: seq<Action>)
    requires Enabled(s, a) && Executable(world, Next(world, s, a), actions)
    ensures Executable(world, s, [a] + actions)
    ensures Exec(world, s, [a] + actions) == Exec(world, Next(world, s, a), actions)
  {
    assert ([a] + actions)[0] == a && ([a] + actions)[1..] == actions;
  }

  lemma {:induction false} JobsKeepDeliveries(world: World, s: Sys, actions: seq<Action>, w: nat)
    requires Executable(world, s, actions) && w < |s.jobs|
    ensures Exec(world, s, actions).jobs[w].d == s.jobs[w].d
    decreases |actions|
  {
    if actions != [] {
      JobsKeepDeliveries(world, Next(world, s, actions[0]), actions[1..], w);
    }
  }

  lemma {:induction false} ExecAppend(world: World, s: Sys, first: seq<Action>, later: seq<Action>)
    requires Executable(world, s, first) && Executable(world, Exec(world, s, first), later)
    ensures Executable(world, s, first + later)
    ensures Exec(world, s, first + later) == Exec(world, Exec(world, s, first), later)
    decreases |first|
  {
    if first == [] {
      assert first + later == later;
    } else {
      ExecAppend(world, Next(world, s, first[0]), first[1..], later);
      assert (first + later)[0] == first[0] && (first + later)[1..] == first[1..] + later;
    }
  }

  // ----- What a job's end says about its lookups -----

  /** Where Path A ends by itself, given what its lookups returned. */
  function Verdict(world: World, d: Delivery, row: SchemaRow, mapping: Option<Mapping>): Phase {
    var first := FirstPhase(world, d, row);
    if first.Matched? then
      if mapping.None? then Unmapped(row, first.raw)
      else SecondPhase(world, d, row, mapping.value.classification, mapping.value.state)
    else first
  }

  /** A job follows from its lookups as long as nobody was asked, and was asked for only where Path A had to. */
  predicate Traced(world: World, job: Job) {
    && (job.asked == 0 ==>
          match job.phase
          case Received => job.row.None? && job.mapping.None?
          case Matched(row, _) =>
            job.row == Some(row) && job.mapping.None? && FirstPhase(world, job.d, row) == job.phase
          case Counting(row, _) => job.row == Some(row) && Verdict(world, job.d, row, job.mapping) == job.phase
          case GivingUp(row) => job.row == Some(row) && Verdict(world, job.d, row, job.mapping) == job.phase
          case Finished(Ok(event)) =>
            event.Some? && job.row.Some?
            && Verdict(world, job.d, job.row.value, job.mapping) == Counting(job.row.value, event.value)
          case Finished(Raised) => true
          case _ => false)
    && (job.asked > 0 && job.mapping.Some? ==>
          job.row.Some? && Verdict(world, job.d, job.row.value, job.mapping).GivingUp?)
    && (job.asked > 0 ==> !job.phase.Matched? && !job.phase.Received?)
  }

  lemma AdvancedIsTraced(world: World, known: Knowledge, nextId: nat, job: Job)
    requires Traced(world, job)
    ensures Traced(world, Advanced(world, known, nextId, job))
  {
  }

  lemma RepliedIsTraced(world: World, job: Job, a: Action)
    requires (a.Classify? && job.phase.Unmapped?) || (a.Answer? && job.phase.Universal?) || a.Abort?
    requires Traced(world, job)
    ensures Traced(world, Replied(world, job, a))
  {
  }

  ghost predicate AllTraced(world: World, s: Sys) {
    forall w :: 0 <= w < |s.jobs| ==> Traced(world, s.jobs[w])
  }

  lemma NextIsTraced(world: World, s: Sys, a: Action)
    requires Enabled(s, a) && AllTraced(world, s)
    ensures AllTraced(world, Next(world, s, a))
  {
    if a.Step? {
      AdvancedIsTraced(world, s.known, s.nextId, s.jobs[a.w]);
    } else if !a.Begin? {
      RepliedIsTraced(world, s.jobs[a.w], a);
    }
  }

  lemma {:induction false} JobsAreTraced(world: World, s: Sys, actions: seq<Action>)
    requires Executable(world, s, actions) && AllTraced(world, s)
    ensures AllTraced(world, Exec(world, s, actions))
    decreases |actions|
  {
    if actions != [] {
      NextIsTraced(world, s, actions[0]);
      JobsAreTraced(world, Next(world, s, actions[0]), actions[1..]);
    }
  }

  /** A mapping without a classification leaves the document's in force. */
  function KindFor(doc: SchemaDoc, mapping: Mapping): string {
    if mapping.classification != "" then mapping.classification else doc.classification
  }

  /** The row lookup returned the document, and the mapping lookup a mapping whose classification knows its state. */
  predicate SawUsable(doc: SchemaDoc, job: Job) {
    && job.row.Some? && job.row.value.doc == doc
    && job.mapping.Some? && Usable(KindFor(doc, job.mapping.value), job.mapping.value.state)
  }

  /** An event came out, and it is the right one by the document and the mapping that the job saw; nobody was asked. */
  ghost predicate ServedBySight(world: World, doc: SchemaDoc, job: Job) {
    && job.asked == 0 && job.row.Some? && job.row.value.doc == doc && job.mapping.Some?
    && job.phase.Finished? && job.phase.result.Ok? && job.phase.result.value.Some?
    && RightEvent(world, doc, job.d, KindFor(doc, job.mapping.value), job.mapping.value.state,
                  job.phase.result.value.value)
  }

  lemma FirstPhaseOfConforming(world: World, d: Delivery, row: SchemaRow)
    requires row.doc.classification == "shipment" || row.doc.classification == "invoice"
    requires var raw := RawTypeIn(world, d.payload, row.doc);
             raw.Ok? && raw.value.Some? && raw.value.value != ""
    ensures FirstPhase(world, d, row) == Matched(row, RawTypeIn(world, d.payload, row.doc).value.value)
  {
    FirstPass(world, d, row.doc);
  }

  lemma SecondPhaseOfConforming(world: World, first: Delivery, output: seq<Member>, doc: SchemaDoc, raws: set<string>,
                                d: Delivery, row: SchemaRow, mapping: Mapping)
    requires Discovered(world, first, output, doc) && SameShape(first.payload, d.payload)
    requires Conforms(world, doc, raws, d) && row.doc == doc && Usable(KindFor(doc, mapping), mapping.state)
    ensures var phase := SecondPhase(world, d, row, mapping.classification, mapping.state);
            && phase.Counting? && phase.row == row
            && RightEvent(world, doc, d, KindFor(doc, mapping), mapping.state, phase.event)
  {
    LaterExtracts(world, first, output, doc, raws, d, KindFor(doc, mapping), mapping.state);
    assert Extract(world, d, doc, Some(mapping.state), Some(mapping.classification)) ==
           Extract(world, d, doc, Some(mapping.state), Some(KindFor(doc, mapping)));
  }

  lemma UsableIfExtracted(world: World, d: Delivery, doc: SchemaDoc, mapping: Mapping)
    requires doc.classification != ""
    requires var r := Extract(world, d, doc, Some(mapping.state), Some(mapping.classification));
             r.Ok? && r.value.Extracted? && !r.value.event.UnclassifiedEvent?
    ensures Usable(KindFor(doc, mapping), mapping.state)
  {
  }

  /** In every interleaving, a conforming payload that ends without an exception is served exactly when its row lookup
      returned the document and its mapping lookup a usable mapping. Nothing else that happens while it is on its way
      matters. */
  lemma ServedIffSeen(world: World, s: Sys, actions: seq<Action>, first: Delivery, output: seq<Member>,
                      doc: SchemaDoc, raws: set<string>, w: nat)
    requires Executable(world, s, actions) && AllTraced(world, s)
    requires Discovered(world, first, output, doc) && "" !in raws
    requires w < |Exec(world, s, actions).jobs|
    requires var job := Exec(world, s, actions).jobs[w];
             && job.phase.Finished? && job.phase.result.Ok?
             && Conforms(world, doc, raws, job.d) && SameShape(first.payload, job.d.payload)
    ensures var job := Exec(world, s, actions).jobs[w]; ServedBySight(world, doc, job) <==> SawUsable(doc, job)
  {
    JobsAreTraced(world, s, actions);
    InferredId(world, first.payload, output, doc);
    SightDecides(world, first, output, doc, raws, Exec(world, s, actions).jobs[w]);
  }

  lemma SightDecides(world: World, first: Delivery, output: seq<Member>, doc: SchemaDoc, raws: set<string>, job: Job)
    requires Discovered(world, first, output, doc) && "" !in raws
    requires doc.classification == "shipment" || doc.classification == "invoice"
    requires Traced(world, job) && job.phase.Finished? && job.phase.result.Ok?
    requires Conforms(world, doc, raws, job.d) && SameShape(first.payload, job.d.payload)
    ensures ServedBySight(world, doc, job) <==> SawUsable(doc, job)
  {
    if job.row.Some? && job.row.value.doc == doc && job.mapping.Some? {
      var row, mapping := job.row.value, job.mapping.value;
      FirstPhaseOfConforming(world, job.d, row);
      if Usable(KindFor(doc, mapping), mapping.state) {
        SecondPhaseOfConforming(world, first, output, doc, raws, job.d, row, mapping);
      } else if ServedBySight(world, doc, job) {
        UsableIfExtracted(world, job.d, doc, mapping);
      }
    }
  }
}
