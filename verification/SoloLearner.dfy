/** One job among many that nobody interferes with: its steps together are what processing its delivery in one go
    does. */
module SoloLearner {
  import opened Prelude
  import opened Json
  import opened Canonical
  import opened Fingerprint
  import opened Adapter
  import opened Registry
  import opened Learning
  import opened PathA
  import opened LearnedRuns
  import opened Traffic
  import opened Learners

  // ----- One job alone -----

  /** What becomes of a raw type, when nobody interferes. */
  function AloneWithRaw(world: World, known: Knowledge, d: Delivery, row: SchemaRow, raw: string, answer: TypeAnswer)
    : Attempt
  {
    var key := (d.vendorId, raw);
    if key in known.eventTypes then
      SecondPass(world, known, 0, d, row, known.eventTypes[key].classification, known.eventTypes[key].state)
    else AloneWithAnswer(world, known, 1, d, row, raw, answer)
  }

  function AloneWithAnswer(world: World, known: Knowledge, asked: nat, d: Delivery, row: SchemaRow, raw: string,
                           answer: TypeAnswer): Attempt {
    match answer
    case Raised => Attempt(known, asked, Raised)
    case Ok(None) => Attempt(known, asked, Ok(None))
    case Ok(Some((kind, state))) =>
      SecondPass(world, known.(eventTypes := Mapped(known.eventTypes, (d.vendorId, raw), kind, state)), asked, d, row,
                 kind, state)
  }

  /** How Path A goes on to Path B. */
  function AfterPathA(world: World, nextId: nat, d: Delivery, row: SchemaRow, a: Attempt, b: PathB): Outcome {
    if a.event != Ok(None) then Outcome(a.known, nextId, a.asked, a.event)
    else ViaProvider(world, a.known.(rows := Counted(a.known.rows, row.id, false)), nextId, a.asked, d, b)
  }

  /** What the rest of a job comes to, when nobody interferes and these are the replies. */
  function Rest(world: World, known: Knowledge, nextId: nat, job: Job, answer: TypeAnswer, b: PathB): Outcome {
    match job.phase
    case Received =>
      var o := Process(world, known, nextId, job.d, answer, b);
      o.(asked := job.asked + o.asked)
    case Matched(row, raw) =>
      var a := AloneWithRaw(world, known, job.d, row, raw, answer);
      AfterPathA(world, nextId, job.d, row, a.(asked := job.asked + a.asked), b)
    case Unmapped(row, raw) =>
      AfterPathA(world, nextId, job.d, row, AloneWithAnswer(world, known, job.asked, job.d, row, raw, answer), b)
    case Classified(row, raw, kind, state) =>
      AfterPathA(world, nextId, job.d, row,
                 AloneWithAnswer(world, known, job.asked, job.d, row, raw, Ok(Some((kind, state)))), b)
    case Counting(row, event) =>
      Outcome(known.(rows := Counted(known.rows, row.id, true)), nextId, job.asked, Ok(Some(event)))
    case GivingUp(row) => AfterPathA(world, nextId, job.d, row, Attempt(known, job.asked, Ok(None)), b)
    case Universal =>
      var o := ViaProvider(world, known, nextId, 0, job.d, b);
      o.(asked := job.asked)
    case Discovering(event, doc, output) =>
      var job' := Advanced(world, known, nextId, job);
      Outcome(if job'.phase.Noting? then Write(Write(known, nextId, job), nextId, job') else Write(known, nextId, job),
              NextId(known, nextId, job), job.asked, Ok(Some(event)))
    case Noting(event, _, _, _) => Outcome(Write(known, nextId, job), nextId, job.asked, Ok(Some(event)))
    case Finished(event) => Outcome(known, nextId, job.asked, event)
  }

  /** The job's next action, if nobody interferes and these are the replies. */
  function OwnAction(job: Job, w: nat, answer: TypeAnswer, b: PathB): Action {
    if job.phase.Unmapped? then Classify(w, answer) else if job.phase.Universal? then Answer(w, b) else Step(w)
  }

  function StepsLeft(phase: Phase): nat {
    match phase
    case Received => 9
    case Matched(_, _) => 8
    case Unmapped(_, _) => 7
    case Classified(_, _, _, _) => 6
    case Counting(_, _) => 1
    case GivingUp(_) => 5
    case Universal => 4
    case Discovering(_, _, _) => 3
    case Noting(_, _, _, _) => 2
    case Finished(_) => 0
  }

  lemma FirstPassIsViaSchema(world: World, known: Knowledge, nextId: nat, d: Delivery, row: SchemaRow,
                             answer: TypeAnswer, b: PathB, job: Job)
    requires job.d == d && job.asked == 0 && job.phase == FirstPhase(world, d, row)
    ensures Rest(world, known, nextId, job, answer, b) ==
            AfterPathA(world, nextId, d, row, ViaSchema(world, known, d, row, answer), b)
  {
  }

  lemma SecondPhaseIsSecondPass(world: World, known: Knowledge, nextId: nat, row: SchemaRow, kind: string,
                                state: string, answer: TypeAnswer, b: PathB, job: Job)
    requires job.phase == SecondPhase(world, job.d, row, kind, state)
    ensures Rest(world, known, nextId, job, answer, b) ==
            AfterPathA(world, nextId, job.d, row, SecondPass(world, known, job.asked, job.d, row, kind, state), b)
  {
  }

  lemma AnswerPhaseIsViaProvider(world: World, known: Knowledge, nextId: nat, answer: TypeAnswer, b: PathB, job: Job)
    requires job.phase == AnswerPhase(world, job.d, b)
    ensures Rest(world, known, nextId, job, answer, b) ==
            ViaProvider(world, known, nextId, 0, job.d, b).(asked := job.asked)
  {
    if b.Answered? && b.output.Some? {
      var doc := InferredDoc(world, job.d.payload, b.output.value);
      if doc.Some? && Reproduces(world, job.d, doc.value, b.output.value) == Ok(true) {
        DiscoveryIsLearn(world, known, nextId, answer, b, job);
      }
    }
  }

  lemma LearnFresh(world: World, known: Knowledge, nextId: nat, b: PathB, d: Delivery)
    requires b.Answered? && b.output.Some? && FreshDoc(world, d, b).Some?
    ensures var lesson, doc := Learn(world, known, nextId, d, b.output.value), FreshDoc(world, d, b).value;
            match Persisted(known.rows, nextId, d.vendorId, FingerprintOf(d.payload, {}), doc)
            case Raised => lesson.known == known && lesson.nextId == nextId
            case Ok((rows, _)) =>
              && lesson.known == WithEventType(world, known.(rows := rows), d, doc, b.output.value)
              && lesson.nextId == nextId + 1
  {
    var doc := InferredDoc(world, d.payload, b.output.value);
    assert doc == FreshDoc(world, d, b) && Reproduces(world, d, doc.value, b.output.value) == Ok(true);
  }

  lemma NoteIsWithEventType(world: World, known: Knowledge, nextId: nat, job: Job, event: Event, doc: SchemaDoc,
                            output: seq<Member>)
    requires job.phase == NotePhase(world, job.d, event, doc, output)
    ensures job.phase.Noting? || job.phase == Finished(Ok(Some(event)))
    ensures (if job.phase.Noting? then Write(known, nextId, job) else known) ==
            WithEventType(world, known, job.d, doc, output)
  {
  }

  lemma DiscoveryIsLearn(world: World, known: Knowledge, nextId: nat, answer: TypeAnswer, b: PathB, job: Job)
    requires b.Answered? && b.output.Some? && FreshDoc(world, job.d, b).Some?
    requires job.phase == Discovering(b.event, FreshDoc(world, job.d, b).value, b.output.value)
    ensures var lesson := Learn(world, known, nextId, job.d, b.output.value);
            Rest(world, known, nextId, job, answer, b) ==
            Outcome(lesson.known, lesson.nextId, job.asked, Ok(Some(b.event)))
  {
    var doc := job.phase.doc;
    LearnFresh(world, known, nextId, b, job.d);
    var persisted := Persisted(known.rows, nextId, job.d.vendorId, FingerprintOf(job.d.payload, {}), doc);
    if persisted.Ok? {
      var job' := Advanced(world, known, nextId, job);
      NoteIsWithEventType(world, known.(rows := persisted.value.0), nextId, job', b.event, doc, b.output.value);
    }
  }

  lemma NotingKeepsRest(world: World, known: Knowledge, nextId: nat, job: Job, answer: TypeAnswer, b: PathB)
    requires job.phase.Discovering?
    ensures var job' := Advanced(world, known, nextId, job);
            && StepsLeft(job'.phase) < StepsLeft(job.phase)
            && Rest(world, Write(known, nextId, job), NextId(known, nextId, job), job', answer, b) ==
               Rest(world, known, nextId, job, answer, b)
  {
    var event, doc, output := job.phase.event, job.phase.doc, job.phase.output;
    var persisted := Persisted(known.rows, nextId, job.d.vendorId, FingerprintOf(job.d.payload, {}), doc);
    if persisted.Ok? {
      NoteIsWithEventType(world, Write(known, nextId, job), nextId, Advanced(world, known, nextId, job), event, doc,
                          output);
    }
  }

  lemma LookupKeepsRest(world: World, known: Knowledge, nextId: nat, job: Job, answer: TypeAnswer, b: PathB)
    requires job.phase.Received? && job.asked == 0
    ensures var job' := Advanced(world, known, nextId, job);
            && StepsLeft(job'.phase) < StepsLeft(job.phase)
            && Rest(world, Write(known, nextId, job), NextId(known, nextId, job), job', answer, b) ==
               Rest(world, known, nextId, job, answer, b)
  {
    var row := BestOf(known.rows, job.d.vendorId, FingerprintOf(job.d.payload, {}));
    if row.Some? {
      FirstPassIsViaSchema(world, known, nextId, job.d, row.value, answer, b, Advanced(world, known, nextId, job));
    }
  }

  lemma MappingKeepsRest(world: World, known: Knowledge, nextId: nat, job: Job, answer: TypeAnswer, b: PathB)
    requires job.phase.Matched? && job.asked == 0
    ensures var job' := Advanced(world, known, nextId, job);
            && StepsLeft(job'.phase) < StepsLeft(job.phase)
            && Rest(world, Write(known, nextId, job), NextId(known, nextId, job), job', answer, b) ==
               Rest(world, known, nextId, job, answer, b)
  {
    var mapping := MappingFor(known.eventTypes, (job.d.vendorId, job.phase.raw));
    if mapping.Some? {
      SecondPhaseIsSecondPass(world, known, nextId, job.phase.row, mapping.value.classification, mapping.value.state,
                              answer, b, Advanced(world, known, nextId, job));
    }
  }

  lemma NewMappingKeepsRest(world: World, known: Knowledge, nextId: nat, job: Job, answer: TypeAnswer, b: PathB)
    requires job.phase.Classified?
    ensures var job' := Advanced(world, known, nextId, job);
            && StepsLeft(job'.phase) < StepsLeft(job.phase)
            && Rest(world, Write(known, nextId, job), NextId(known, nextId, job), job', answer, b) ==
               Rest(world, known, nextId, job, answer, b)
  {
    SecondPhaseIsSecondPass(world, Write(known, nextId, job), nextId, job.phase.row, job.phase.kind, job.phase.state,
                            answer, b, Advanced(world, known, nextId, job));
  }

  lemma CountKeepsRest(world: World, known: Knowledge, nextId: nat, job: Job, answer: TypeAnswer, b: PathB)
    requires job.phase.Counting? || job.phase.GivingUp? || job.phase.Noting?
    ensures var job' := Advanced(world, known, nextId, job);
            && StepsLeft(job'.phase) < StepsLeft(job.phase)
            && Rest(world, Write(known, nextId, job), NextId(known, nextId, job), job', answer, b) ==
               Rest(world, known, nextId, job, answer, b)
  {
  }

  /** Nobody interfering, a job's next statement leaves the rest as it was, and one action less of it. */
  lemma StatementKeepsRest(world: World, known: Knowledge, nextId: nat, job: Job, answer: TypeAnswer, b: PathB)
    requires !job.phase.Unmapped? && !job.phase.Universal? && !job.phase.Finished? && Traced(world, job)
    ensures var job' := Advanced(world, known, nextId, job);
            && StepsLeft(job'.phase) < StepsLeft(job.phase)
            && Rest(world, Write(known, nextId, job), NextId(known, nextId, job), job', answer, b) ==
               Rest(world, known, nextId, job, answer, b)
  {
    match job.phase {
      case Received => LookupKeepsRest(world, known, nextId, job, answer, b);
      case Matched(_, _) => MappingKeepsRest(world, known, nextId, job, answer, b);
      case Classified(_, _, _, _) => NewMappingKeepsRest(world, known, nextId, job, answer, b);
      case Discovering(_, _, _) => NotingKeepsRest(world, known, nextId, job, answer, b);
      case _ => CountKeepsRest(world, known, nextId, job, answer, b);
    }
  }

  /** So does the reply that it waits for. */
  lemma ReplyKeepsRest(world: World, known: Knowledge, nextId: nat, job: Job, w: nat, answer: TypeAnswer, b: PathB)
    requires job.phase.Unmapped? || job.phase.Universal?
    ensures var job' := Replied(world, job, OwnAction(job, w, answer, b));
            && StepsLeft(job'.phase) < StepsLeft(job.phase)
            && Rest(world, known, nextId, job', answer, b) == Rest(world, known, nextId, job, answer, b)
  {
    if job.phase.Universal? {
      AnswerPhaseIsViaProvider(world, known, nextId, answer, b, Replied(world, job, OwnAction(job, w, answer, b)));
    }
  }

  lemma OwnActionKeepsRest(world: World, s: Sys, w: nat, answer: TypeAnswer, b: PathB)
    requires w < |s.jobs| && !s.jobs[w].phase.Finished? && Traced(world, s.jobs[w])
    ensures Enabled(s, OwnAction(s.jobs[w], w, answer, b))
    ensures var s' := Next(world, s, OwnAction(s.jobs[w], w, answer, b));
            && |s'.jobs| == |s.jobs| && StepsLeft(s'.jobs[w].phase) < StepsLeft(s.jobs[w].phase)
            && Traced(world, s'.jobs[w])
            && (forall v :: 0 <= v < |s.jobs| && v != w ==> s'.jobs[v] == s.jobs[v])
            && Rest(world, s'.known, s'.nextId, s'.jobs[w], answer, b) ==
               Rest(world, s.known, s.nextId, s.jobs[w], answer, b)
  {
    var job := s.jobs[w];
    if job.phase.Unmapped? || job.phase.Universal? {
      ReplyKeepsRest(world, s.known, s.nextId, job, w, answer, b);
      RepliedIsTraced(world, job, OwnAction(job, w, answer, b));
    } else {
      StatementKeepsRest(world, s.known, s.nextId, job, answer, b);
      AdvancedIsTraced(world, s.known, s.nextId, job);
    }
  }

  /** A job that nobody interferes with does, statement by statement, what processing its delivery in one go does. */
  lemma {:induction false} AloneIsRest(world: World, s: Sys, w: nat, answer: TypeAnswer, b: PathB)
      returns (actions: seq<Action>)
    requires w < |s.jobs| && Traced(world, s.jobs[w])
    ensures Executable(world, s, actions) && forall i :: 0 <= i < |actions| ==> !actions[i].Begin?
    ensures var end, rest := Exec(world, s, actions), Rest(world, s.known, s.nextId, s.jobs[w], answer, b);
            && |end.jobs| == |s.jobs| && end.known == rest.known && end.nextId == rest.nextId
            && end.jobs[w].asked == rest.asked && end.jobs[w].phase == Finished(rest.event)
            && forall v :: 0 <= v < |s.jobs| && v != w ==> end.jobs[v] == s.jobs[v]
    decreases StepsLeft(s.jobs[w].phase)
  {
    if s.jobs[w].phase.Finished? {
      actions := [];
    } else {
      var a := OwnAction(s.jobs[w], w, answer, b);
      OwnActionKeepsRest(world, s, w, answer, b);
      var later := AloneIsRest(world, Next(world, s, a), w, answer, b);
      ExecCons(world, s, a, later);
      actions := [a] + later;
    }
  }
}
