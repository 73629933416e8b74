/** What many jobs together do to what has been learned: exactly which statements disturb it, that the traffic which
    depends on it never does, and what protects it from all other traffic. */
module SharedLearning {
  import opened Prelude
  import opened Json
  import opened Canonical
  import opened Fingerprint
  import opened Adapter
  import opened Registry
  import opened Learning
  import opened PathA
  import opened LearnedRuns
  import opened Traffic
  import opened Learners
  import opened SoloLearner

  // ----- What one action changes -----

  /** A statement that puts another document in the place of a provisional one. */
  predicate Overwrites(s: Sys, a: Action, vendorId: string, shape: set<Entry>)
    requires Enabled(s, a)
  {
    a.Step? && s.jobs[a.w].phase.Discovering? && OfShape(s.jobs[a.w].d, vendorId, shape)
    && var best := BestOf(s.known.rows, vendorId, shape);
       best.Some? && Replaceable(best.value) && best.value.doc != s.jobs[a.w].phase.doc
  }

  /** A late answer that puts another mapping in the place of an unreviewed one. */
  predicate Remaps(s: Sys, a: Action, key: (string, string))
    requires Enabled(s, a)
  {
    a.Step? && s.jobs[a.w].phase.Classified?
    && var job := s.jobs[a.w];
       && (job.d.vendorId, job.phase.raw) == key && key in s.known.eventTypes
       && !s.known.eventTypes[key].reviewed
       && s.known.eventTypes[key] != Mapping(job.phase.kind, job.phase.state, false)
  }

  lemma WriteKeepsKeys(known: Knowledge, nextId: nat, job: Job)
    requires KeyedRows(known.rows)
    ensures KeyedRows(Write(known, nextId, job).rows)
  {
    match job.phase {
      case Counting(row, _) => CountingKeepsBest(known.rows, row.id, true, "", {});
      case GivingUp(row) => CountingKeepsBest(known.rows, row.id, false, "", {});
      case Discovering(_, doc, _) =>
        var shape := FingerprintOf(job.d.payload, {});
        if Persisted(known.rows, nextId, job.d.vendorId, shape, doc).Ok? {
          PersistingKeepsKeys(known.rows, nextId, job.d.vendorId, shape, doc);
        }
      case _ =>
    }
  }

  /** The row that a lookup finds after a statement: the same, up to its counters, with the new document in it exactly
      where a document is stored for the same vendor and shape and the row is a provisional version 1. */
  lemma BestAfterWrite(known: Knowledge, nextId: nat, job: Job, vendorId: string, shape: set<Entry>)
    requires KeyedRows(known.rows) && BestOf(known.rows, vendorId, shape).Some?
    ensures var before, after := BestOf(known.rows, vendorId, shape).value,
                                 BestOf(Write(known, nextId, job).rows, vendorId, shape);
            && after.Some?
            && AlikeRows(if job.phase.Discovering? && OfShape(job.d, vendorId, shape) && Replaceable(before)
                         then before.(doc := job.phase.doc) else before, after.value)
  {
    match job.phase {
      case Counting(row, _) => CountingKeepsBest(known.rows, row.id, true, vendorId, shape);
      case GivingUp(row) => CountingKeepsBest(known.rows, row.id, false, vendorId, shape);
      case Discovering(_, doc, _) =>
        var own := FingerprintOf(job.d.payload, {});
        if OfShape(job.d, vendorId, shape) {
          BestAfterPersisting(known.rows, nextId, vendorId, shape, doc);
        } else if Persisted(known.rows, nextId, job.d.vendorId, own, doc).Ok? {
          PersistingKeepsOthers(known.rows, nextId, job.d.vendorId, own, doc, vendorId, shape);
        }
      case _ =>
    }
  }

  /** One action leaves the document that a lookup finds in place exactly when it does not overwrite it. */
  lemma KeepsDocIff(world: World, s: Sys, a: Action, vendorId: string, shape: set<Entry>)
    requires Enabled(s, a) && KeyedRows(s.known.rows) && BestOf(s.known.rows, vendorId, shape).Some?
    ensures KeyedRows(Next(world, s, a).known.rows) && BestOf(Next(world, s, a).known.rows, vendorId, shape).Some?
    ensures DocFor(Next(world, s, a).known.rows, vendorId, shape) == DocFor(s.known.rows, vendorId, shape)
            <==> !Overwrites(s, a, vendorId, shape)
  {
    if a.Step? {
      WriteKeepsKeys(s.known, s.nextId, s.jobs[a.w]);
      BestAfterWrite(s.known, s.nextId, s.jobs[a.w], vendorId, shape);
    }
  }

  /** One action leaves a mapping in place exactly when it is no late answer that replaces it. */
  lemma KeepsMappingIff(world: World, s: Sys, a: Action, key: (string, string))
    requires Enabled(s, a) && key in s.known.eventTypes
    ensures key in Next(world, s, a).known.eventTypes
    ensures Next(world, s, a).known.eventTypes[key] == s.known.eventTypes[key] <==> !Remaps(s, a, key)
  {
  }

  // ----- Runs -----

  /** What the traffic of a vendor and shape depends on: its document and the mappings of some raw types. */
  ghost predicate SameTeaching(a: Knowledge, b: Knowledge, vendorId: string, shape: set<Entry>, raws: set<string>) {
    && DocFor(a.rows, vendorId, shape) == DocFor(b.rows, vendorId, shape)
    && forall raw :: raw in raws ==>
         MappingFor(a.eventTypes, (vendorId, raw)) == MappingFor(b.eventTypes, (vendorId, raw))
  }

  ghost predicate Disturbs(s: Sys, a: Action, vendorId: string, shape: set<Entry>, raws: set<string>)
    requires Enabled(s, a)
  {
    Overwrites(s, a, vendorId, shape) || exists raw :: raw in raws && Remaps(s, a, (vendorId, raw))
  }

  /** No action of the schedule disturbs, at its turn. */
  ghost predicate Calm(world: World, s: Sys, actions: seq<Action>, vendorId: string, shape: set<Entry>,
                       raws: set<string>)
    requires Executable(world, s, actions)
    decreases |actions|
  {
    actions == []
    || (&& !Disturbs(s, actions[0], vendorId, shape, raws)
        && Calm(world, Next(world, s, actions[0]), actions[1..], vendorId, shape, raws))
  }

  /** There is a document, and every raw type has a mapping. */
  ghost predicate Known(known: Knowledge, vendorId: string, shape: set<Entry>, raws: set<string>) {
    && KeyedRows(known.rows) && BestOf(known.rows, vendorId, shape).Some?
    && forall raw :: raw in raws ==> (vendorId, raw) in known.eventTypes
  }

  lemma KeepsTeachingIff(world: World, s: Sys, a: Action, vendorId: string, shape: set<Entry>, raws: set<string>)
    requires Enabled(s, a) && Known(s.known, vendorId, shape, raws)
    ensures Known(Next(world, s, a).known, vendorId, shape, raws)
    ensures SameTeaching(Next(world, s, a).known, s.known, vendorId, shape, raws)
            <==> !Disturbs(s, a, vendorId, shape, raws)
  {
    KeepsDocIff(world, s, a, vendorId, shape);
    forall raw | raw in raws
      ensures (vendorId, raw) in Next(world, s, a).known.eventTypes
      ensures MappingFor(Next(world, s, a).known.eventTypes, (vendorId, raw)) ==
                MappingFor(s.known.eventTypes, (vendorId, raw))
              <==> !Remaps(s, a, (vendorId, raw))
    {
      KeepsMappingIff(world, s, a, (vendorId, raw));
    }
  }

  lemma {:induction false} PrefixIsExecutable(world: World, s: Sys, actions: seq<Action>, n: nat)
    requires Executable(world, s, actions) && n <= |actions|
    ensures Executable(world, s, actions[..n])
    ensures n > 0 ==> && Executable(world, Next(world, s, actions[0]), actions[1..][..n - 1])
                      && Exec(world, s, actions[..n]) ==
                         Exec(world, Next(world, s, actions[0]), actions[1..][..n - 1])
    decreases n
  {
    if n > 0 {
      PrefixIsExecutable(world, Next(world, s, actions[0]), actions[1..], n - 1);
      assert actions[..n][0] == actions[0] && actions[..n][1..] == actions[1..][..n - 1];
    }
  }

  /** What is known after the first `n` actions of a schedule. */
  ghost function KnownAt(world: World, s: Sys, actions: seq<Action>, n: nat): Knowledge
    requires Executable(world, s, actions) && n <= |actions|
  {
    PrefixIsExecutable(world, s, actions, n);
    Exec(world, s, actions[..n]).known
  }

  ghost predicate TeachingKept(world: World, s: Sys, actions: seq<Action>, known: Knowledge, vendorId: string,
                               shape: set<Entry>, raws: set<string>)
    requires Executable(world, s, actions)
  {
    forall n :: 0 <= n <= |actions| ==> SameTeaching(KnownAt(world, s, actions, n), known, vendorId, shape, raws)
  }

  lemma TeachingKeptFromFirst(world: World, s: Sys, actions: seq<Action>, known: Knowledge, vendorId: string,
                              shape: set<Entry>, raws: set<string>)
    requires Executable(world, s, actions) && actions != []
    ensures TeachingKept(world, s, actions, known, vendorId, shape, raws) <==>
            && SameTeaching(s.known, known, vendorId, shape, raws)
            && TeachingKept(world, Next(world, s, actions[0]), actions[1..], known, vendorId, shape, raws)
  {
    var s', rest := Next(world, s, actions[0]), actions[1..];
    assert KnownAt(world, s, actions, 0) == s.known;
    forall n | 0 < n <= |actions|
      ensures KnownAt(world, s, actions, n) == KnownAt(world, s', rest, n - 1)
    {
      PrefixIsExecutable(world, s, actions, n);
    }
    if TeachingKept(world, s, actions, known, vendorId, shape, raws) {
      forall n | 0 <= n <= |rest|
        ensures SameTeaching(KnownAt(world, s', rest, n), known, vendorId, shape, raws)
      {
        assert KnownAt(world, s, actions, n + 1) == KnownAt(world, s', rest, n);
      }
    }
  }

  lemma SameTeachingSwaps(a: Knowledge, b: Knowledge, c: Knowledge, vendorId: string, shape: set<Entry>,
                          raws: set<string>)
    requires SameTeaching(a, b, vendorId, shape, raws)
    ensures SameTeaching(c, a, vendorId, shape, raws) <==> SameTeaching(c, b, vendorId, shape, raws)
    ensures SameTeaching(b, a, vendorId, shape, raws)
  {
  }

  lemma TeachingKeptSwaps(world: World, s: Sys, actions: seq<Action>, a: Knowledge, b: Knowledge, vendorId: string,
                          shape: set<Entry>, raws: set<string>)
    requires Executable(world, s, actions) && SameTeaching(a, b, vendorId, shape, raws)
    ensures TeachingKept(world, s, actions, a, vendorId, shape, raws) <==>
            TeachingKept(world, s, actions, b, vendorId, shape, raws)
  {
    forall n | 0 <= n <= |actions|
      ensures SameTeaching(KnownAt(world, s, actions, n), a, vendorId, shape, raws) <==>
              SameTeaching(KnownAt(world, s, actions, n), b, vendorId, shape, raws)
    {
      SameTeachingSwaps(a, b, KnownAt(world, s, actions, n), vendorId, shape, raws);
    }
  }

  /** Over whole schedules: the document and the mappings stay in place all the way exactly when no action, at its
      turn, overwrites the document or replaces one of the mappings. */
  lemma {:induction false} CalmIffKept(world: World, s: Sys, actions: seq<Action>, vendorId: string, shape: set<Entry>,
                                       raws: set<string>)
    requires Executable(world, s, actions) && Known(s.known, vendorId, shape, raws)
    ensures Calm(world, s, actions, vendorId, shape, raws) <==>
            TeachingKept(world, s, actions, s.known, vendorId, shape, raws)
    decreases |actions|
  {
    if actions == [] {
      assert forall n :: 0 <= n <= |actions| ==> actions[..n] == [];
    } else {
      var s', rest := Next(world, s, actions[0]), actions[1..];
      KeepsTeachingIff(world, s, actions[0], vendorId, shape, raws);
      CalmIffKept(world, s', rest, vendorId, shape, raws);
      TeachingKeptFromFirst(world, s, actions, s.known, vendorId, shape, raws);
      if SameTeaching(s'.known, s.known, vendorId, shape, raws) {
        TeachingKeptSwaps(world, s', rest, s'.known, s.known, vendorId, shape, raws);
      } else {
        assert KnownAt(world, s', rest, 0) == s'.known;
      }
    }
  }

  // ----- Conforming payloads on their way -----

  /** The job of a conforming payload that finds everything: it asks nobody, and its event, if it has one already, is
      the right one. */
  ghost predicate OnTrack(world: World, doc: SchemaDoc, eventTypes: map<(string, string), Mapping>, job: Job) {
    && job.asked == 0
    && var raw := RawTypeIn(world, job.d.payload, doc);
       && raw.Ok? && raw.value.Some? && (job.d.vendorId, raw.value.value) in eventTypes
       && var mapping := eventTypes[(job.d.vendorId, raw.value.value)];
          match job.phase
          case Received => true
          case Matched(row, found) => row.doc == doc && found == raw.value.value
          case Counting(row, event) => RightEvent(world, doc, job.d, mapping.classification, mapping.state, event)
          case Finished(Ok(Some(event))) =>
            RightEvent(world, doc, job.d, mapping.classification, mapping.state, event)
          case Finished(Raised) => true
          case _ => false
  }

  function Left(phase: Phase): nat {
    match phase case Received => 3 case Matched(_, _) => 2 case Counting(_, _) => 1 case _ => 0
  }

  /** A job of the vendor and shape whose payload conforms. */
  predicate Concerns(world: World, doc: SchemaDoc, raws: set<string>, vendorId: string, shape: set<Entry>,
                     d: Delivery) {
    OfShape(d, vendorId, shape) && Conforms(world, doc, raws, d)
  }

  /** Every statement of such a job keeps it on track and brings it nearer to its end; none waits for a reply. */
  lemma StaysOnTrack(world: World, s: Sys, first: Delivery, output: seq<Member>, doc: SchemaDoc, raws: set<string>,
                     w: nat)
    requires Discovered(world, first, output, doc)
    requires Taught(s.known, first.vendorId, FingerprintOf(first.payload, {}), doc, raws)
    requires w < |s.jobs| && OnTrack(world, doc, s.known.eventTypes, s.jobs[w]) && !s.jobs[w].phase.Finished?
    requires Concerns(world, doc, raws, first.vendorId, FingerprintOf(first.payload, {}), s.jobs[w].d)
    ensures Enabled(s, Step(w))
    ensures var job := Advanced(world, s.known, s.nextId, s.jobs[w]);
            && OnTrack(world, doc, s.known.eventTypes, job) && Left(job.phase) == Left(s.jobs[w].phase) - 1
            && (Left(job.phase) == 0 ==> job.phase.Finished? && job.phase.result.Ok?)
  {
    InferredId(world, first.payload, output, doc);
    var job := s.jobs[w];
    var raw := RawTypeIn(world, job.d.payload, doc).value.value;
    var mapping := s.known.eventTypes[(job.d.vendorId, raw)];
    match job.phase {
      case Received =>
        var row := BestOf(s.known.rows, job.d.vendorId, FingerprintOf(job.d.payload, {})).value;
        FirstPhaseOfConforming(world, job.d, row);
      case Matched(row, _) =>
        assert mapping.classification != "" && KindFor(doc, mapping) == mapping.classification;
        SecondPhaseOfConforming(world, first, output, doc, raws, job.d, row, mapping);
      case _ =>
    }
  }

  /** Job `w` has not begun yet, or does not concern us, or is on track. */
  ghost predicate Fine(world: World, s: Sys, doc: SchemaDoc, raws: set<string>, vendorId: string, shape: set<Entry>,
                       w: nat) {
    w < |s.jobs| && Concerns(world, doc, raws, vendorId, shape, s.jobs[w].d) ==>
      OnTrack(world, doc, s.known.eventTypes, s.jobs[w])
  }

  lemma OnTrackBySameTeaching(world: World, doc: SchemaDoc, raws: set<string>, a: Knowledge, b: Knowledge,
                              vendorId: string, shape: set<Entry>, job: Job)
    requires SameTeaching(b, a, vendorId, shape, raws) && Concerns(world, doc, raws, vendorId, shape, job.d)
    requires OnTrack(world, doc, a.eventTypes, job)
    ensures OnTrack(world, doc, b.eventTypes, job)
  {
    var raw := RawTypeIn(world, job.d.payload, doc).value.value;
    assert MappingFor(b.eventTypes, (vendorId, raw)) == MappingFor(a.eventTypes, (vendorId, raw));
  }

  lemma BeginsOnTrack(world: World, known: Knowledge, vendorId: string, shape: set<Entry>, doc: SchemaDoc,
                      raws: set<string>, d: Delivery)
    requires Taught(known, vendorId, shape, doc, raws) && Concerns(world, doc, raws, vendorId, shape, d)
    ensures OnTrack(world, doc, known.eventTypes, Job(d, 0, None, None, Received))
  {
  }

  lemma ActionKeepsOnTrack(world: World, s: Sys, a: Action, first: Delivery, output: seq<Member>, doc: SchemaDoc,
                           raws: set<string>, w: nat)
    requires Enabled(s, a) && Discovered(world, first, output, doc)
    requires Taught(s.known, first.vendorId, FingerprintOf(first.payload, {}), doc, raws)
    requires w < |s.jobs| && OnTrack(world, doc, s.known.eventTypes, s.jobs[w])
    requires Concerns(world, doc, raws, first.vendorId, FingerprintOf(first.payload, {}), s.jobs[w].d)
    ensures OnTrack(world, doc, s.known.eventTypes, Next(world, s, a).jobs[w])
  {
    if a.Begin? || a.w != w {
      assert Next(world, s, a).jobs[w] == s.jobs[w];
    } else if a.Step? {
      StaysOnTrack(world, s, first, output, doc, raws, w);
    } else {
      assert a.Abort? && Next(world, s, a).jobs[w].phase == Finished(Raised);
    }
  }

  lemma NextIsOnTrack(world: World, s: Sys, a: Action, first: Delivery, output: seq<Member>, doc: SchemaDoc,
                      raws: set<string>, w: nat)
    requires Enabled(s, a) && Discovered(world, first, output, doc) && w < |Next(world, s, a).jobs|
    requires Taught(s.known, first.vendorId, FingerprintOf(first.payload, {}), doc, raws)
    requires Fine(world, s, doc, raws, first.vendorId, FingerprintOf(first.payload, {}), w)
    requires Concerns(world, doc, raws, first.vendorId, FingerprintOf(first.payload, {}), Next(world, s, a).jobs[w].d)
    ensures OnTrack(world, doc, s.known.eventTypes, Next(world, s, a).jobs[w])
  {
    if w < |s.jobs| {
      assert Next(world, s, a).jobs[w].d == s.jobs[w].d;
      ActionKeepsOnTrack(world, s, a, first, output, doc, raws, w);
    } else {
      BeginsOnTrack(world, s.known, first.vendorId, FingerprintOf(first.payload, {}), doc, raws, a.d);
    }
  }

  lemma NextKeepsFine(world: World, s: Sys, a: Action, first: Delivery, output: seq<Member>, doc: SchemaDoc,
                      raws: set<string>, w: nat)
    requires Enabled(s, a) && Discovered(world, first, output, doc)
    requires Taught(s.known, first.vendorId, FingerprintOf(first.payload, {}), doc, raws)
    requires SameTeaching(Next(world, s, a).known, s.known, first.vendorId, FingerprintOf(first.payload, {}), raws)
    requires Fine(world, s, doc, raws, first.vendorId, FingerprintOf(first.payload, {}), w)
    ensures Fine(world, Next(world, s, a), doc, raws, first.vendorId, FingerprintOf(first.payload, {}), w)
  {
    var shape, s' := FingerprintOf(first.payload, {}), Next(world, s, a);
    if w < |s'.jobs| && Concerns(world, doc, raws, first.vendorId, shape, s'.jobs[w].d) {
      NextIsOnTrack(world, s, a, first, output, doc, raws, w);
      OnTrackBySameTeaching(world, doc, raws, s.known, s'.known, first.vendorId, shape, s'.jobs[w]);
    }
  }

  lemma TaughtByTeaching(a: Knowledge, b: Knowledge, vendorId: string, shape: set<Entry>, doc: SchemaDoc,
                         raws: set<string>)
    requires Taught(a, vendorId, shape, doc, raws) && SameTeaching(b, a, vendorId, shape, raws)
    ensures Taught(b, vendorId, shape, doc, raws)
  {
    forall raw | raw in raws
      ensures (vendorId, raw) in b.eventTypes && b.eventTypes[(vendorId, raw)] == a.eventTypes[(vendorId, raw)]
    {
      assert MappingFor(b.eventTypes, (vendorId, raw)) == MappingFor(a.eventTypes, (vendorId, raw));
    }
  }

  /** Learning among many: in every schedule whose actions leave the teaching alone, whatever else is going on, every
      conforming payload that begins is on track to the end: nobody is asked about it, and the event it ends with,
      unless it is aborted, is the one that the document and the mapping call for. */
  lemma {:induction false} LearnedAmongMany(world: World, s: Sys, actions: seq<Action>, first: Delivery,
                                            output: seq<Member>, doc: SchemaDoc, raws: set<string>, w: nat)
    requires Executable(world, s, actions) && Discovered(world, first, output, doc) && KeyedRows(s.known.rows)
    requires Taught(s.known, first.vendorId, FingerprintOf(first.payload, {}), doc, raws)
    requires Calm(world, s, actions, first.vendorId, FingerprintOf(first.payload, {}), raws)
    requires Fine(world, s, doc, raws, first.vendorId, FingerprintOf(first.payload, {}), w)
    ensures var end := Exec(world, s, actions);
            && Fine(world, end, doc, raws, first.vendorId, FingerprintOf(first.payload, {}), w)
            && Taught(end.known, first.vendorId, FingerprintOf(first.payload, {}), doc, raws)
            && SameTeaching(end.known, s.known, first.vendorId, FingerprintOf(first.payload, {}), raws)
    decreases |actions|
  {
    if actions != [] {
      var shape, s' := FingerprintOf(first.payload, {}), Next(world, s, actions[0]);
      KeepsTeachingIff(world, s, actions[0], first.vendorId, shape, raws);
      TaughtByTeaching(s.known, s'.known, first.vendorId, shape, doc, raws);
      NextKeepsFine(world, s, actions[0], first, output, doc, raws, w);
      LearnedAmongMany(world, s', actions[1..], first, output, doc, raws, w);
      var end := Exec(world, s', actions[1..]);
      SameTeachingSwaps(s'.known, s.known, end.known, first.vendorId, shape, raws);
    }
  }

  // ----- What protects a mapping -----

  /** A job whose answer about the raw type may still replace the mapping. */
  predicate MayRemap(job: Job, key: (string, string), mapping: Mapping) {
    || (job.phase.Unmapped? && (job.d.vendorId, job.phase.raw) == key)
    || (&& job.phase.Classified? && (job.d.vendorId, job.phase.raw) == key
        && Mapping(job.phase.kind, job.phase.state, false) != mapping)
  }

  /** A person has reviewed the mapping, or no job on its way may replace it. */
  ghost predicate MappingSafe(s: Sys, key: (string, string)) {
    && key in s.known.eventTypes
    && (|| s.known.eventTypes[key].reviewed
        || forall w :: 0 <= w < |s.jobs| ==> !MayRemap(s.jobs[w], key, s.known.eventTypes[key]))
  }

  /** What is mapped is not asked about again, so a safe mapping stays as it is, and safe. */
  lemma NextKeepsMappingSafe(world: World, s: Sys, a: Action, key: (string, string))
    requires Enabled(s, a) && MappingSafe(s, key)
    ensures MappingSafe(Next(world, s, a), key)
    ensures Next(world, s, a).known.eventTypes[key] == s.known.eventTypes[key] && !Remaps(s, a, key)
  {
    var s' := Next(world, s, a);
    if !s.known.eventTypes[key].reviewed {
      assert a.Step? ==> !MayRemap(s.jobs[a.w], key, s.known.eventTypes[key]);
      forall w | 0 <= w < |s'.jobs|
        ensures !MayRemap(s'.jobs[w], key, s.known.eventTypes[key])
      {
        if w < |s.jobs| {
          assert !MayRemap(s.jobs[w], key, s.known.eventTypes[key]);
        }
      }
    }
  }

  lemma {:induction false} SafeMappingStays(world: World, s: Sys, actions: seq<Action>, key: (string, string))
    requires Executable(world, s, actions) && MappingSafe(s, key)
    ensures MappingSafe(Exec(world, s, actions), key)
    ensures Exec(world, s, actions).known.eventTypes[key] == s.known.eventTypes[key]
    decreases |actions|
  {
    if actions != [] {
      NextKeepsMappingSafe(world, s, actions[0], key);
      SafeMappingStays(world, Next(world, s, actions[0]), actions[1..], key);
    }
  }

  lemma LateWriteRemaps(world: World, s: Sys, key: (string, string), w: nat)
    requires key in s.known.eventTypes && !s.known.eventTypes[key].reviewed
    requires w < |s.jobs| && s.jobs[w].phase.Classified? && MayRemap(s.jobs[w], key, s.known.eventTypes[key])
    ensures Executable(world, s, [Step(w)])
    ensures MappingFor(Exec(world, s, [Step(w)]).known.eventTypes, key) != Some(s.known.eventTypes[key])
  {
    ExecOne(world, s, Step(w));
  }

  /** A late answer does replace a mapping that is not safe. */
  lemma LateAnswerRemaps(world: World, s: Sys, key: (string, string), w: nat) returns (actions: seq<Action>)
    requires key in s.known.eventTypes && !s.known.eventTypes[key].reviewed
    requires w < |s.jobs| && MayRemap(s.jobs[w], key, s.known.eventTypes[key])
    ensures Executable(world, s, actions)
    ensures MappingFor(Exec(world, s, actions).known.eventTypes, key) != Some(s.known.eventTypes[key])
  {
    actions := [Step(w)];
    if s.jobs[w].phase.Classified? {
      LateWriteRemaps(world, s, key, w);
    } else {
      var mapping := s.known.eventTypes[key];
      var answer := Classify(w, Ok(Some((mapping.classification + "?", mapping.state))));
      assert |mapping.classification + "?"| != |mapping.classification|;
      LateWriteRemaps(world, Next(world, s, answer), key, w);
      ExecCons(world, s, answer, actions);
      actions := [answer] + actions;
    }
  }

  ghost predicate NeverChanges(world: World, s: Sys, key: (string, string)) {
    forall actions :: Executable(world, s, actions) ==>
      MappingFor(Exec(world, s, actions).known.eventTypes, key) == MappingFor(s.known.eventTypes, key)
  }

  /** A mapping survives every schedule exactly when it is reviewed, or nobody on the way may replace it. */
  lemma MappingSafeIff(world: World, s: Sys, key: (string, string))
    requires key in s.known.eventTypes
    ensures NeverChanges(world, s, key) <==> MappingSafe(s, key)
  {
    if MappingSafe(s, key) {
      forall actions | Executable(world, s, actions)
        ensures MappingFor(Exec(world, s, actions).known.eventTypes, key) == MappingFor(s.known.eventTypes, key)
      {
        SafeMappingStays(world, s, actions, key);
      }
    } else {
      var w :| 0 <= w < |s.jobs| && MayRemap(s.jobs[w], key, s.known.eventTypes[key]);
      var actions := LateAnswerRemaps(world, s, key, w);
      assert Executable(world, s, actions);
    }
  }

  // ----- What protects the teaching -----

  /** The row cannot be overwritten and the mappings are reviewed. */
  ghost predicate Protected(known: Knowledge, vendorId: string, shape: set<Entry>, raws: set<string>) {
    && Known(known, vendorId, shape, raws) && Settled(known.rows, vendorId, shape)
    && forall raw :: raw in raws ==> known.eventTypes[(vendorId, raw)].reviewed
  }

  lemma NextKeepsProtected(world: World, s: Sys, a: Action, vendorId: string, shape: set<Entry>, raws: set<string>)
    requires Enabled(s, a) && Protected(s.known, vendorId, shape, raws)
    ensures !Disturbs(s, a, vendorId, shape, raws)
    ensures Protected(Next(world, s, a).known, vendorId, shape, raws)
  {
    KeepsTeachingIff(world, s, a, vendorId, shape, raws);
    if a.Step? {
      BestAfterWrite(s.known, s.nextId, s.jobs[a.w], vendorId, shape);
    }
    forall raw | raw in raws
      ensures Next(world, s, a).known.eventTypes[(vendorId, raw)].reviewed
    {
      KeepsMappingIff(world, s, a, (vendorId, raw));
    }
  }

  /** Once the row is active or of a later version and the mappings are reviewed, no schedule disturbs the teaching,
      whatever is on its way already, arrives or is answered. */
  lemma {:induction false} ProtectedIsCalm(world: World, s: Sys, actions: seq<Action>, vendorId: string,
                                           shape: set<Entry>, raws: set<string>)
    requires Executable(world, s, actions) && Protected(s.known, vendorId, shape, raws)
    ensures Calm(world, s, actions, vendorId, shape, raws)
    decreases |actions|
  {
    if actions != [] {
      NextKeepsProtected(world, s, actions[0], vendorId, shape, raws);
      ProtectedIsCalm(world, Next(world, s, actions[0]), actions[1..], vendorId, shape, raws);
    }
  }

  /** A job of the vendor and shape is over, or conforms and is on track. */
  ghost predicate Tame(world: World, doc: SchemaDoc, raws: set<string>, eventTypes: map<(string, string), Mapping>,
                 vendorId: string, shape: set<Entry>, job: Job) {
    OfShape(job.d, vendorId, shape) ==>
      job.phase.Finished? || (Conforms(world, doc, raws, job.d) && OnTrack(world, doc, eventTypes, job))
  }

  /** Taught, with no late answer on its way and nobody of the shape off its track. */
  ghost predicate Quiet(world: World, s: Sys, vendorId: string, shape: set<Entry>, doc: SchemaDoc, raws: set<string>) {
    && KeyedRows(s.known.rows) && Taught(s.known, vendorId, shape, doc, raws)
    && (forall raw :: raw in raws ==> MappingSafe(s, (vendorId, raw)))
    && forall w :: 0 <= w < |s.jobs| ==> Tame(world, doc, raws, s.known.eventTypes, vendorId, shape, s.jobs[w])
  }

  /** Every delivery of the vendor and shape that begins conforms; all others are arbitrary. */
  ghost predicate BringsConforming(world: World, doc: SchemaDoc, raws: set<string>, vendorId: string,
                                   shape: set<Entry>, actions: seq<Action>) {
    forall i :: 0 <= i < |actions| && actions[i].Begin? && OfShape(actions[i].d, vendorId, shape) ==>
      Conforms(world, doc, raws, actions[i].d)
  }

  lemma QuietIsUndisturbed(world: World, s: Sys, a: Action, vendorId: string, shape: set<Entry>, doc: SchemaDoc,
                           raws: set<string>)
    requires Enabled(s, a) && Quiet(world, s, vendorId, shape, doc, raws)
    ensures !Disturbs(s, a, vendorId, shape, raws)
    ensures forall raw :: raw in raws ==> MappingSafe(Next(world, s, a), (vendorId, raw))
  {
    if a.Step? {
      assert Tame(world, doc, raws, s.known.eventTypes, vendorId, shape, s.jobs[a.w]);
    }
    forall raw | raw in raws
      ensures MappingSafe(Next(world, s, a), (vendorId, raw)) && !Remaps(s, a, (vendorId, raw))
    {
      NextKeepsMappingSafe(world, s, a, (vendorId, raw));
    }
  }

  lemma NextKeepsTame(world: World, s: Sys, a: Action, first: Delivery, output: seq<Member>, doc: SchemaDoc,
                      raws: set<string>, w: nat)
    requires Enabled(s, a) && Discovered(world, first, output, doc)
    requires Quiet(world, s, first.vendorId, FingerprintOf(first.payload, {}), doc, raws)
    requires a.Begin? && OfShape(a.d, first.vendorId, FingerprintOf(first.payload, {})) ==>
               Conforms(world, doc, raws, a.d)
    requires w < |Next(world, s, a).jobs|
    ensures Tame(world, doc, raws, s.known.eventTypes, first.vendorId, FingerprintOf(first.payload, {}),
                 Next(world, s, a).jobs[w])
  {
    if w < |s.jobs| {
      assert Tame(world, doc, raws, s.known.eventTypes, first.vendorId, FingerprintOf(first.payload, {}), s.jobs[w]);
      assert Next(world, s, a).jobs[w].d == s.jobs[w].d;
      if OfShape(s.jobs[w].d, first.vendorId, FingerprintOf(first.payload, {})) && !s.jobs[w].phase.Finished? {
        ActionKeepsOnTrack(world, s, a, first, output, doc, raws, w);
      }
    } else if OfShape(a.d, first.vendorId, FingerprintOf(first.payload, {})) {
      BeginsOnTrack(world, s.known, first.vendorId, FingerprintOf(first.payload, {}), doc, raws, a.d);
    }
  }

  lemma NextKeepsQuiet(world: World, s: Sys, a: Action, first: Delivery, output: seq<Member>, doc: SchemaDoc,
                       raws: set<string>)
    requires Enabled(s, a) && Discovered(world, first, output, doc)
    requires Quiet(world, s, first.vendorId, FingerprintOf(first.payload, {}), doc, raws)
    requires a.Begin? && OfShape(a.d, first.vendorId, FingerprintOf(first.payload, {})) ==>
               Conforms(world, doc, raws, a.d)
    ensures !Disturbs(s, a, first.vendorId, FingerprintOf(first.payload, {}), raws)
    ensures Quiet(world, Next(world, s, a), first.vendorId, FingerprintOf(first.payload, {}), doc, raws)
  {
    var shape, s' := FingerprintOf(first.payload, {}), Next(world, s, a);
    QuietIsUndisturbed(world, s, a, first.vendorId, shape, doc, raws);
    KeepsTeachingIff(world, s, a, first.vendorId, shape, raws);
    TaughtByTeaching(s.known, s'.known, first.vendorId, shape, doc, raws);
    forall w | 0 <= w < |s'.jobs|
      ensures Tame(world, doc, raws, s'.known.eventTypes, first.vendorId, shape, s'.jobs[w])
    {
      NextKeepsTame(world, s, a, first, output, doc, raws, w);
      if OfShape(s'.jobs[w].d, first.vendorId, shape) && !s'.jobs[w].phase.Finished? {
        OnTrackBySameTeaching(world, doc, raws, s.known, s'.known, first.vendorId, shape, s'.jobs[w]);
      }
    }
  }

  /** Conforming traffic never disturbs what it depends on: from a quiet state, whatever interleaving and whatever else
      is going on, no action overwrites the document or replaces a mapping. */
  lemma {:induction false} QuietIsCalm(world: World, s: Sys, actions: seq<Action>, first: Delivery,
                                       output: seq<Member>, doc: SchemaDoc, raws: set<string>)
    requires Executable(world, s, actions) && Discovered(world, first, output, doc)
    requires Quiet(world, s, first.vendorId, FingerprintOf(first.payload, {}), doc, raws)
    requires BringsConforming(world, doc, raws, first.vendorId, FingerprintOf(first.payload, {}), actions)
    ensures Calm(world, s, actions, first.vendorId, FingerprintOf(first.payload, {}), raws)
    ensures Quiet(world, Exec(world, s, actions), first.vendorId, FingerprintOf(first.payload, {}), doc, raws)
    decreases |actions|
  {
    if actions != [] {
      NextKeepsQuiet(world, s, actions[0], first, output, doc, raws);
      QuietIsCalm(world, Next(world, s, actions[0]), actions[1..], first, output, doc, raws);
    }
  }

  // ----- Learn once, among many -----

  /** Conforming traffic is served for good: from a quiet state, in every interleaving, every conforming payload of the
      vendor and shape that begins is on track to its right event, whatever else is going on. */
  lemma ConformingTrafficIsServed(world: World, s: Sys, actions: seq<Action>, first: Delivery, output: seq<Member>,
                                  doc: SchemaDoc, raws: set<string>, w: nat)
    requires Executable(world, s, actions) && Discovered(world, first, output, doc)
    requires Quiet(world, s, first.vendorId, FingerprintOf(first.payload, {}), doc, raws)
    requires BringsConforming(world, doc, raws, first.vendorId, FingerprintOf(first.payload, {}), actions)
    requires |s.jobs| <= w < |Exec(world, s, actions).jobs|
    requires OfShape(Exec(world, s, actions).jobs[w].d, first.vendorId, FingerprintOf(first.payload, {}))
    ensures OnTrack(world, doc, s.known.eventTypes, Exec(world, s, actions).jobs[w])
  {
    var shape, end := FingerprintOf(first.payload, {}), Exec(world, s, actions);
    QuietIsCalm(world, s, actions, first, output, doc, raws);
    LearnedAmongMany(world, s, actions, first, output, doc, raws, w);
    JobsComeFromBegins(world, s, actions, w);
    SameTeachingSwaps(end.known, s.known, s.known, first.vendorId, shape, raws);
    OnTrackBySameTeaching(world, doc, raws, end.known, s.known, first.vendorId, shape, end.jobs[w]);
  }

  /** A job that is not there yet begins by one of the actions. */
  lemma {:induction false} JobsComeFromBegins(world: World, s: Sys, actions: seq<Action>, w: nat)
    requires Executable(world, s, actions) && |s.jobs| <= w < |Exec(world, s, actions).jobs|
    ensures Begin(Exec(world, s, actions).jobs[w].d) in actions
    decreases |actions|
  {
    var s' := Next(world, s, actions[0]);
    if w < |s'.jobs| {
      JobsKeepDeliveries(world, s', actions[1..], w);
    } else {
      JobsComeFromBegins(world, s', actions[1..], w);
      assert Begin(Exec(world, s', actions[1..]).jobs[w].d) in actions[1..];
    }
  }

  /** With its row settled and its mappings reviewed, every conforming payload is served in every schedule at all. */
  lemma ProtectedTrafficIsServed(world: World, s: Sys, actions: seq<Action>, first: Delivery, output: seq<Member>,
                                 doc: SchemaDoc, raws: set<string>, w: nat)
    requires Executable(world, s, actions) && Discovered(world, first, output, doc)
    requires Taught(s.known, first.vendorId, FingerprintOf(first.payload, {}), doc, raws)
    requires Protected(s.known, first.vendorId, FingerprintOf(first.payload, {}), raws)
    requires |s.jobs| <= w < |Exec(world, s, actions).jobs|
    requires Concerns(world, doc, raws, first.vendorId, FingerprintOf(first.payload, {}),
                      Exec(world, s, actions).jobs[w].d)
    ensures OnTrack(world, doc, s.known.eventTypes, Exec(world, s, actions).jobs[w])
  {
    var shape, end := FingerprintOf(first.payload, {}), Exec(world, s, actions);
    ProtectedIsCalm(world, s, actions, first.vendorId, shape, raws);
    LearnedAmongMany(world, s, actions, first, output, doc, raws, w);
    SameTeachingSwaps(end.known, s.known, s.known, first.vendorId, shape, raws);
    OnTrackBySameTeaching(world, doc, raws, end.known, s.known, first.vendorId, shape, end.jobs[w]);
  }

  /** A job that the start of learning need not fear: it asks nobody about the raw type, and if it is of the vendor and
      shape, it is over. */
  predicate Aside(job: Job, vendorId: string, shape: set<Entry>, raw: string) {
    && (OfShape(job.d, vendorId, shape) ==> job.phase.Finished?)
    && (job.phase.Unmapped? || job.phase.Classified? ==> (job.d.vendorId, job.phase.raw) != (vendorId, raw))
  }

  lemma LearnedIsQuiet(world: World, end: Sys, vendorId: string, shape: set<Entry>, doc: SchemaDoc, raw: string)
    requires KeyedRows(end.known.rows) && Taught(end.known, vendorId, shape, doc, {raw})
    requires forall w :: 0 <= w < |end.jobs| ==> Aside(end.jobs[w], vendorId, shape, raw)
    ensures Quiet(world, end, vendorId, shape, doc, {raw})
  {
    forall w | 0 <= w < |end.jobs|
      ensures !MayRemap(end.jobs[w], (vendorId, raw), end.known.eventTypes[(vendorId, raw)])
      ensures Tame(world, doc, {raw}, end.known.eventTypes, vendorId, shape, end.jobs[w])
    {
      assert Aside(end.jobs[w], vendorId, shape, raw);
    }
  }

  /** The last statement of a discovery teaches the raw type, in every interleaving, exactly when the document is still
      in its place and the raw type has no other mapping that cannot be used. */
  lemma NotingTeachesIff(world: World, s: Sys, w: nat, doc: SchemaDoc)
    requires w < |s.jobs| && s.jobs[w].phase.Noting? && s.jobs[w].phase.raw != ""
    requires Usable(s.jobs[w].phase.kind, s.jobs[w].phase.state)
    ensures var d, raw := s.jobs[w].d, s.jobs[w].phase.raw;
            var shape, before := FingerprintOf(d.payload, {}), MappingFor(s.known.eventTypes, (d.vendorId, raw));
            Taught(Next(world, s, Step(w)).known, d.vendorId, shape, doc, {raw}) <==>
            && DocFor(s.known.rows, d.vendorId, shape) == Some(doc)
            && (before.Some? ==> Usable(before.value.classification, before.value.state))
  {
    var raw, known := s.jobs[w].phase.raw, Next(world, s, Step(w)).known;
    assert known.rows == s.known.rows && raw in {raw};
  }

  /** Learn once: where nothing is known about a payload's vendor and shape, no other payload of the shape is on its way
      and nobody asks about its raw type, one question to the orchestrator, answered by an event whose document
      reproduces it, teaches the service and leaves it quiet. From there conforming traffic is served for good. */
  lemma LearnOnceAmongMany(world: World, s: Sys, first: Delivery, event: Event, output: seq<Member>,
                           answer: TypeAnswer, doc: SchemaDoc, raw: string) returns (actions: seq<Action>)
    requires Discovered(world, first, output, doc) && RawTypeIn(world, first.payload, doc) == Ok(Some(raw)) && raw != ""
    requires Unheard(s.known, first.vendorId, FingerprintOf(first.payload, {}), raw)
    requires forall w :: 0 <= w < |s.jobs| ==>
               Aside(s.jobs[w], first.vendorId, FingerprintOf(first.payload, {}), raw)
    ensures actions != [] && actions[0] == Begin(first) && Executable(world, s, actions)
    ensures forall i :: 0 < i < |actions| ==> !actions[i].Begin?
    ensures var n, end := |s.jobs|, Exec(world, s, actions);
            && |end.jobs| == n + 1 && end.jobs[n].d == first
            && end.jobs[n].asked == 1 && end.jobs[n].phase == Finished(Ok(Some(event)))
            && Quiet(world, end, first.vendorId, FingerprintOf(first.payload, {}), doc, {raw})
            && end.known == Learn(world, s.known, s.nextId, first, output).known
  {
    var shape, n, b := FingerprintOf(first.payload, {}), |s.jobs|, Answered(event, Some(output));
    var begun := Next(world, s, Begin(first));
    BestIsFirst(s.known.rows, first.vendorId, shape);
    DiscoveryTeaches(world, s.known, s.nextId, first, output, doc, raw);
    var later := AloneIsRest(world, begun, n, answer, b);
    ExecCons(world, s, Begin(first), later);
    JobsKeepDeliveries(world, begun, later, n);
    actions := [Begin(first)] + later;
    var end := Exec(world, s, actions);
    forall w | 0 <= w < |end.jobs|
      ensures Aside(end.jobs[w], first.vendorId, shape, raw)
    {
      assert w < n ==> end.jobs[w] == s.jobs[w];
    }
    LearnedIsQuiet(world, end, first.vendorId, shape, doc, raw);
  }
}
