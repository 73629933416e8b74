# Verified model of the webhook normaliser

The service takes arbitrary JSON webhooks from logistics vendors, turns each into a canonical event and projects the
events onto one row per shipment or invoice. This project models the four parts that carry its promises and proves
those promises for all inputs, all runs and all interleavings.

**The projection engine** (`Projection`, `Runs`, `Convergence`, `Tables`, `Database`, `Normalizer`, `Store`,
`Transactions`, `Serializability`, `Worker`). `Projection.Step` is what one event does to one entity. `Runs` and
`Convergence` prove what whole deliveries do, whatever they repeat and however they are ordered. `Tables` and `Database`
lift a step to the tables with their keys, where an entity is seen by its external key through `View`. `Engine.Store` is
the imperative engine, one transaction at a time. `Transactions` is the same engine as many workers with a program counter
each, one SQL statement per step, locks held to the commit and an abort possible anywhere; `Serializability` proves that
it refines the atomic engine and never deadlocks.

**Discovery and extraction** (`Json`, `PyText`, `Paths`, `Discovery`, `Templates`, `Fingerprint`, `DottedKeys`, `Adapter`,
`ExtractedEvents`, `Registry`, `Learning`, `Reproduction`, `InferredEvents`, `PathA`). The discoverer prints places of a
payload as path strings and templates, the adapter parses those strings and walks later payloads, and the fingerprint
decides which payloads reuse them. The proofs show when printing and resolving are inverse and when not, and exactly what
equal fingerprints promise. `ExtractedEvents` says of every field of an extracted event which place of the payload it
comes from, `InferredEvents` that what is extracted is what the provider said.

**Learning** (`LearnedRuns`, `Traffic`, `Learners`, `SoloLearner`, `SharedLearning`, `LateAnswer`, `Instance`). `LearnedRuns`
takes one payload, `Traffic` any run of deliveries one after the other. `Learners` is the pipeline as the workers run it, many
jobs at once, one statement to the registry or one reply of the provider per step. `SoloLearner` proves that a job alone does
what `Traffic` takes as one step; `SharedLearning` proves exactly which statements of which jobs disturb what was learned, what
protects it, and that conforming traffic is served for good. `Instance` holds concrete payloads.

**The LLM cache, budget and ledger** (`Hashing`, `Llm`, `LlmRuns`). Framing of hash inputs, one write-once cache for
validated and unvalidated answers, and a daily budget whose check and bookkeeping are separate steps. `Llm.Fallback` runs
one call at a time; `LlmRuns` interleaves the steps of many.

**Money** (`Money`): from a vendor's money string to minor units.

## Conventions

- An exception is `Raised`, a Python `None` is `None` or JSON null, as the source treats them.
- Timestamps are integer instants, amounts of LLM cost whole micro-dollars, days natural numbers.
- SHA-256 is taken to be injective: the framed bytes, or the shape set of a payload, stand for the digest.
- Id values come from a sequence and differ between orders of events; projections are compared by external key.
- The provider's replies, the clock, what Path B comes back with and which worker moves next are parameters.
- `Adapter.World` holds what is left open: timestamp parsing, `float()`, how Python prints a container, and the two
  substring searches for timestamps and money.

## Where code and documentation part

- The README of the service puts the row lock before the idempotency check; the code inserts into `applied_events` first
  (`app/domain/state_machine.py:131-143`) and locks the row later. The model follows the code.
- The `None` entry of both transition tables allows every state, so any event may be an entity's first.
- A shipment may not re-enter its own state and the branch for it is dead; an invoice may.
- The docstring of the LLM module promises an audit row for every call; `classify_event_type` and a rejected first reply
  write none (`app/llm/fallback.py:212-286`).
- The docstring of `parse_money` says that everything but digits, dots and commas is stripped; the pattern keeps a minus sign
  (`app/adapters/parsers.py:73,96`).
- Extraction of a shipment's coordinates calls `float()` outside any handler, so a coordinate that is no number raises
  (`app/adapters/schema_driven.py:479-499`).
- Discovery reads the id of a row that its upsert may not return (`app/adapters/schema_discoverer.py:502`) and then
  raises, leaving everything as it was.
- `normalize` raises its own error only for an unknown event type, so the review that `_finalize` keeps for a failed
  normalisation (`app/workers/pipeline.py:335-343`) is never reached; a vendor id that is blank once stripped raises a
  validation error instead, and the worker fails.

## What turned out false, and when it holds

- A found path does not always resolve: `Discovery.FoundPathResolves` gives the exact condition, no index directly behind
  another; `Discovery.NestedLeafIsLost` is a payload on which it fails.
- Equal fingerprints say little about keys that hold a dot: `Fingerprint.DottedKeysCollide`, and
  `DottedKeys.UnmistakableIffShallow` says exactly which payloads cannot be confused.
- An inferred template does not always give the composite back: `Templates.CompositeRoundTrip` gives the exact condition.
  It fails for a dash at an edge (`Templates.DashIsTrimmed`) and for a blank around a leaf (`Templates.BlankComesBack`).
- What was learned can be lost in two ways. The fingerprint does not see that a value is empty, so a payload of a learned
  shape may fail Path A, be asked about, and replace the provisional document (`Instance.HollowPayloadForgets`). And between
  looking up a mapping and storing a new one there is a provider call, so a late answer, whose state nobody checks, may
  replace a mapping that serves (`LateAnswer.LateAnswerForgets`). `SharedLearning.CalmIffKept` says that there is no third
  way, `SharedLearning.MappingSafeIff` and `SharedLearning.ProtectedTrafficIsServed` what protects from both.
- A rebuild from the log does not always reproduce live projections: the log is replayed by time of receipt, live events
  took effect by commit (`Database.LogOrderMatters`). `Engine.Store.Replay` says when it does.
- Event order matters in general: `Convergence.ConvergesIffDominates` says exactly when the latest state wins.
- A daily cap is no cap on the total when calls overlap: `LlmRuns.BudgetHolds` gives the bound, and
  `LlmRuns.BoundIsReachedFromStart` shows that it is the best one.
- Printed amounts do not always parse back: `int()` refuses more than 4300 digits, and `Money.PrintThenParse` draws the line
  there. A negative amount parses back exactly when it has no cents (`Money.NegativeIsMisread`); a debit of less than a unit
  becomes a credit (`Reproduction.DebitExtracted`).
- Event-type keys of different vendors can meet: `Hashing.EventTypeKeysMeetIff` says exactly which.

## Model

| member | source | states |
|---|---|---|
| Projection.FirstEventMayHaveAnyState | app/domain/state_machine.py:50-93 | the row insert may be unconditional: the `None` entry of both transition tables contains every state |
| Projection.SameStateUpdate | app/domain/state_machine.py:197-226 | a shipment in a state never takes that state again, so its same-state UPDATE is dead; an invoice's same-state UPDATE leaves amount, currency and due date alone |
| Projection.ShipmentAcceptsIff | app/domain/state_machine.py:50-85 | a shipment's state may follow another exactly when that is not terminal, the new one is neither PICKED_UP nor the same, one of them is EXCEPTION or the new one comes later on the way, and it is not OUT_FOR_DELIVERY to CANCELLED |
| Projection.InvoiceAcceptsIff | app/domain/state_machine.py:87-93 | an invoice takes its own state again, and otherwise moves on by exactly one stage: issued, then paid or voided, then refunded; voided is final |
| Projection.OutcomeIs | app/domain/state_machine.py:131-213 | what an event meets with, in every case: a repeat, a first event, an older one, one that the relation above allows, one that it rejects |
| Runs.RecordedIds | app/domain/state_machine.py:131-143 | after any delivery the recorded ids are exactly the delivered ids |
| Runs.OnlyFirstsMatter | app/domain/state_machine.py:131-143 | the projection of any delivery equals that of the delivery with only first occurrences kept |
| Runs.ReprocessingIsNoOp | app/domain/state_machine.py:131-143 | redelivering recorded events, any number of times and in any order, changes no row, no recorded id and no log entry |
| Runs.RecordedExactlyOnce | app/domain/state_machine.py:131-248 | every recorded event either moved the row or was logged, exactly once |
| Runs.StepCounts | app/domain/state_machine.py:131-248 | a new event adds one recorded id and either one version or one log entry |
| Runs.Conservation | app/domain/state_machine.py:131-248 | recorded ids = version + log entries in every reachable state, and a row exists as soon as an event does |
| Runs.OlderStaysOlder | app/domain/state_machine.py:182-195 | the row's timestamp never decreases, the log only grows, and an event logged as older stays strictly older than the row for ever |
| Runs.RowShowsTrace | app/domain/state_machine.py:228-248 | version, state, time and event id of the row are those of the applied history, whose timestamps never decrease and whose steps the transition table allows |
| Runs.MergedRefsAt | app/domain/state_machine.py:228-248 | the right-biased merge holds for each key what the latest event carrying it said |
| Runs.RefsAreRightBiasedMerge | app/domain/state_machine.py:337-380 | a row's references are, for each key, those of the latest applied event that carried the key, and there are no others |
| Runs.AmountFromOneEvent | app/domain/state_machine.py:273-380 | currency and amount of an invoice are both null or both from one event: the latest initial or state-changing applied event that carried an amount; the due date is that of the latest such event that carried one |
| Runs.LocationFromLatest | app/domain/state_machine.py:157-248 | a shipment's location is that of the latest applied event that carried one |
| Runs.LogTellsWhy | app/domain/state_machine.py:182-213 | every log entry names an event of the delivery, the state and time of the row that it met, and the reason: it was older, or the state relation does not allow it |
| Runs.RecordedStates | app/domain/state_machine.py:131-143 | the state recorded with an event id is the one that its first event was for |
| Convergence.ShipmentVersionBound | app/domain/state_machine.py:50-85 | a shipment's version is at most 4 + 3 times the applied exceptions |
| Convergence.VersionBoundIsReached | app/domain/state_machine.py:50-85 | and that bound is the best one: for every number of exceptions a delivery reaches it |
| Convergence.PickedUpIsNeverReentered | app/domain/state_machine.py:50-85 | PICKED_UP is only ever a first state |
| Convergence.TerminalShipmentRowIsFrozen | app/domain/state_machine.py:197-206 | once DELIVERED or CANCELLED, no column of the row changes again, whatever arrives |
| Convergence.InvoiceChangesAtMostTwice | app/domain/state_machine.py:87-93 | after its first event an invoice changes state at most twice |
| Convergence.InvoiceChangesAreReached | app/domain/state_machine.py:87-93 | and twice it may: issued, paid, refunded |
| Convergence.ConvergesIffDominates | app/domain/state_machine.py:182-206 | for any state and any set of states: every order and repetition of every delivery with that state among the latest ends in it, if and only if every other state may move to it and it may move to none of them |
| Convergence.DeliveredWins | app/domain/state_machine.py:50-85 | a never cancelled shipment with a latest delivery ends DELIVERED in every order; with cancellations allowed this is false |
| Convergence.VoidedWins | app/domain/state_machine.py:87-93 | the same for VOIDED over ISSUED, PAID over ISSUED and REFUNDED over PAID; it is false for REFUNDED once ISSUED, PAID and REFUNDED may all arrive |
| Tables.VendorAndExternalIdAreUnique | app/storage/migrations/001_init.sql:36-66 | the second unique key of the projection tables can never be the one an insert violates |
| Tables.ApplyTxViews | app/domain/state_machine.py:122-248 | one event moves its own entity by one step and no other entity, seen by external key, and keeps the keys of all tables |
| Tables.ApplyTxGrows | app/domain/state_machine.py:131-143 | entity ids and recorded pairs are never lost, and the event's own pair is recorded |
| Tables.ApplyTxKeepsForeignKeys | app/storage/migrations/001_init.sql:36-86 | every row keeps a live entity |
| Database.FinalizeTxKeepsDb | app/workers/pipeline.py:350-364 | finalising keeps: a canonical shipment or invoice row is applied to the entity it names, processed implies a canonical row, review implies a review row |
| Database.ReviewTxKeepsDb | app/workers/pipeline.py:415-437 | handing over to review keeps the same |
| Database.SetRawKeepsDb | app/workers/processor.py:42-54 | marking failed or pending keeps the same |
| Database.TruncateTxKeepsDb | app/tools/replay.py:114-142 | truncation keeps the same and empties every entity's rows |
| Database.RawLogIsKept | app/workers/pipeline.py:354-364 | the log keeps every webhook: finalising, handing over and truncating change the status they are for, and a vendor only where there was none |
| Database.FirstReasonStays | app/workers/pipeline.py:408-437 | an event is in review with the reason that came first |
| Database.FinalizeTxShows | app/workers/pipeline.py:350-364 | if the tables show the runs of a history, after one more finalisation they show the runs of the longer history |
| Database.AgreeingDeliveriesAgree | app/domain/state_machine.py:131-143 | two deliveries that agree per entity, up to repeats, leave equal projections whatever the interleaving across entities |
| Database.LogOrderMatters | app/tools/replay.py:76-106 | where the log holds two events of one shipment in another order than that of their commits, live and rebuilt rows differ: a concrete pair |
| Database.BothOrdersHappen | app/workers/pipeline.py:350-364 | finalising that pair in either order does give those two tables |
| Database.RedeliveryIsNoOp | app/domain/state_machine.py:131-143 | redelivering recorded (entity, event) pairs changes no entity's rows |
| Normalizer.NormalizedIsNormal | app/domain/normalizer.py:51-171 | what normalisation returns is its own normal form, so normalising twice is normalising once |
| Normalizer.NormalIff | app/domain/normalizer.py:51-171 | an event is returned as it is exactly when every text is stripped, no optional text is blank, no reference is null or blank, a location has a code or a name, and no amount is negative |
| Normalizer.NormalizedAgrees | app/domain/normalizer.py:51-171 | and any other event comes back as such a one that differs in surrounding blanks, empty texts and a negative amount only: ids, kind, type, time, due date, currency and amount stay |
| Normalizer.NormalizedPartsAgree | app/domain/normalizer.py:113-171 | references that are not empty stay, the others go; a location keeps its texts and coordinates, or had neither code nor name |
| Engine.Store.GetOrCreateEntity | app/domain/state_machine.py:388-426 | the stored id, or the next one of the sequence, which then is stored |
| Engine.Store.ApplyShipment | app/domain/state_machine.py:122-248 | the statements in order produce exactly the atomic change and the outcome of one step, whatever the state of the tables |
| Engine.Store.ApplyInvoice | app/domain/state_machine.py:251-380 | the same for invoices |
| Engine.Store.ApplyEvent | app/domain/state_machine.py:101-119 | dispatch; an unclassified event touches no projection |
| Engine.Store.FinalizeNormalized | app/workers/pipeline.py:350-364 | canonical row, projections and status change together, the history grows by the event, and an unknown event id raises and changes nothing |
| Engine.Store.Finalize | app/workers/pipeline.py:315-378 | the same behind the vendor override and normalisation, which raise and change nothing where an id is blank |
| Engine.Store.MarkReview | app/workers/pipeline.py:408-437 | review row and status together; the first reason stays |
| Engine.Store.MarkUnfinished | app/workers/pipeline.py:440-459 | pending and failed change one status and nothing else |
| Engine.Store.Truncate | app/tools/replay.py:114-142 | everything but the log is emptied, the log is queued again, the id sequence goes on |
| Engine.Store.Replay | app/tools/replay.py:76-142 | after replaying a slice the tables show the runs of the resulting history; with truncation first, every entity has its old rows back if the slice holds each entity's events in the order in which they were first finalised |
| Worker.Worker.Conclude | app/workers/pipeline.py:119-172 | a known event with an extracted event is finalised as its normalised form, or raises and changes nothing exactly where normalisation does; without one it is pending on a deferral and in review otherwise: the whole new database in each case |
| Worker.Worker.ProcessEvent | app/workers/pipeline.py:62-172 | the event that comes out of the two paths, under the stored vendor or else the inferred one, is the one that is finalised; registry, questions and the whole new database in every case; an exception, the provider's included, or an unknown id leaves the database as it was |
| Worker.WhichEvent | app/workers/pipeline.py:90-172 | which event that is: the one that Path A extracts, else the provider's, and none exactly where Path A gives up and the provider deferred or was of no use |
| Worker.PreparedIs | app/workers/pipeline.py:327-337 | the vendor override and normalisation: the pipeline's vendor unless it is empty or unknown, everything else as normalised, an exception exactly where an id is blank |
| Worker.ProviderIsFinalized | app/workers/pipeline.py:119-172 | where Path A gives up, the canonical row holds the provider's event; pending comes exactly from a deferral, review exactly from an answer of no use |
| Worker.TaughtIsFinalized | app/workers/pipeline.py:91-113 | learn once, down to the tables: a conforming payload of a taught vendor and shape is processed, and its canonical row is the right event, normalised, whatever the provider would have said |
| Serializability.EveryUpdateHitsOneRow | app/domain/state_machine.py:228-248 | in every reachable state `UPDATE ... WHERE version = $n` hits exactly the one row that was read, although the code never looks at the row count |
| Serializability.AdvanceOk | app/domain/state_machine.py:125-181 | what a worker knows from earlier statements stays true of the committed tables through each of its own statements |
| Serializability.CommitIsSerial | app/domain/state_machine.py:125-248 | a commit does what its transaction would do alone on the tables as they are at the commit |
| Serializability.CommitChangesWithinLocks | app/domain/state_machine.py:125-248 | a commit changes only what its transaction holds a lock on |
| Serializability.KnowledgeSurvives | app/domain/state_machine.py:125-248 | another worker's commit invalidates nothing that a worker relies on |
| Serializability.NextKeepsInv | app/domain/state_machine.py:125-380 | every statement, commit, abort, begin and truncation keeps the invariant of the step machine |
| Serializability.Serializable | app/domain/state_machine.py:125-380 | serializability: any number of workers, any interleaving of statements, aborts anywhere; the committed database is what the committed transactions leave when run atomically in commit order |
| Serializability.ConcurrentEngineShowsRuns | app/domain/state_machine.py:125-380 | so every entity's committed rows are the run of its own committed events, and the finalisation invariants hold, in every reachable state |
| Serializability.LocksAreTakenInOrder | app/workers/pipeline.py:350-364 | every statement that waits, waits for a lock of higher rank than all its transaction holds |
| Serializability.Progress | app/domain/state_machine.py:125-181 | no deadlock: with an unfinished transaction some worker can run its next statement, and that commits or brings it nearer to its commit |
| Serializability.FreshSystemIsIdle | app/storage/migrations/001_init.sql:10-86 | received events over empty tables are a start from which these results hold |
| Paths.ParsePath | app/adapters/schema_driven.py:530-562 | the loop splits a path as the recursive definition does, raising exactly on an unclosed bracket |
| Paths.ResolvePath | app/adapters/schema_driven.py:375-424 | the loop walks a payload as the recursive definition does, error cases included |
| Paths.PrintThenSplit | app/adapters/schema_driven.py:530-562 | splitting a printed structural path gives its segments back, indices attached to the key before them |
| Paths.PrintThenResolve | app/adapters/schema_driven.py:386-424 | a printed path without adjacent indices resolves, in every payload, to what stands there, or to None |
| Paths.NestedArraysAreLost | app/adapters/schema_driven.py:404-418 | a printed path with adjacent indices resolves to None in every payload that has something there |
| Paths.ResolvesIffNoAdjacentIndices | app/adapters/schema_driven.py:386-424 | for a non-null place: the round trip holds if and only if no index directly follows another |
| Paths.EmptyBrackets | app/adapters/schema_driven.py:391-403 | empty brackets take the first element of an array and leave anything else as it is |
| Paths.NegativeIndex | app/adapters/schema_driven.py:404-416 | a negative index counts from the end, and leads nowhere in front of the array |
| PyText.PyIntOfDigits | app/adapters/parsers.py:105-127 | `int()` reads a string of up to 4300 digits as its value and rejects the empty one and every longer one |
| Discovery.Search.Walk | app/adapters/schema_discoverer.py:391-401 | the closure appends the paths of the matching leaves, in order |
| Discovery.FindValuePath | app/adapters/schema_discoverer.py:379-409 | collecting, sorting by length and taking the head returns the first shortest match |
| Discovery.FoundPathIsFirst | app/adapters/schema_discoverer.py:403-409 | of the shortest paths that the walk reports, the first one is returned |
| Discovery.MatchesIff | app/adapters/schema_discoverer.py:391-401 | a leaf matches by its stripped text, a boolean as True or False; null and containers match nothing |
| Discovery.FoundIsThere | app/adapters/schema_discoverer.py:391-401 | every reported path is the printed form of a place that holds a matching leaf |
| Discovery.MatchingLeafIsFound | app/adapters/schema_discoverer.py:391-401 | every matching leaf is reported |
| Discovery.NothingFoundIffNoMatch | app/adapters/schema_discoverer.py:379-409 | no path is returned exactly when no non-null leaf matches |
| Discovery.FoundPathResolves | app/adapters/schema_discoverer.py:379-409 | the path round trip: the path found is minimal in length, and resolving it finds the matching leaf again if and only if no array on the way sits directly inside an array |
| Discovery.NestedLeafIsLost | app/adapters/schema_discoverer.py:379-409 | a concrete payload on which it fails |
| Templates.FindParts | app/adapters/schema_discoverer.py:269-289 | the loop finds a path for every part or gives up at the first part that is blank or missing |
| Templates.InferCompositeTemplate | app/adapters/schema_discoverer.py:261-292 | the first separator that works decides the template |
| Templates.ResolveTemplate | app/adapters/schema_driven.py:449-477 | the loop over the parts fills a template as the recursive definition does |
| Templates.JoinOfSplit | app/adapters/schema_discoverer.py:269-274 | splitting and joining a composite is the identity |
| Templates.TemplateInverse | app/adapters/schema_driven.py:449-477 | for one separator: filling in the inferred template gives the composite back if and only if every leaf found is truthy and prints as its part, and the composite neither begins nor ends with `:` or `-` |
| Templates.CompositeRoundTrip | app/adapters/schema_discoverer.py:261-292 | the same for whichever separator the discoverer settles on |
| Templates.FirstSeparatorWins | app/adapters/schema_discoverer.py:261-292 | a separator works exactly where it makes two to four parts that all stand in the payload; of those that do, the colon goes before the dash, the underscore and the slash |
| Templates.TrimmedIs | app/adapters/schema_driven.py:470-477 | what is trimmed off a filling: all colons at its ends, then all dashes, nothing else; None where no hole had a value or nothing is left |
| Templates.DashIsTrimmed | app/adapters/schema_driven.py:470-477 | a concrete composite that fails for its edge |
| Templates.BlankComesBack | app/adapters/schema_driven.py:449-477 | a concrete leaf that fails for its blank |
| Fingerprint.Fingerprinter.Walk | app/adapters/fingerprint.py:40-60 | the closure adds exactly the shape of the value to the shared set |
| Fingerprint.StructuralFingerprint | app/adapters/fingerprint.py:24-63 | the shape of the payload, map paths skipped |
| Fingerprint.EntryIffAt | app/adapters/fingerprint.py:40-60 | on clean keys an entry of an array-free path is in the shape if and only if the path leads somewhere, to a value of that type |
| Fingerprint.FingerprintIs | app/adapters/fingerprint.py:37-64 | the fingerprint of a clean payload is the set of its places, each with its type and with indices left out, and nothing else |
| Fingerprint.SameFingerprintSamePaths | app/adapters/schema_driven.py:375-424 | fingerprint soundness: with equal fingerprints every bracket-free path string resolves in both payloads, to two nulls, two booleans, two numbers, two strings, two arrays or two objects |
| Fingerprint.DifferentKindsDiffer | app/adapters/fingerprint.py:37-64 | the converse: payloads that hold values of different kinds under a bracket-free path have different fingerprints |
| Fingerprint.NumberIsNoString | app/adapters/fingerprint.py:52-62 | a number and the string that spells it have different fingerprints |
| Fingerprint.DottedKeysCollide | app/adapters/fingerprint.py:47-50 | without clean keys this is false: two concrete payloads |
| DottedKeys.UnmistakableIffShallow | app/adapters/fingerprint.py:37-64 | fingerprint soundness against payloads with any keys: a clean payload agrees with every payload of its fingerprint in every path of clean keys if and only if no object sits non-empty directly inside it |
| Fingerprint.AlikeKeepsFingerprint | app/adapters/fingerprint.py:37-64 | shape algebra: reordering keys, permuting or repeating array elements and same-type leaf changes, anywhere, keep the fingerprint |
| Fingerprint.SameChildrenAreAlike | app/adapters/fingerprint.py:37-64 | in particular arrays with the same elements and objects with the same members are alike |
| Fingerprint.SkippingShapeIsExplained | app/adapters/fingerprint.py:40-45 | the fingerprint with map paths is a function of the one without |
| Fingerprint.EqualityIsKeptByMapPaths | app/adapters/fingerprint.py:35-64 | for clean keys, equal fingerprints stay equal under any map paths |
| Adapter.ResolveField | app/adapters/schema_driven.py:343-373 | one path, the first non-null of several, or a template, raising where a path does |
| Adapter.ExtractMap | app/adapters/schema_driven.py:513-527 | labels of non-null values, later ones winning |
| Adapter.FirstFoundIs | app/adapters/schema_driven.py:357-363 | of several paths the first one counts that leads to something or raises |
| Adapter.ShipmentTypesAreStates | app/domain/canonical.py:140-147 | a shipment's event types are one for each state, each leads to its state, and no other text is one |
| Adapter.InvoiceTypesAreStates | app/domain/canonical.py:149-154 | the same for invoices |
| Adapter.Extract | app/adapters/schema_driven.py:97-155 | whatever is extracted bears the delivery's own event and vendor id |
| ExtractedEvents.ExtractedIsBy | app/adapters/schema_driven.py:97-341 | whatever is extracted, by any document from any payload: id, time, location with its coordinates, amount, due date, references, notes and the vendor's event type are each what their own path leads to, read as what they are |
| Registry.BestIsFirst | app/adapters/registry.py:52-66 | the lookup finds a row exactly when one answers, and then none comes before it in the ORDER BY |
| Registry.BestIsActiveOrLatest | app/adapters/registry.py:52-66 | an active row goes before every provisional one, the latest version goes first within a status, and a retired row is never found |
| Registry.SchemaRegistry.Lookup | app/adapters/registry.py:37-77 | the scan returns that row for the payload's fingerprint |
| Registry.LookupSeesTheRightWrite | app/adapters/registry.py:79-136 | after any run of writes by both paths a lookup returns the mapping that a person reviewed, else the last overwriting write, else what was there before, else the first write |
| Registry.SchemaRegistry.PersistEventType | app/adapters/registry.py:105-136 | the next lookup of the raw type returns the reviewed mapping if there is one and the new one otherwise; every other lookup, and every schema row, is as before |
| Registry.SchemaRegistry.Increment | app/adapters/registry.py:138-150 | counters change and no lookup of any vendor and shape does |
| Registry.CountedAt | app/adapters/registry.py:138-150 | one counter of the one row moves by one |
| Registry.SchemaRegistry.PersistSchema | app/adapters/schema_discoverer.py:474-502 | the next lookup returns the new document where none was found before or the row found is a provisional version 1, and what it returned before otherwise; it raises, and changes nothing, only where the document could not have shown, and no other lookup changes |
| Registry.SchemaRegistry.PersistEventTypeOnce | app/adapters/schema_discoverer.py:504-526 | the next lookup of the raw type returns the mapping that was there if there was one and the new one otherwise; every other lookup, and every schema row, is as before |
| Registry.PersistingKeepsOthers | app/adapters/schema_discoverer.py:474-502 | storing a document for one vendor and shape changes no lookup for another |
| Registry.BestAfterPersisting | app/adapters/registry.py:52-66 | what a lookup returns after the upsert, in every case: the new row where none answered, the new document where the row found is a provisional version 1, and what it returned before otherwise |
| Learning.MapField | app/adapters/schema_discoverer.py:144-174 | direct match, then composite template for ids, then timestamp search |
| Learning.MapReferences | app/adapters/schema_discoverer.py:208-242 | the labels whose values stand in the payload, in order |
| Learning.InferSchemaDoc | app/adapters/schema_discoverer.py:103-142 | field by field the inferred document, None without id or timestamp |
| Learning.DiscoverAndPersist | app/adapters/schema_discoverer.py:37-101 | infer, check against the same payload, store, map the raw type: the whole new registry state, in every error case too |
| InferredEvents.DocIsInferredIff | app/adapters/schema_discoverer.py:103-142 | a document is inferred exactly from a known classification, and for a shipment or an invoice only where the payload holds its external id, in one leaf or as a composite, and its time |
| InferredEvents.EventTypeReproduced | app/adapters/schema_discoverer.py:112-124 | the vendor's event type comes back from the payload: the provider's raw milestone for a shipment, its raw kind for an invoice, up to blanks, exactly where it stands at a truthy leaf |
| InferredEvents.ShipmentReproduced | app/adapters/schema_discoverer.py:109-116 | what an inferred document extracts from its own payload is what the provider said: id, time, references and location, as far as the payload holds them |
| InferredEvents.InvoiceReproduced | app/adapters/schema_discoverer.py:118-127 | the same for an invoice: id, time, references, amount and due date |
| InferredEvents.UnclassifiedReproduced | app/adapters/schema_discoverer.py:129-131 | the same for summary and reason |
| Reproduction.ValueReproduced | app/adapters/schema_discoverer.py:379-409 | without arrays inside arrays, a value that was found is found again, as a leaf with the same stripped text |
| Reproduction.ReferencesReproduced | app/adapters/schema_driven.py:513-527 | the references the provider named, as far as they stand in the payload, are extracted from it again, and nothing else is |
| Reproduction.PlaceReproduced | app/adapters/schema_driven.py:479-499 | a location comes back exactly when the leaf of its code or of its name is truthy, with the provider's code under code, name under name and each coordinate from its own leaf; it raises exactly when one comes back and a coordinate that was found is no number |
| Reproduction.IdReproduced | app/adapters/schema_driven.py:426-447 | an external id that was found directly comes back, up to surrounding blanks, exactly when its leaf is truthy |
| Reproduction.AmountExtracted | app/adapters/schema_driven.py:501-511 | an amount printed behind its currency is extracted as that currency and that many minor units, and as none where it is too long to read |
| Reproduction.DebitExtracted | app/adapters/schema_driven.py:501-511 | a debit of less than one unit is extracted as a credit, and a larger one not at all |
| PathA.Pipeline.ProcessViaSchema | app/workers/pipeline.py:175-258 | Path A with its two passes: event, questions asked and registry state |
| PathA.Pipeline.ProcessEvent | app/workers/pipeline.py:90-172 | Path A, then Path B with discovery: event or exception, questions asked and registry state |
| PathA.PrintedNeverRaises | app/adapters/schema_driven.py:375-424 | a path that the discoverer prints never raises, whatever payload it meets |
| PathA.InferredFieldsArePrinted | app/adapters/schema_discoverer.py:103-142 | every optional path of an inferred document is such a path |
| LearnedRuns.StaysPresent | app/adapters/schema_driven.py:375-424 | what a required path finds in one payload of a fingerprint it finds in every other |
| LearnedRuns.HoleLeadsToLeaf | app/adapters/schema_discoverer.py:261-292 | every hole of an inferred template leads to a leaf of its payload |
| LearnedRuns.EssentialsStay | app/adapters/schema_driven.py:172-199 | external id and timestamp are found in every conforming later payload |
| LearnedRuns.LaterExtracts | app/adapters/schema_driven.py:97-308 | the second pass over a conforming later payload yields the event that the mapping calls for, every field from its own place in the payload |
| LearnedRuns.PathAServes | app/workers/pipeline.py:91-113 | one conforming later payload: the right event in every field, no question asked, nothing forgotten |
| LearnedRuns.UnclassifiedServes | app/workers/pipeline.py:187-208 | a payload learned as of neither kind serves every other one of its vendor and shape, whatever its values, without a question or a mapping |
| Traffic.OthersKeepTeaching | app/workers/pipeline.py:90-172 | processing a payload of another vendor or shape, by either path, changes no lookup for this one |
| Traffic.KeepsDocIffNotForgets | app/workers/pipeline.py:90-172 | one payload changes the stored document if and only if Path A gives up on it, the answer is fresh, its inferred document reproduces and differs, and the row found is a provisional version 1 |
| Traffic.UndisturbedIffKept | app/workers/pipeline.py:90-172 | over a run of deliveries one after the other: the document stays in place all the way if and only if no payload, at its turn, does that |
| Traffic.LearnedForGood | app/workers/pipeline.py:187-258 | in any traffic processed one delivery after the other, a conforming payload of a learned vendor and shape becomes the right event with no question asked, as long as no payload before it made the service forget |
| Traffic.ConformingIsUndisturbed | app/workers/pipeline.py:187-258 | conforming payloads of the shape, and any payloads of other vendors and shapes, never do |
| Traffic.SettledServesForGood | app/adapters/schema_discoverer.py:486-496 | one delivery after the other, once the row is active or of a later version every conforming payload is served, whatever else arrives |
| Traffic.DiscoveryTeaches | app/adapters/schema_discoverer.py:58-101 | what a successful discovery stores is enough for that, and is provisional |
| Traffic.LearningMapsThatType | app/adapters/schema_discoverer.py:82-92 | a discovery maps its raw type to the provider's event type under the document's classification, unreviewed, unless it is mapped already |
| Traffic.OnlyReproducedIsLearned | app/adapters/schema_discoverer.py:66-70 | nothing is learned but what reproduces: the document gives an event for the provider's event type, and its external id contains the provider's or is contained in it |
| Traffic.CountersTell | app/workers/pipeline.py:91-117 | the counters tell the truth: one success for the row whose document served, one failure where Path A gave up, nothing else |
| Traffic.LearnOnce | app/workers/pipeline.py:91-172 | learn once, one delivery after the other: one question for the first payload of a shape, none for a conforming payload of the vendor and shape later, as long as no payload between makes the service forget |
| Learners.JobsAreTraced | app/workers/pipeline.py:175-258 | in every interleaving, where a job stands follows from what its two lookups returned as long as nobody was asked, and where somebody was asked after a mapping was found, Path A had given up |
| Learners.ServedIffSeen | app/workers/pipeline.py:175-258 | in every interleaving, a conforming payload that ends without an exception becomes the right event with no question asked if and only if its row lookup returned the document and its mapping lookup a mapping whose classification knows its state |
| SoloLearner.AloneIsRest | app/workers/pipeline.py:90-172 | a job that nobody interferes with does, statement by statement, what processing its delivery in one go does: event, questions, registry |
| SharedLearning.KeepsDocIff | app/adapters/schema_discoverer.py:486-496 | one statement, reply or abort among many jobs changes the document that a lookup finds if and only if it stores another one over a provisional version 1 |
| SharedLearning.KeepsMappingIff | app/adapters/registry.py:105-136 | and changes a mapping if and only if it stores another answer over an unreviewed one |
| SharedLearning.CalmIffKept | app/workers/pipeline.py:90-258 | over whole schedules: document and mappings stay in place all the way if and only if no action, at its turn, does either |
| SharedLearning.LearnedAmongMany | app/workers/pipeline.py:187-258 | in every schedule that leaves them in place, whatever else goes on, every conforming payload that begins is on track to its right event with no question asked |
| SharedLearning.StaysOnTrack | app/workers/pipeline.py:175-258 | such a job ends in at most three statements of its own, none of which waits for a reply |
| SharedLearning.MappingSafeIff | app/workers/pipeline.py:216-225 | a mapping survives every schedule if and only if a person has reviewed it or no job on its way may still store another answer |
| SharedLearning.ProtectedTrafficIsServed | app/adapters/registry.py:105-136 | with an active or later row and reviewed mappings, every conforming payload is served in every schedule at all |
| SharedLearning.QuietIsCalm | app/workers/pipeline.py:175-258 | conforming traffic never disturbs: from a quiet state, in every interleaving with any other traffic, document and mappings stay |
| SharedLearning.ConformingTrafficIsServed | app/workers/pipeline.py:91-172 | so from a quiet state every conforming payload that begins is served |
| SharedLearning.LearnOnceAmongMany | app/workers/pipeline.py:91-172 | learn once: one question for a payload of a vendor and shape never seen before leaves the service taught and quiet |
| SharedLearning.NotingTeachesIff | app/adapters/schema_discoverer.py:58-101 | in every interleaving, the last statement of a discovery leaves the service taught if and only if its document is still in place and the raw type has no other mapping that cannot be used |
| LateAnswer.LateAnswerForgets | app/workers/pipeline.py:216-295 | the race, for every learned document and new raw type: two jobs ask, the first answer serves, the late one replaces the mapping, and a conforming payload costs a question although its document is untouched |
| Instance.LearnOnceHasInstances | app/workers/pipeline.py:91-172 | the conditions of the learn-once theorems can be met: a concrete payload, an answer that satisfies the target schema, and its document, in every world that reads the timestamp |
| Instance.HollowPayloadForgets | app/adapters/schema_discoverer.py:486-496 | forgetting happens: after the discovery, one payload of the same shape with an empty id and a fresh answer, and the first payload costs a question again although it still conforms |
| Instance.LateAnswerHasInstances | app/workers/pipeline.py:216-295 | the race can happen: after the discovery, payloads of another kind |
| Hashing.HashInput | app/hashing.py:24-30 | the update loop feeds the parts with one separator between neighbours |
| Hashing.FramingIsInjective | app/hashing.py:24-30 | framed parts are equal if and only if the parts are, when only the last may hold the separator |
| Hashing.KeysSpelled | app/hashing.py:33-60 | event ids and cache keys spelled out; an absent part leaves no trace |
| Hashing.EventIdIsInjective | app/hashing.py:33-44 | event ids are equal if and only if payload and vendor event id are, whatever bytes the vendor sends |
| Hashing.ExtractKeyIsInjective | app/hashing.py:47-60 | extraction keys are equal if and only if versions, payload and vendor are |
| Hashing.KindsOfKeyAreApart | app/llm/fallback.py:228-232 | no extraction key is an event-type key |
| Hashing.EventTypeKeysMeetIff | app/llm/fallback.py:228-232 | two vendors share an event-type key for some raw types if and only if they are the same or one continues the other with the separator byte |
| Hashing.EventTypeKeyTellsRawTypes | app/llm/fallback.py:228-232 | for one vendor the event-type key tells raw types apart |
| Llm.InsertExtractKeepsCache | app/llm/fallback.py:347-365 | storing a valid answer keeps every cached extraction valid |
| Llm.InsertEventTypeKeepsCache | app/llm/fallback.py:278 | storing an unvalidated event-type answer keeps every cached extraction valid |
| Llm.ValidatedIff | app/llm/fallback.py:298-312 | a reply is taken exactly where it reads as an object that satisfies the schema |
| Llm.ClassifiedReads | app/llm/fallback.py:280-286 | classification and state of an event-type answer, each under its own name, exactly where both are there and the confidence is a number |
| Llm.Fallback.ClassifyExtract | app/llm/fallback.py:126-210 | cache, budget, call, one retry, cache, audit: answer, calls and whole new state in every case; any object returned satisfies the schema and no entry changes |
| Llm.Fallback.ClassifyEventType | app/llm/fallback.py:212-286 | the unvalidated and unaudited variant: answer, calls and whole new state in every case, extraction entries still valid |
| LlmRuns.NextKeepsSound | app/llm/fallback.py:126-286 | every step of every worker keeps cache and answers valid and the cache write-once |
| LlmRuns.DeliveredIsValid | app/llm/fallback.py:133-155 | cache validity over runs: in every interleaving every object handed out satisfies the schema |
| LlmRuns.BudgetHolds | app/llm/fallback.py:84-104 | budget bound, globally and per vendor: no day's audited total exceeds cap - estimate + (calls in flight) * (largest cost), or 0 if the cap is below one estimate, in any interleaving and across midnight |
| LlmRuns.BudgetHoldsFromStart | app/workers/processor.py:79-83 | from an empty ledger the bound holds for ever; one worker with costs up to the estimate never exceeds a cap that is not negative |
| LlmRuns.BoundIsReachedFromStart | app/llm/fallback.py:158-210 | the bound cannot be lowered: from the empty ledger, for every cap of at least one estimate and every positive number of workers and largest cost, a schedule that reaches it, where the other cap does not bind first |
| LlmRuns.UninterruptedCall | app/llm/fallback.py:126-210 | a call that nobody interferes with does in six steps what the one-step orchestrator does |
| Money.MinorUnitsOfPlain | app/adapters/parsers.py:96-129 | money refinement: digits and separators are the number the digits spell, scaled by the one or two digits behind the last separator, by 100 otherwise; beyond 4300 digits before those it raises |
| Money.PrintThenParse | app/adapters/parsers.py:66-129 | every amount printed in US or European style behind a currency code parses back to that currency and amount if its major units have up to 4300 digits, and raises otherwise |
| Money.PrintSymbolThenParse | app/adapters/parsers.py:85-94 | the same behind `$`, the euro sign and the pound sign |
| Money.PrintBeforeCodeThenParse | app/adapters/parsers.py:85-88 | the same in front of the code |
| Money.PrintBareThenParse | app/adapters/parsers.py:84-94 | a bare number is in US dollars |
| Money.NegativeIsMisread | app/adapters/parsers.py:96-129 | a minus sign reaches the major units only: a negative amount reads as itself if and only if it has no cents, and one of less than a unit reads as positive |

## Left out

- HTTP routing, signature checks, the queue, logging, metrics, the migrations runner and the OpenAI client are not part of
  this model; a queue redelivery is an arbitrary second processing of the same event.
- `app/adapters/llm_universal.py`: field copying from the provider's reply.
- Worker.Worker.Conclude: the reason of a hand-over is the default one; the provider's own reason is part of its detail.
- Worker.TaughtIsFinalized: speaks of one event on tables that nobody else writes; `Serializability.Serializable` reduces any
  interleaving to that.
- Normalizer.NormalizedIsNormal: says nothing about the clamp of confidence, the conversion to UTC and the upper-casing of a
  currency; the model holds no confidence, instants are absolute and currencies are upper-case already.
- `_infer_vendor_id`: substring matches on five payload fields; the inferred vendor is a parameter.
- `parse_timestamp`: a partial function from strings to instants.
- `_find_timestamp_path` and `_find_money_path`: substring heuristics; all that is used of them is that they report the printed
  path of a place in the payload.
- JSON encoding: compact JSON text is any byte string without control characters; the encoder's independence of key order and
  its injectivity are not part of this model.
- The target schema is an arbitrary predicate, and reading JSON out of a reply, code fences included, an arbitrary partial
  function.
- Row locks that PostgreSQL takes on `entities` and `raw_events` to check foreign keys: they conflict with nothing the engine
  does to those rows.
- `TRUNCATE` waits for all open transactions and runs as one step; replays start workers again afterwards.
- The `raw_events` row is present before a worker starts; receiving a webhook is not part of this model.
- Real SQL results beyond the columns that decide something: confidence, prompt and schema versions in the tables, token
  counts, latencies, `created_at` and `updated_at`.
- PyText.Strip: the whitespace of `str.strip`; case folding and Unicode digits of `int()` and `\w` are not modelled, so codes
  and digits are ASCII.
- Paths.ResolvePath: an index with more than 4300 digits, which `int()` refuses, is read as its number; no list is that long,
  so either way nothing is found.
- Json.LeafText: a number is carried as the text that `str()` prints for it.
- Templates.Text: how Python prints a list or dict is an arbitrary function.
- Adapter.Extract: a document's field specs are the kinds that the service writes; other JSON in their place, which the code
  reads as no spec, is not modelled.
- Adapter.ExtractMap: map specs are modelled as ordered pairs of label and path.
- Traffic.LearnOnce: for coordinates it asks that `float()` reads them where they are present, which includes payloads
  without any; the raw type's mapping must name a state that its classification knows.
- Learners.ServedIffSeen: nothing in the repository makes a row active or reviews a mapping; both are part of the state that a
  schedule starts from. A job that a database error stops while it learns, which `process_event` swallows, is an abort here.
- SharedLearning.LearnOnceAmongMany: the job that discovers runs without interference, while others stand where they are;
  deliveries after it interleave freely. `SharedLearning.NotingTeachesIff` says what interference may do to a discovery.
- Registry.BestAfterPersisting: versions of schema rows start at 1, which the column's default gives and no statement lowers.
- Engine.Store.Replay: takes the extracted and normalised event of each log row as given; what Path A or Path B extracts on a replay may
  differ from what it extracted live. That agreement of orders suffices is proved; that it is needed is false, since by
  `Convergence.ConvergesIffDominates` some disagreements do no harm.
- LlmRuns.BoundIsReachedFromStart: for a vendor's cap it asks that the global cap is no lower, for the global cap that one
  vendor may make one call; under a cap below one estimate nothing is ever spent and the bound is 0.
- `allow` compares the UTC date with `created_at::date` in the time zone of the database session
  (`app/llm/fallback.py:87-92`); the model has one clock, so it describes a session whose time zone is UTC.
- LlmRuns.BudgetHolds: bounds the audited ledger of `classify_extract`; what `classify_event_type` and rejected first replies
  cost is spent but never recorded.
- LlmRuns.DeliveredIsValid: the versions in the keys are constants of a run, free of the separator byte and different from
  `classify_event_type_v1`.
- Engine.Store.ApplyShipment: the dead branch for a shipment's own state is a comment, `Projection.SameStateUpdate` shows why.
- Transactions: a lock is granted to any waiter; PostgreSQL's queues only restrict the interleavings further.
