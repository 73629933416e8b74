/** Many workers using the orchestrator at once. Reading the cache, reading the clock, summing the ledger,
    calling the provider, writing the cache and writing the audit row are separate steps, each worker stands
    between two of them, and any worker may fall over anywhere. */
module LlmRuns {
  import opened Prelude
  import opened Json
  import opened Hashing
  import opened Llm

  datatype Call = Extract(eventId: string, json: Bytes, vendor: Bytes) | EventType(vendor: Bytes, raw: Bytes)

  datatype Phase =
    | Idle
    | Missed(call: Call)                                // not in the cache
    | Dated(call: Call, day: nat)                       // `today` is read, the ledger is not
    | Cleared(call: Call)                               // the budget allows it
    | Replied(call: Call, data: Json, cost: nat)        // the provider has answered
    | Stored(call: Call, data: Json, cost: nat)         // written to the cache; the audit row is next
    | Hit(call: Call, data: Json, cost: nat)            // found in the cache; the audit row is next

  /** An object handed to the caller of `classify_extract`. */
  datatype Delivery = Delivery(call: Call, data: Json)

  datatype State = State(cache: map<Bytes, Entry>, audit: seq<AuditRow>, today: nat, workers: seq<Phase>,
                         delivered: seq<Delivery>)

  datatype Action =
    | Look(worker: nat, call: Call)
    | ReadClock(worker: nat)
    | Check(worker: nat)
    | Receive(worker: nat, data: Json, cost: nat)
    | Store(worker: nat)
    | Audit(worker: nat)
    | Quit(worker: nat)          // budget refused, replies rejected, provider down, or the process died
    | NextDay

  function Key(env: Env, call: Call): Bytes {
    match call
    case Extract(_, json, vendor) => ExtractKey(env.versions, json, vendor)
    case EventType(vendor, raw) => EventTypeKey(vendor, raw)
  }

  function Estimate(call: Call): nat {
    if call.Extract? then EXTRACT_ESTIMATE else EVENT_TYPE_ESTIMATE
  }

  /** What the replies that get this far are known to be. */
  predicate Accepted(env: Env, call: Call, data: Json) {
    data.Obj? && (call.Extract? ==> env.valid(data))
  }

  predicate Enabled(env: Env, s: State, a: Action) {
    if a.NextDay? then true
    else if a.worker >= |s.workers| then false
    else
      var p := s.workers[a.worker];
      match a
      case Look(_, call) => p.Idle? && (call.Extract? ==> JsonText(call.json))
      case ReadClock(_) => p.Missed?
      case Check(_) => p.Dated?
      case Receive(_, data, _) => p.Cleared? && Accepted(env, p.call, data)
      case Store(_) => p.Replied?
      case Audit(_) => p.Stored? || p.Hit?
      case Quit(_) => true
  }

  function Moved(s: State, w: nat, p: Phase): State
    requires w < |s.workers|
  {
    s.(workers := s.workers[w := p])
  }

  function Next(env: Env, caps: Caps, s: State, a: Action): State
    requires Enabled(env, s, a)
  {
    if a.NextDay? then s.(today := s.today + 1)
    else
      var p := s.workers[a.worker];
      match a
      case Look(w, call) =>
        var key := Key(env, call);
        Moved(s, w, if key !in s.cache then Missed(call)
                    else if call.Extract? then Hit(call, s.cache[key].output, s.cache[key].cost)
                    else Idle)
      case ReadClock(w) => Moved(s, w, Dated(p.call, s.today))
      case Check(w) =>
        Moved(s, w, if Allowed(caps, s.audit, p.day, p.call.vendor, Estimate(p.call)) then Cleared(p.call) else Idle)
      case Receive(w, data, cost) => Moved(s, w, Replied(p.call, data, cost))
      case Store(w) =>
        Moved(s, w, if p.call.Extract? then Stored(p.call, p.data, p.cost) else Idle)
        .(cache := Insert(s.cache, Key(env, p.call), Entry(p.data, p.cost)))
      case Audit(w) =>
        Moved(s, w, Idle)
        .(audit := s.audit + [AuditRow(if p.call.Extract? then p.call.eventId else "",
                                       if p.Hit? then FromCache else Fresh, p.call.vendor, p.cost, s.today)],
          delivered := s.delivered + [Delivery(p.call, p.data)])
      case Quit(w) => Moved(s, w, Idle)
  }

  predicate Executable(env: Env, caps: Caps, s: State, actions: seq<Action>)
    decreases |actions|
  {
    actions == []
    || (Enabled(env, s, actions[0]) && Executable(env, caps, Next(env, caps, s, actions[0]), actions[1..]))
  }

  function Exec(env: Env, caps: Caps, s: State, actions: seq<Action>): State
    requires Executable(env, caps, s, actions)
    decreases |actions|
  {
    if actions == [] then s else Exec(env, caps, Next(env, caps, s, actions[0]), actions[1..])
  }

  function Start(workers: nat, day: nat): State {
    State(map[], [], day, seq(workers, i => Idle), [])
  }

  // ----- Cache validity -----

  /** A worker on its way to an audit row serves an extraction and holds a valid object. */
  predicate PhaseOk(env: Env, p: Phase) {
    && (!p.Idle? && p.call.Extract? ==> JsonText(p.call.json))
    && (p.Replied? ==> Accepted(env, p.call, p.data))
    && (p.Stored? || p.Hit? ==> p.call.Extract? && env.valid(p.data))
  }

  ghost predicate Sound(env: Env, s: State) {
    && GoodVersions(env.versions) && CacheOk(env, s.cache) && EventTypesOk(s.cache)
    && (forall w :: 0 <= w < |s.workers| ==> PhaseOk(env, s.workers[w]))
    && (forall i :: 0 <= i < |s.delivered| ==> env.valid(s.delivered[i].data))
  }

  lemma NextKeepsSound(env: Env, caps: Caps, s: State, a: Action)
    requires Sound(env, s) && Enabled(env, s, a)
    ensures Sound(env, Next(env, caps, s, a))
    ensures WriteOnce(s.cache, Next(env, caps, s, a).cache)
  {
    if a.Store? {
      var p := s.workers[a.worker];
      match p.call {
        case Extract(_, json, vendor) => InsertExtractKeepsCache(env, s.cache, json, vendor, Entry(p.data, p.cost));
        case EventType(vendor, raw) => InsertEventTypeKeepsCache(env, s.cache, vendor, raw, Entry(p.data, p.cost));
      }
    }
  }

  /** Cache validity: in every interleaving, every object that `classify_extract` hands out, fresh or cached,
      satisfies the target schema, and no cache entry ever changes. */
  lemma {:induction false} DeliveredIsValid(env: Env, caps: Caps, s: State, actions: seq<Action>)
    requires Sound(env, s) && Executable(env, caps, s, actions)
    ensures var end := Exec(env, caps, s, actions);
            && Sound(env, end) && WriteOnce(s.cache, end.cache)
            && forall i :: 0 <= i < |end.delivered| ==> env.valid(end.delivered[i].data)
    decreases |actions|
  {
    if actions != [] {
      NextKeepsSound(env, caps, s, actions[0]);
      DeliveredIsValid(env, caps, Next(env, caps, s, actions[0]), actions[1..]);
    }
  }

  lemma StartIsSound(env: Env, workers: nat, day: nat)
    requires GoodVersions(env.versions)
    ensures Sound(env, Start(workers, day))
  {
  }

  // ----- The budget -----

  /** A worker that may still add a fresh row to today's ledger without having looked at it: its budget check
      is over, or goes by an earlier day. */
  predicate Pending(p: Phase, today: nat, scope: Scope) {
    && !p.Idle? && p.call.Extract? && InScope(p.call.vendor, scope)
    && (p.Cleared? || p.Replied? || p.Stored? || (p.Dated? && p.day < today))
  }

  predicate Committed(p: Phase, scope: Scope) {
    !p.Idle? && p.call.Extract? && InScope(p.call.vendor, scope) && (p.Cleared? || p.Replied? || p.Stored?)
  }

  function CountPending(workers: seq<Phase>, today: nat, scope: Scope): (n: nat)
    ensures n <= |workers|
  {
    if workers == [] then 0
    else (if Pending(workers[0], today, scope) then 1 else 0) + CountPending(workers[1..], today, scope)
  }

  lemma {:induction false} CountAfterMove(workers: seq<Phase>, w: nat, p: Phase, today: nat, scope: Scope)
    requires w < |workers|
    ensures CountPending(workers[w := p], today, scope) ==
            CountPending(workers, today, scope) - (if Pending(workers[w], today, scope) then 1 else 0)
            + (if Pending(p, today, scope) then 1 else 0)
  {
    if w == 0 {
      assert workers[w := p][1..] == workers[1..];
    } else {
      assert workers[w := p][1..] == workers[1..][w - 1 := p];
      CountAfterMove(workers[1..], w - 1, p, today, scope);
    }
  }

  /** The most that a day's ledger can hold: nothing if the cap does not even cover one estimate, and
      otherwise the cap less one estimate plus what the calls in flight may cost. */
  function Bound(cap: int, inFlight: nat, maxCost: nat): int {
    if cap < EXTRACT_ESTIMATE then 0 else cap - EXTRACT_ESTIMATE + inFlight * maxCost
  }

  predicate CheapPhase(p: Phase, maxCost: nat) {
    p.Replied? || p.Stored? ==> p.cost <= maxCost
  }

  ghost predicate WithinBudget(caps: Caps, s: State, maxCost: nat, scope: Scope) {
    var cap, n := Cap(caps, scope), |s.workers|;
    && (forall w :: 0 <= w < n ==> CheapPhase(s.workers[w], maxCost))
    && (forall w :: 0 <= w < n && s.workers[w].Dated? ==> s.workers[w].day <= s.today)
    && (forall day :: day > s.today ==> Spent(s.audit, day, scope) == 0)
    && (forall day :: Spent(s.audit, day, scope) <= Bound(cap, n, maxCost))
    && if cap < EXTRACT_ESTIMATE then forall w :: 0 <= w < n ==> !Committed(s.workers[w], scope)
       else Spent(s.audit, s.today, scope) + CountPending(s.workers, s.today, scope) * maxCost <= Bound(cap, n, maxCost)
  }

  predicate CheapAction(a: Action, maxCost: nat) {
    a.Receive? ==> a.cost <= maxCost
  }

  lemma SpentAfterRow(audit: seq<AuditRow>, row: AuditRow, day: nat, scope: Scope)
    ensures Spent(audit + [row], day, scope) ==
            Spent(audit, day, scope) + FreshCost(row, day, scope)
  {
    assert (audit + [row])[..|audit|] == audit;
  }

  lemma Times(n: nat, m: nat, c: nat)
    requires n <= m
    ensures n * c <= m * c && (n < m ==> n * c + c <= m * c)
  {
    if n < m {
      assert m * c == (n + 1) * c + (m - n - 1) * c;
    }
  }

  /** A move that writes no audit row and adds no pending worker keeps the budget. */
  lemma QuietMove(caps: Caps, s: State, t: State, w: nat, p: Phase, maxCost: nat, scope: Scope)
    requires WithinBudget(caps, s, maxCost, scope) && w < |s.workers|
    requires t.workers == s.workers[w := p] && t.audit == s.audit && t.today == s.today
    requires CheapPhase(p, maxCost) && (p.Dated? ==> p.day <= s.today)
    requires Pending(p, s.today, scope) ==> Pending(s.workers[w], s.today, scope)
    requires Committed(p, scope) ==> Committed(s.workers[w], scope)
    ensures WithinBudget(caps, t, maxCost, scope)
  {
    CountAfterMove(s.workers, w, p, s.today, scope);
    Times(CountPending(t.workers, s.today, scope), CountPending(s.workers, s.today, scope), maxCost);
  }

  /** Passing the check: the ledger for the day it goes by leaves room for an estimate. */
  lemma PassedCheck(caps: Caps, s: State, t: State, w: nat, maxCost: nat, scope: Scope)
    requires WithinBudget(caps, s, maxCost, scope) && w < |s.workers| && s.workers[w].Dated?
    requires var p := s.workers[w]; Allowed(caps, s.audit, p.day, p.call.vendor, Estimate(p.call))
    requires t == Moved(s, w, Cleared(s.workers[w].call))
    ensures WithinBudget(caps, t, maxCost, scope)
  {
    var p := s.workers[w];
    var q := Cleared(p.call);
    if !Pending(q, s.today, scope) || Pending(p, s.today, scope) {
      if Committed(q, scope) {
        assert Spent(s.audit, p.day, scope) + EXTRACT_ESTIMATE <= Cap(caps, scope);
      }
      CountAfterMove(s.workers, w, q, s.today, scope);
    } else {
      assert p.day == s.today;
      assert Spent(s.audit, s.today, scope) + EXTRACT_ESTIMATE <= Cap(caps, scope);
      CountAfterMove(s.workers, w, q, s.today, scope);
      Times(CountPending(t.workers, s.today, scope), |s.workers|, maxCost);
    }
  }

  /** Writing the audit row turns a pending call into its cost. */
  lemma WrittenRow(caps: Caps, s: State, t: State, w: nat, row: AuditRow, maxCost: nat, scope: Scope)
    requires WithinBudget(caps, s, maxCost, scope) && w < |s.workers|
    requires t.workers == s.workers[w := Idle] && t.audit == s.audit + [row] && t.today == s.today
    requires row.day == s.today && row.cost <= maxCost
    requires row.source == Fresh && InScope(row.vendor, scope) ==> Committed(s.workers[w], scope)
    ensures WithinBudget(caps, t, maxCost, scope)
  {
    var k, k' := CountPending(s.workers, s.today, scope), CountPending(t.workers, s.today, scope);
    CountAfterMove(s.workers, w, Idle, s.today, scope);
    Times(k', k, maxCost);
    Times(0, k', maxCost);
    forall day
      ensures Spent(t.audit, day, scope) ==
              Spent(s.audit, day, scope) + FreshCost(row, day, scope)
    {
      SpentAfterRow(s.audit, row, day, scope);
    }
  }

  /** A cached row may cost anything: the budget does not count it. */
  lemma CachedRow(caps: Caps, s: State, t: State, w: nat, row: AuditRow, maxCost: nat, scope: Scope)
    requires WithinBudget(caps, s, maxCost, scope) && w < |s.workers| && row.source == FromCache
    requires t.workers == s.workers[w := Idle] && t.audit == s.audit + [row] && t.today == s.today
    ensures WithinBudget(caps, t, maxCost, scope)
  {
    CountAfterMove(s.workers, w, Idle, s.today, scope);
    Times(CountPending(t.workers, s.today, scope), CountPending(s.workers, s.today, scope), maxCost);
    forall day
      ensures Spent(t.audit, day, scope) == Spent(s.audit, day, scope)
    {
      SpentAfterRow(s.audit, row, day, scope);
    }
  }

  /** At midnight everything in flight is pending for the new day. */
  lemma Midnight(caps: Caps, s: State, maxCost: nat, scope: Scope)
    requires WithinBudget(caps, s, maxCost, scope)
    ensures WithinBudget(caps, s.(today := s.today + 1), maxCost, scope)
  {
    Times(CountPending(s.workers, s.today + 1, scope), |s.workers|, maxCost);
  }

  lemma NextKeepsBudget(env: Env, caps: Caps, s: State, a: Action, maxCost: nat, scope: Scope)
    requires Sound(env, s) && Enabled(env, s, a) && CheapAction(a, maxCost)
    requires WithinBudget(caps, s, maxCost, scope)
    ensures WithinBudget(caps, Next(env, caps, s, a), maxCost, scope)
  {
    var t := Next(env, caps, s, a);
    if a.NextDay? {
      Midnight(caps, s, maxCost, scope);
    } else {
      var p := s.workers[a.worker];
      if a.Check? && t.workers[a.worker].Cleared? {
        PassedCheck(caps, s, t, a.worker, maxCost, scope);
      } else if a.Audit? {
        var row := t.audit[|s.audit|];
        assert t.audit == s.audit + [row];
        if p.Hit? {
          CachedRow(caps, s, t, a.worker, row, maxCost, scope);
        } else {
          assert PhaseOk(env, p);
          WrittenRow(caps, s, t, a.worker, row, maxCost, scope);
        }
      } else {
        QuietMove(caps, s, t, a.worker, t.workers[a.worker], maxCost, scope);
      }
    }
  }

  /** Budget bound, globally and for each vendor: with at most as many calls in flight as there are workers,
      each costing at most `maxCost`, no day's audited total exceeds `Bound`, in any interleaving, with the
      day changing anywhere. */
  lemma {:induction false} BudgetHolds(env: Env, caps: Caps, s: State, actions: seq<Action>, maxCost: nat, scope: Scope)
    requires Sound(env, s) && Executable(env, caps, s, actions)
    requires forall i :: 0 <= i < |actions| ==> CheapAction(actions[i], maxCost)
    requires WithinBudget(caps, s, maxCost, scope)
    ensures var end := Exec(env, caps, s, actions);
            && WithinBudget(caps, end, maxCost, scope)
            && |end.workers| == |s.workers|
            && forall day :: Spent(end.audit, day, scope) <= Bound(Cap(caps, scope), |s.workers|, maxCost)
    decreases |actions|
  {
    if actions != [] {
      NextKeepsSound(env, caps, s, actions[0]);
      NextKeepsBudget(env, caps, s, actions[0], maxCost, scope);
      BudgetHolds(env, caps, Next(env, caps, s, actions[0]), actions[1..], maxCost, scope);
    }
  }

  lemma {:induction false} NothingPending(workers: seq<Phase>, today: nat, scope: Scope)
    requires forall w :: 0 <= w < |workers| ==> workers[w] == Idle
    ensures CountPending(workers, today, scope) == 0
  {
    if workers != [] {
      NothingPending(workers[1..], today, scope);
    }
  }

  /** From an empty ledger the bound holds for ever, and one worker whose calls cost no more than their
      estimate never exceeds a cap that is not negative. */
  lemma BudgetHoldsFromStart(env: Env, caps: Caps, workers: nat, day: nat, actions: seq<Action>, maxCost: nat,
                             scope: Scope)
    requires GoodVersions(env.versions) && Executable(env, caps, Start(workers, day), actions)
    requires forall i :: 0 <= i < |actions| ==> CheapAction(actions[i], maxCost)
    ensures var end := Exec(env, caps, Start(workers, day), actions);
            forall d :: && Spent(end.audit, d, scope) <= Bound(Cap(caps, scope), workers, maxCost)
                        && (workers <= 1 && maxCost <= EXTRACT_ESTIMATE && Cap(caps, scope) >= 0 ==>
                              Spent(end.audit, d, scope) <= Cap(caps, scope))
  {
    var s := Start(workers, day);
    StartIsSound(env, workers, day);
    NothingPending(s.workers, day, scope);
    Times(0, workers, maxCost);
    BudgetHolds(env, caps, s, actions, maxCost, scope);
    if workers <= 1 {
      Times(workers, 1, maxCost);
    }
  }

  // ----- One call alone -----

  lemma {:induction false} ExecAppend(env: Env, caps: Caps, s: State, first: seq<Action>, later: seq<Action>)
    requires Executable(env, caps, s, first) && Executable(env, caps, Exec(env, caps, s, first), later)
    ensures Executable(env, caps, s, first + later)
    ensures Exec(env, caps, s, first + later) == Exec(env, caps, Exec(env, caps, s, first), later)
    decreases |first|
  {
    if first == [] {
      assert [] + later == later;
    } else {
      assert (first + later)[1..] == first[1..] + later;
      ExecAppend(env, caps, Next(env, caps, s, first[0]), first[1..], later);
    }
  }

  lemma ExecNothing(env: Env, caps: Caps, s: State)
    ensures Executable(env, caps, s, []) && Exec(env, caps, s, []) == s
  {
  }

  lemma StepThenRest(env: Env, caps: Caps, s: State, a: Action, rest: seq<Action>)
    requires Enabled(env, s, a) && Executable(env, caps, Next(env, caps, s, a), rest)
    ensures Executable(env, caps, s, [a] + rest)
    ensures Exec(env, caps, s, [a] + rest) == Exec(env, caps, Next(env, caps, s, a), rest)
  {
    var actions := [a] + rest;
    assert actions[0] == a && actions[1..] == rest;
  }

  lemma OneStep(env: Env, caps: Caps, s: State, a: Action)
    requires Enabled(env, s, a)
    ensures Executable(env, caps, s, [a]) && Exec(env, caps, s, [a]) == Next(env, caps, s, a)
  {
    ExecNothing(env, caps, Next(env, caps, s, a));
    assert [a][1..] == [];
  }

  lemma ThreeSteps(env: Env, caps: Caps, s: State, a: Action, b: Action, c: Action)
    requires Enabled(env, s, a) && Enabled(env, Next(env, caps, s, a), b)
    requires Enabled(env, Next(env, caps, Next(env, caps, s, a), b), c)
    ensures Executable(env, caps, s, [a, b, c])
    ensures Exec(env, caps, s, [a, b, c]) == Next(env, caps, Next(env, caps, Next(env, caps, s, a), b), c)
  {
    var s1 := Next(env, caps, s, a);
    OneStep(env, caps, Next(env, caps, s1, b), c);
    StepThenRest(env, caps, s1, b, [c]);
    assert [b] + [c] == [b, c] && [a] + [b, c] == [a, b, c];
    StepThenRest(env, caps, s, a, [b, c]);
  }

  /** A call that no other worker interferes with does in six steps what `Fallback.ClassifyExtract` does at
      once. */
  lemma UninterruptedCall(env: Env, caps: Caps, s: State, call: Call, w: nat, data: Json, cost: nat)
    requires call.Extract? && JsonText(call.json) && Key(env, call) !in s.cache && Accepted(env, call, data)
    requires Allowed(caps, s.audit, s.today, call.vendor, EXTRACT_ESTIMATE)
    requires w < |s.workers| && s.workers[w] == Idle
    ensures var steps := [Look(w, call), ReadClock(w), Check(w)] + [Receive(w, data, cost), Store(w), Audit(w)];
            && Executable(env, caps, s, steps)
            && var t := Exec(env, caps, s, steps);
               && t.cache == s.cache[Key(env, call) := Entry(data, cost)]
               && t.audit == s.audit + [AuditRow(call.eventId, Fresh, call.vendor, cost, s.today)]
               && t.delivered == s.delivered + [Delivery(call, data)]
               && t.workers == s.workers && t.today == s.today
  {
    var s1 := Next(env, caps, s, Look(w, call));
    var s2 := Next(env, caps, s1, ReadClock(w));
    var s3 := Next(env, caps, s2, Check(w));
    ThreeSteps(env, caps, s, Look(w, call), ReadClock(w), Check(w));
    var s4 := Next(env, caps, s3, Receive(w, data, cost));
    var s5 := Next(env, caps, s4, Store(w));
    ThreeSteps(env, caps, s3, Receive(w, data, cost), Store(w), Audit(w));
    ExecAppend(env, caps, s, [Look(w, call), ReadClock(w), Check(w)], [Receive(w, data, cost), Store(w), Audit(w)]);
    assert s.workers == s.workers[w := Idle];
    assert Next(env, caps, s5, Audit(w)).workers == s.workers[w := Idle];
  }

  // ----- The bound is reached -----

  predicate AllCheap(actions: seq<Action>, maxCost: nat) {
    forall i :: 0 <= i < |actions| ==> CheapAction(actions[i], maxCost)
  }

  /** An idle worker looks, reads the clock and passes the check. */
  lemma OnePasses(env: Env, caps: Caps, s: State, call: Call, w: nat) returns (actions: seq<Action>)
    requires call.Extract? && JsonText(call.json) && Key(env, call) !in s.cache
    requires Allowed(caps, s.audit, s.today, call.vendor, EXTRACT_ESTIMATE)
    requires w < |s.workers| && s.workers[w] == Idle
    ensures Executable(env, caps, s, actions) && AllCheap(actions, 0)
    ensures Exec(env, caps, s, actions) == Moved(s, w, Cleared(call))
  {
    var s1 := Next(env, caps, s, Look(w, call));
    var s2 := Next(env, caps, s1, ReadClock(w));
    ThreeSteps(env, caps, s, Look(w, call), ReadClock(w), Check(w));
    actions := [Look(w, call), ReadClock(w), Check(w)];
    assert Next(env, caps, s2, Check(w)).workers == s.workers[w := Cleared(call)];
  }

  /** A cleared worker receives its answer, stores it and adds its cost to the ledger. */
  lemma OneSpends(env: Env, caps: Caps, s: State, call: Call, data: Json, cost: nat, w: nat, scope: Scope)
      returns (actions: seq<Action>, t: State)
    requires call.Extract? && Accepted(env, call, data) && InScope(call.vendor, scope)
    requires w < |s.workers| && s.workers[w] == Cleared(call)
    ensures Executable(env, caps, s, actions) && AllCheap(actions, cost) && t == Exec(env, caps, s, actions)
    ensures t.today == s.today && t.workers == s.workers[w := Idle]
    ensures Spent(t.audit, s.today, scope) == Spent(s.audit, s.today, scope) + cost
  {
    var s1 := Next(env, caps, s, Receive(w, data, cost));
    var s2 := Next(env, caps, s1, Store(w));
    t := Next(env, caps, s2, Audit(w));
    actions := [Receive(w, data, cost), Store(w), Audit(w)];
    ThreeSteps(env, caps, s, Receive(w, data, cost), Store(w), Audit(w));
    SpentAfterRow(s.audit, AuditRow(call.eventId, Fresh, call.vendor, cost, s.today), s.today, scope);
    assert t.workers == s.workers[w := Idle];
  }

  /** The workers from `w` on pass the check one after the other, as none of them has written a row yet. */
  lemma {:induction false} AllPass(env: Env, caps: Caps, s: State, call: Call, w: nat)
      returns (actions: seq<Action>)
    requires call.Extract? && JsonText(call.json) && Key(env, call) !in s.cache
    requires Allowed(caps, s.audit, s.today, call.vendor, EXTRACT_ESTIMATE)
    requires w <= |s.workers|
    requires forall v :: 0 <= v < |s.workers| ==> s.workers[v] == if v < w then Cleared(call) else Idle
    ensures Executable(env, caps, s, actions) && AllCheap(actions, 0)
    ensures Exec(env, caps, s, actions) == s.(workers := seq(|s.workers|, i => Cleared(call)))
    decreases |s.workers| - w
  {
    if w == |s.workers| {
      assert s.workers == seq(|s.workers|, i => Cleared(call));
      actions := [];
    } else {
      var first := OnePasses(env, caps, s, call, w);
      var later := AllPass(env, caps, Moved(s, w, Cleared(call)), call, w + 1);
      ExecAppend(env, caps, s, first, later);
      actions := first + later;
    }
  }

  lemma OneMore(n: nat, cost: nat)
    ensures (n + 1) * cost == n * cost + cost
  {
  }

  /** Once cleared, the workers from `w` on each add their full cost. */
  lemma {:induction false} AllSpend(env: Env, caps: Caps, s: State, call: Call, data: Json, cost: nat, w: nat,
                                    scope: Scope)
      returns (actions: seq<Action>)
    requires call.Extract? && Accepted(env, call, data) && InScope(call.vendor, scope)
    requires w <= |s.workers| && forall v :: w <= v < |s.workers| ==> s.workers[v] == Cleared(call)
    ensures Executable(env, caps, s, actions) && AllCheap(actions, cost)
    ensures Spent(Exec(env, caps, s, actions).audit, s.today, scope) ==
            Spent(s.audit, s.today, scope) + (|s.workers| - w) * cost
    decreases |s.workers| - w
  {
    if w == |s.workers| {
      actions := [];
    } else {
      var first, t := OneSpends(env, caps, s, call, data, cost, w, scope);
      var later := AllSpend(env, caps, t, call, data, cost, w + 1, scope);
      ExecAppend(env, caps, s, first, later);
      CheapAppend(first, later, cost, cost);
      actions := first + later;
      var left := |s.workers| - (w + 1);
      OneMore(left, cost);
      assert |s.workers| - w == left + 1 && |t.workers| == |s.workers|;
    }
  }

  /** The bound cannot be lowered: whenever the ledger leaves room for one more estimate, idle workers can each
      pass the check before any of them writes, and together add their number times `maxCost`. Where the ledger
      stands at the cap less one estimate, that is `Bound` exactly. */
  lemma BoundIsReached(env: Env, caps: Caps, s: State, call: Call, data: Json, maxCost: nat, scope: Scope)
      returns (actions: seq<Action>)
    requires forall w :: 0 <= w < |s.workers| ==> s.workers[w] == Idle
    requires call.Extract? && JsonText(call.json) && Key(env, call) !in s.cache && Accepted(env, call, data)
    requires Allowed(caps, s.audit, s.today, call.vendor, EXTRACT_ESTIMATE) && InScope(call.vendor, scope)
    ensures Executable(env, caps, s, actions) && AllCheap(actions, maxCost)
    ensures var total := Spent(Exec(env, caps, s, actions).audit, s.today, scope);
            && total == Spent(s.audit, s.today, scope) + |s.workers| * maxCost
            && (Spent(s.audit, s.today, scope) == Cap(caps, scope) - EXTRACT_ESTIMATE ==>
                  total == Bound(Cap(caps, scope), |s.workers|, maxCost))
  {
    var cleared := s.(workers := seq(|s.workers|, i => Cleared(call)));
    var first := AllPass(env, caps, s, call, 0);
    var later := AllSpend(env, caps, cleared, call, data, maxCost, 0, scope);
    ExecAppend(env, caps, s, first, later);
    actions := first + later;
    forall i | 0 <= i < |actions|
      ensures CheapAction(actions[i], maxCost)
    {
      assert i < |first| ==> CheapAction(first[i], 0);
      assert i >= |first| ==> CheapAction(later[i - |first|], maxCost);
    }
  }

  // ----- From an empty ledger -----

  /** The payload `{"a":"aaa"}`, with `n` letters in the string, as compact JSON text. */
  function PayloadAt(n: nat): Bytes {
    [0x7B, 0x22, 0x61, 0x22, 0x3A, 0x22] + seq(n, _ => 0x61) + [0x22, 0x7D]
  }

  /** Calls that differ in payload, and when all vendors share the budget also in vendor. */
  function CallAt(scope: Scope, n: nat): Call {
    Extract("", PayloadAt(n), if scope == Everyone then seq(n + 1, _ => 0x41) else scope.vendor)
  }

  /** The cap that is to be reached binds before the other one does. */
  predicate Binding(caps: Caps, scope: Scope) {
    && Cap(caps, scope) >= EXTRACT_ESTIMATE
    && if scope == Everyone then caps.perVendor >= EXTRACT_ESTIMATE else caps.perVendor <= caps.global
  }

  /** Every worker idles, and the calls from `n` on have left no trace. */
  ghost predicate Untouched(env: Env, s: State, scope: Scope, n: nat) {
    && (forall w :: 0 <= w < |s.workers| ==> s.workers[w] == Idle)
    && (forall m :: m >= n ==> Key(env, CallAt(scope, m)) !in s.cache)
    && if scope == Everyone
       then forall m :: m >= n ==> Spent(s.audit, s.today, OneVendor(CallAt(scope, m).vendor)) == 0
       else Spent(s.audit, s.today, Everyone) == Spent(s.audit, s.today, scope)
  }

  lemma NextCallIsAllowed(env: Env, caps: Caps, s: State, scope: Scope, n: nat)
    requires Binding(caps, scope) && Untouched(env, s, scope, n)
    requires Spent(s.audit, s.today, scope) + EXTRACT_ESTIMATE <= Cap(caps, scope)
    ensures Allowed(caps, s.audit, s.today, CallAt(scope, n).vendor, EXTRACT_ESTIMATE)
    ensures InScope(CallAt(scope, n).vendor, scope) && JsonText(CallAt(scope, n).json)
    ensures Key(env, CallAt(scope, n)) !in s.cache
  {
  }

  lemma CallsDiffer(env: Env, scope: Scope, n: nat, m: nat)
    requires GoodVersions(env.versions) && n != m
    ensures Key(env, CallAt(scope, n)) != Key(env, CallAt(scope, m))
    ensures scope == Everyone ==> CallAt(scope, n).vendor != CallAt(scope, m).vendor
  {
    var a, b := CallAt(scope, n), CallAt(scope, m);
    assert |a.json| != |b.json|;
    assert scope == Everyone ==> |a.vendor| != |b.vendor|;
    ExtractKeyIsInjective(env.versions, a.json, a.vendor, env.versions, b.json, b.vendor);
  }

  lemma StillUntouched(env: Env, s: State, t: State, scope: Scope, n: nat, data: Json, cost: nat)
    requires GoodVersions(env.versions) && Untouched(env, s, scope, n)
    requires t.workers == s.workers && t.today == s.today
    requires t.cache == s.cache[Key(env, CallAt(scope, n)) := Entry(data, cost)]
    requires t.audit == s.audit + [AuditRow("", Fresh, CallAt(scope, n).vendor, cost, s.today)]
    ensures Untouched(env, t, scope, n + 1)
    ensures Spent(t.audit, t.today, scope) == Spent(s.audit, s.today, scope) + cost
  {
    var row := AuditRow("", Fresh, CallAt(scope, n).vendor, cost, s.today);
    SpentAfterRow(s.audit, row, s.today, scope);
    SpentAfterRow(s.audit, row, s.today, Everyone);
    forall m: nat | m >= n + 1
      ensures Key(env, CallAt(scope, m)) !in t.cache
      ensures scope == Everyone ==> Spent(t.audit, t.today, OneVendor(CallAt(scope, m).vendor)) == 0
    {
      CallsDiffer(env, scope, n, m);
      SpentAfterRow(s.audit, row, s.today, OneVendor(CallAt(scope, m).vendor));
    }
  }

  lemma SoloRun(env: Env, caps: Caps, s: State, call: Call, data: Json, cost: nat)
      returns (actions: seq<Action>, t: State)
    requires call.Extract? && JsonText(call.json) && Key(env, call) !in s.cache && Accepted(env, call, data)
    requires Allowed(caps, s.audit, s.today, call.vendor, EXTRACT_ESTIMATE)
    requires |s.workers| > 0 && s.workers[0] == Idle
    ensures Executable(env, caps, s, actions) && AllCheap(actions, cost) && t == Exec(env, caps, s, actions)
    ensures t.cache == s.cache[Key(env, call) := Entry(data, cost)] && t.workers == s.workers && t.today == s.today
    ensures t.audit == s.audit + [AuditRow(call.eventId, Fresh, call.vendor, cost, s.today)]
  {
    UninterruptedCall(env, caps, s, call, 0, data, cost);
    actions := [Look(0, call), ReadClock(0), Check(0)] + [Receive(0, data, cost), Store(0), Audit(0)];
    t := Exec(env, caps, s, actions);
  }

  /** One call alone by the first worker. */
  lemma OneCall(env: Env, caps: Caps, s: State, scope: Scope, n: nat, data: Json, cost: nat)
      returns (actions: seq<Action>, t: State)
    requires GoodVersions(env.versions) && Binding(caps, scope) && Untouched(env, s, scope, n) && |s.workers| > 0
    requires data.Obj? && env.valid(data)
    requires Spent(s.audit, s.today, scope) + EXTRACT_ESTIMATE <= Cap(caps, scope)
    ensures Executable(env, caps, s, actions) && AllCheap(actions, cost) && t == Exec(env, caps, s, actions)
    ensures Untouched(env, t, scope, n + 1) && t.workers == s.workers && t.today == s.today
    ensures Spent(t.audit, t.today, scope) == Spent(s.audit, s.today, scope) + cost
  {
    NextCallIsAllowed(env, caps, s, scope, n);
    actions, t := SoloRun(env, caps, s, CallAt(scope, n), data, cost);
    StillUntouched(env, s, t, scope, n, data, cost);
  }

  lemma CheapAppend(first: seq<Action>, later: seq<Action>, cost: nat, maxCost: nat)
    requires AllCheap(first, cost) && cost <= maxCost && AllCheap(later, maxCost)
    ensures AllCheap(first + later, maxCost)
  {
    forall i | 0 <= i < |first + later|
      ensures CheapAction((first + later)[i], maxCost)
    {
      assert i < |first| ==> CheapAction(first[i], cost);
      assert i >= |first| ==> CheapAction(later[i - |first|], maxCost);
    }
  }

  /** Calls one after the other bring the ledger to exactly the cap less one estimate. */
  lemma {:induction false} FillLedger(env: Env, caps: Caps, s: State, scope: Scope, n: nat, data: Json, maxCost: nat)
      returns (actions: seq<Action>, n': nat)
    requires GoodVersions(env.versions) && Binding(caps, scope) && Untouched(env, s, scope, n) && |s.workers| > 0
    requires data.Obj? && env.valid(data) && maxCost > 0
    requires Spent(s.audit, s.today, scope) + EXTRACT_ESTIMATE <= Cap(caps, scope)
    ensures Executable(env, caps, s, actions) && AllCheap(actions, maxCost)
    ensures var t := Exec(env, caps, s, actions);
            && Untouched(env, t, scope, n') && t.workers == s.workers && t.today == s.today
            && Spent(t.audit, t.today, scope) + EXTRACT_ESTIMATE == Cap(caps, scope)
    decreases Cap(caps, scope) - Spent(s.audit, s.today, scope)
  {
    var room := Cap(caps, scope) - EXTRACT_ESTIMATE - Spent(s.audit, s.today, scope);
    if room == 0 {
      ExecNothing(env, caps, s);
      actions, n' := [], n;
    } else {
      var cost := if room < maxCost then room else maxCost;
      var first, t := OneCall(env, caps, s, scope, n, data, cost);
      var later;
      later, n' := FillLedger(env, caps, t, scope, n + 1, data, maxCost);
      ExecAppend(env, caps, s, first, later);
      CheapAppend(first, later, cost, maxCost);
      actions := first + later;
    }
  }

  /** The bound is the best one: from the empty ledger there is a schedule that reaches it, for every positive number of
      workers and largest cost, wherever the other cap does not bind first. Without workers or cost nothing is spent. */
  lemma BoundIsReachedFromStart(env: Env, caps: Caps, workers: nat, day: nat, scope: Scope, data: Json, maxCost: nat)
      returns (actions: seq<Action>)
    requires GoodVersions(env.versions) && Binding(caps, scope) && workers > 0 && maxCost > 0
    requires data.Obj? && env.valid(data)
    ensures Executable(env, caps, Start(workers, day), actions) && AllCheap(actions, maxCost)
    ensures Spent(Exec(env, caps, Start(workers, day), actions).audit, day, scope) ==
            Bound(Cap(caps, scope), workers, maxCost)
  {
    var s := Start(workers, day);
    var first, n := FillLedger(env, caps, s, scope, 0, data, maxCost);
    var t := Exec(env, caps, s, first);
    NextCallIsAllowed(env, caps, t, scope, n);
    var later := BoundIsReached(env, caps, t, CallAt(scope, n), data, maxCost, scope);
    ExecAppend(env, caps, s, first, later);
    CheapAppend(first, later, maxCost, maxCost);
    actions := first + later;
  }
}
