/** The LLM orchestration: one write-once cache for two kinds of answer, the daily budget, and the audit
    ledger. Amounts are whole micro-dollars, days are counted, and the provider's replies are parameters. */
module Llm {
  import opened Prelude
  import opened Json
  import opened Hashing

  /** What the orchestrator is built from: reading JSON out of a reply, the target schema, `float()`, and the
      versions that go into the cache keys. */
  datatype Env = Env(decode: string -> Option<Json>, valid: Json -> bool, isFloat: Json -> bool, versions: Versions)

  datatype Entry = Entry(output: Json, cost: nat)

  datatype Source = Fresh | FromCache

  datatype AuditRow = AuditRow(eventId: string, source: Source, vendor: Bytes, cost: nat, day: nat)

  // ----- The budget -----

  /** The two budgets: everything, or what one vendor's calls cost. */
  datatype Scope = Everyone | OneVendor(vendor: Bytes)

  predicate InScope(vendor: Bytes, scope: Scope) {
    scope == Everyone || scope == OneVendor(vendor)
  }

  /** What a row adds to a day's total in a scope: cached answers add nothing. */
  function FreshCost(row: AuditRow, day: nat, scope: Scope): nat {
    if row.source == Fresh && row.day == day && InScope(row.vendor, scope) then row.cost else 0
  }

  /** `SUM(cost_estimate)` over a day's fresh calls in a scope. */
  function Spent(audit: seq<AuditRow>, day: nat, scope: Scope): nat {
    if audit == [] then 0
    else Spent(audit[..|audit| - 1], day, scope) + FreshCost(audit[|audit| - 1], day, scope)
  }

  datatype Caps = Caps(global: int, perVendor: int)

  function Cap(caps: Caps, scope: Scope): int {
    if scope == Everyone then caps.global else caps.perVendor
  }

  /** `BudgetGuard.allow`. */
  predicate Allowed(caps: Caps, audit: seq<AuditRow>, today: nat, vendor: Bytes, estimate: nat) {
    && Spent(audit, today, Everyone) + estimate <= caps.global
    && Spent(audit, today, OneVendor(vendor)) + estimate <= caps.perVendor
  }

  const EXTRACT_ESTIMATE: nat := 1000

  const EVENT_TYPE_ESTIMATE: nat := 200

  // ----- Replies -----

  datatype Reply = Text(text: string, cost: nat) | Failure

  /** `_parse_and_validate`; None where it raises. */
  function Validated(env: Env, text: string): Option<Json> {
    match env.decode(text)
    case Some(v) => if env.valid(v) && v.Obj? then Some(v) else None
    case None => None
  }

  /** A reply is taken exactly where it can be read as an object that satisfies the target schema. */
  lemma ValidatedIff(env: Env, text: string, v: Json)
    ensures Validated(env, text) == Some(v) <==> env.decode(text) == Some(v) && env.valid(v) && v.Obj?
  {
  }

  datatype Answer = Answered(data: Json, source: Source) | OverBudget | Invalid | Unavailable

  /** The part of an object that `classify_event_type` returns: a classification and a state, None when it is
      unclassified; Raised where the confidence is not a number. */
  function Classified(env: Env, members: seq<Member>): Result<Option<(Json, Json)>> {
    var classification := Coalesce(Lookup(members, "classification"), Some(Str("unclassified"))).value;
    var state := Get(members, "canonical_state");
    var confidence := Lookup(members, "confidence");
    if confidence.Some? && !env.isFloat(confidence.value) then Raised
    else if classification == Str("unclassified") || state == Null then Ok(None)
    else Ok(Some((classification, state)))
  }

  /** What an event-type answer says: the classification under its own name and the state under its own, as far as the
      confidence is a number and both are there; an unclassified or stateless answer says nothing. */
  lemma ClassifiedReads(env: Env, members: seq<Member>, classification: Json, state: Json)
    requires Lookup(members, "confidence").Some? ==> env.isFloat(Lookup(members, "confidence").value)
    ensures Lookup(members, "classification") == Some(classification) && classification != Str("unclassified")
            && Lookup(members, "canonical_state") == Some(state) && state != Null
            <==> Classified(env, members) == Ok(Some((classification, state)))
    ensures Lookup(members, "classification").None? || Get(members, "canonical_state") == Null ==>
              Classified(env, members) == Ok(None)
  {
  }

  // ----- The cache -----

  /** What an extraction finds under its key satisfies the target schema. */
  ghost predicate CacheOk(env: Env, cache: map<Bytes, Entry>) {
    forall json, vendor :: JsonText(json) && ExtractKey(env.versions, json, vendor) in cache ==>
                             env.valid(cache[ExtractKey(env.versions, json, vendor)].output)
  }

  /** An event-type answer under its key is an object. */
  ghost predicate EventTypesOk(cache: map<Bytes, Entry>) {
    forall vendor, raw :: EventTypeKey(vendor, raw) in cache ==> cache[EventTypeKey(vendor, raw)].output.Obj?
  }

  /** `INSERT ... ON CONFLICT (cache_key) DO NOTHING`. */
  function Insert(cache: map<Bytes, Entry>, key: Bytes, entry: Entry): map<Bytes, Entry> {
    if key in cache then cache else cache[key := entry]
  }

  /** Every key keeps the entry it got first. */
  ghost predicate WriteOnce(before: map<Bytes, Entry>, after: map<Bytes, Entry>) {
    forall k :: k in before ==> k in after && after[k] == before[k]
  }

  /** Storing a valid object under an extraction key keeps every extraction valid. */
  lemma InsertExtractKeepsCache(env: Env, cache: map<Bytes, Entry>, json: Bytes, vendor: Bytes, entry: Entry)
    requires GoodVersions(env.versions) && CacheOk(env, cache) && EventTypesOk(cache)
    requires JsonText(json) && env.valid(entry.output)
    ensures CacheOk(env, Insert(cache, ExtractKey(env.versions, json, vendor), entry))
    ensures EventTypesOk(Insert(cache, ExtractKey(env.versions, json, vendor), entry))
  {
    forall vendor', raw | EventTypeKey(vendor', raw) in Insert(cache, ExtractKey(env.versions, json, vendor), entry)
      ensures EventTypeKey(vendor', raw) in cache
    {
      KindsOfKeyAreApart(env.versions, json, vendor, vendor', raw);
    }
  }

  /** Storing an unvalidated object under an event-type key keeps every extraction valid, because no
      extraction looks there. */
  lemma InsertEventTypeKeepsCache(env: Env, cache: map<Bytes, Entry>, vendor: Bytes, raw: Bytes, entry: Entry)
    requires GoodVersions(env.versions) && CacheOk(env, cache) && EventTypesOk(cache) && entry.output.Obj?
    ensures CacheOk(env, Insert(cache, EventTypeKey(vendor, raw), entry))
    ensures EventTypesOk(Insert(cache, EventTypeKey(vendor, raw), entry))
  {
    forall json, vendor' | JsonText(json)
      ensures ExtractKey(env.versions, json, vendor') != EventTypeKey(vendor, raw)
    {
      KindsOfKeyAreApart(env.versions, json, vendor', vendor, raw);
    }
  }

  // ----- The orchestrator -----

  class Fallback {
    const env: Env
    const caps: Caps
    var cache: map<Bytes, Entry>
    var audit: seq<AuditRow>
    /** How often the provider was called. */
    var calls: nat

    ghost predicate Valid()
      reads this
    {
      GoodVersions(env.versions) && CacheOk(env, cache) && EventTypesOk(cache)
    }

    constructor (env: Env, caps: Caps)
      requires GoodVersions(env.versions)
      ensures Valid() && this.env == env && this.caps == caps && cache == map[] && audit == [] && calls == 0
    {
      this.env, this.caps := env, caps;
      cache, audit, calls := map[], [], 0;
    }

    method Store(key: Bytes, entry: Entry)
      modifies `cache
      ensures cache == Insert(old(cache), key, entry)
      ensures WriteOnce(old(cache), cache)
    {
      if key !in cache {
        cache := cache[key := entry];
      }
    }

    /** `classify_extract`. `checked` is the day the budget is read for, `done` the day the audit row is
        written; `first` is the provider's reply and `second` its reply to the retry. */
    method ClassifyExtract(eventId: string, vendor: Bytes, json: Bytes, first: Reply, second: Reply, checked: nat,
                           done: nat)
        returns (answer: Answer)
      requires Valid() && JsonText(json)
      modifies this
      ensures Valid() && WriteOnce(old(cache), cache)
      ensures answer.Answered? ==> env.valid(answer.data)
      ensures var key := ExtractKey(env.versions, json, vendor);
              if key in old(cache) then
                && answer == Answered(old(cache)[key].output, FromCache) && calls == old(calls) && cache == old(cache)
                && audit == old(audit) + [AuditRow(eventId, FromCache, vendor, old(cache)[key].cost, done)]
              else if !Allowed(caps, old(audit), checked, vendor, EXTRACT_ESTIMATE) then
                answer == OverBudget && calls == old(calls) && cache == old(cache) && audit == old(audit)
              else
                var retry := first.Text? && Validated(env, first.text).None?;
                var reply := if retry then second else first;
                && calls == old(calls) + (if retry then 2 else 1)
                && if reply.Failure? || Validated(env, reply.text).None? then
                     && answer == (if reply.Failure? then Unavailable else Invalid)
                     && cache == old(cache) && audit == old(audit)
                   else
                     && answer == Answered(Validated(env, reply.text).value, Fresh)
                     && cache == old(cache)[key := Entry(answer.data, reply.cost)]
                     && audit == old(audit) + [AuditRow(eventId, Fresh, vendor, reply.cost, done)]
    {
      var key := ExtractKey(env.versions, json, vendor);
      if key in cache {
        audit := audit + [AuditRow(eventId, FromCache, vendor, cache[key].cost, done)];
        return Answered(cache[key].output, FromCache);
      }
      if !Allowed(caps, audit, checked, vendor, EXTRACT_ESTIMATE) {
        return OverBudget;
      }
      calls := calls + 1;
      if first.Failure? {
        return Unavailable;
      }
      var data := Validated(env, first.text);
      var cost := first.cost;
      if data.None? {
        calls := calls + 1;
        if second.Failure? {
          return Unavailable;
        }
        data := Validated(env, second.text);
        cost := second.cost;
        if data.None? {
          return Invalid;
        }
      }
      InsertExtractKeepsCache(env, cache, json, vendor, Entry(data.value, cost));
      Store(key, Entry(data.value, cost));
      audit := audit + [AuditRow(eventId, Fresh, vendor, cost, done)];
      return Answered(data.value, Fresh);
    }

    /** `classify_event_type`: the answer is cached as it comes, without the schema, and never audited. */
    method ClassifyEventType(vendor: Bytes, raw: Bytes, reply: Reply, checked: nat)
        returns (r: Result<Option<(Json, Json)>>)
      requires Valid()
      modifies `cache, `calls
      ensures Valid() && WriteOnce(old(cache), cache)
      ensures var key := EventTypeKey(vendor, raw);
              if key in old(cache) then
                && r == Classified(env, old(cache)[key].output.members) && calls == old(calls) && cache == old(cache)
              else if !Allowed(caps, audit, checked, vendor, EVENT_TYPE_ESTIMATE) then
                r == Ok(None) && calls == old(calls) && cache == old(cache)
              else
                var data := if reply.Text? then env.decode(reply.text) else None;
                && calls == old(calls) + 1
                && if data.None? || !data.value.Obj? then r == Ok(None) && cache == old(cache)
                   else
                     && r == Classified(env, data.value.members)
                     && cache == old(cache)[key := Entry(data.value, reply.cost)]
    {
      var key := EventTypeKey(vendor, raw);
      if key in cache {
        return Classified(env, cache[key].output.members);
      }
      if !Allowed(caps, audit, checked, vendor, EVENT_TYPE_ESTIMATE) {
        return Ok(None);
      }
      calls := calls + 1;
      if reply.Failure? {
        return Ok(None);
      }
      var data := env.decode(reply.text);
      if data.None? || !data.value.Obj? {
        return Ok(None);
      }
      InsertEventTypeKeepsCache(env, cache, vendor, raw, Entry(data.value, reply.cost));
      Store(key, Entry(data.value, reply.cost));
      return Classified(env, data.value.members);
    }
  }
}
