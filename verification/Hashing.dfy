/** How the service frames byte strings before hashing them. SHA-256 is taken to be injective, so the framed
    bytes stand for the digest: two keys are equal exactly when the bytes that are hashed are. */
module Hashing {
  newtype byte = n: int | 0 <= n < 256
  type Bytes = seq<byte>

  /** `_RECORD_SEP`. */
  const SEPARATOR: byte := 0x1f

  // ----- Framing -----

  /** The parts with one separator between neighbours. */
  function Framed(parts: seq<Bytes>): Bytes {
    if parts == [] then []
    else if |parts| == 1 then parts[0]
    else parts[0] + [SEPARATOR] + Framed(parts[1..])
  }

  lemma {:induction false} FramedSnoc(parts: seq<Bytes>, part: Bytes)
    requires parts != []
    ensures Framed(parts + [part]) == Framed(parts) + [SEPARATOR] + part
  {
    if |parts| == 1 {
      assert (parts + [part])[1..] == [part];
    } else {
      assert (parts + [part])[1..] == parts[1..] + [part];
      FramedSnoc(parts[1..], part);
    }
  }

  /** `sha256_hex`, up to the digest: what is fed to the hash object. */
  method HashInput(parts: seq<Bytes>) returns (fed: Bytes)
    ensures fed == Framed(parts)
  {
    fed := [];
    for i := 0 to |parts|
      invariant fed == Framed(parts[..i])
    {
      assert parts[..i + 1] == parts[..i] + [parts[i]];
      if i > 0 {
        FramedSnoc(parts[..i], parts[i]);
        fed := fed + [SEPARATOR];
      }
      fed := fed + parts[i];
    }
    assert parts[..|parts|] == parts;
  }

  predicate Free(part: Bytes) {
    SEPARATOR !in part
  }

  /** Every part but the last is free of the separator. */
  predicate Headed(parts: seq<Bytes>) {
    parts != [] && forall i :: 0 <= i < |parts| - 1 ==> Free(parts[i])
  }

  /** The bytes before the first separator. */
  function UntilSeparator(text: Bytes): Bytes {
    if text == [] || text[0] == SEPARATOR then [] else [text[0]] + UntilSeparator(text[1..])
  }

  lemma {:induction false} UntilSeparatorOf(part: Bytes, rest: Bytes)
    requires Free(part)
    ensures UntilSeparator(part + [SEPARATOR] + rest) == part
  {
    var text := part + [SEPARATOR] + rest;
    if part != [] {
      assert text[1..] == part[1..] + [SEPARATOR] + rest;
      UntilSeparatorOf(part[1..], rest);
    }
  }

  lemma HeadOfFramed(parts: seq<Bytes>, others: seq<Bytes>)
    requires Headed(parts) && Headed(others) && |parts| > 1 && |others| > 1
    ensures Framed(parts) == Framed(others)
            <==> parts[0] == others[0] && Framed(parts[1..]) == Framed(others[1..])
  {
    UntilSeparatorOf(parts[0], Framed(parts[1..]));
    UntilSeparatorOf(others[0], Framed(others[1..]));
    assert Framed(parts)[|parts[0]| + 1..] == Framed(parts[1..]);
    assert Framed(others)[|others[0]| + 1..] == Framed(others[1..]);
  }

  lemma LongHasSeparator(parts: seq<Bytes>)
    requires |parts| > 1
    ensures SEPARATOR in Framed(parts)
  {
    assert Framed(parts)[|parts[0]|] == SEPARATOR;
  }

  /** Framing loses nothing as long as only the last part may hold the separator, and the last part of the
      shorter list holds it only when both lists have the same length. */
  lemma {:induction false} FramingIsInjective(parts: seq<Bytes>, others: seq<Bytes>)
    requires Headed(parts) && Headed(others)
    requires |parts| < |others| ==> Free(parts[|parts| - 1])
    requires |others| < |parts| ==> Free(others[|others| - 1])
    ensures Framed(parts) == Framed(others) <==> parts == others
    decreases |parts|
  {
    if |parts| > 1 && |others| > 1 {
      HeadOfFramed(parts, others);
      FramingIsInjective(parts[1..], others[1..]);
      assert parts == [parts[0]] + parts[1..] && others == [others[0]] + others[1..];
    } else if |parts| > 1 {
      LongHasSeparator(parts);
    } else if |others| > 1 {
      LongHasSeparator(others);
    }
  }

  // ----- Keys -----

  /** Compact JSON text: control characters are escaped (section 7 of RFC 8259) and nothing is laid out. */
  predicate JsonText(text: Bytes) {
    forall b :: b in text ==> b >= 0x20
  }

  function OptionalPart(part: Bytes): seq<Bytes> {
    if part == [] then [] else [part]
  }

  /** `compute_event_id`; an absent vendor event id and an empty one are alike. */
  function EventId(json: Bytes, vendorEventId: Bytes): Bytes {
    Framed([json] + OptionalPart(vendorEventId))
  }

  /** Two deliveries get the same event id exactly when payload and vendor event id are the same, whatever
      bytes the vendor put into its id. */
  lemma EventIdIsInjective(json: Bytes, id: Bytes, json': Bytes, id': Bytes)
    requires JsonText(json) && JsonText(json')
    ensures EventId(json, id) == EventId(json', id') <==> json == json' && id == id'
  {
    var parts, others := [json] + OptionalPart(id), [json'] + OptionalPart(id');
    FramingIsInjective(parts, others);
    assert parts[0] == json && others[0] == json';
    assert id != [] ==> parts[1] == id;
    assert id' != [] ==> others[1] == id';
  }

  /** The two version strings that go into every extraction key. */
  datatype Versions = Versions(prompt: Bytes, schema: Bytes)

  const EVENT_TYPE_PREFIX: Bytes :=
    [0x63, 0x6c, 0x61, 0x73, 0x73, 0x69, 0x66, 0x79, 0x5f, 0x65, 0x76, 0x65, 0x6e, 0x74, 0x5f, 0x74, 0x79, 0x70, 0x65,
     0x5f, 0x76, 0x31]

  /** Neither version holds the separator, and the prompt version is not `classify_event_type_v1`. */
  predicate GoodVersions(v: Versions) {
    Free(v.prompt) && Free(v.schema) && v.prompt != EVENT_TYPE_PREFIX
  }

  /** `llm_cache_key`; an empty vendor scope is left out. */
  function ExtractKey(v: Versions, json: Bytes, vendor: Bytes): Bytes {
    Framed([v.prompt, json, v.schema] + OptionalPart(vendor))
  }

  /** Extraction keys are equal exactly when versions, payload and vendor are, whatever the vendor string
      holds. */
  lemma ExtractKeyIsInjective(v: Versions, json: Bytes, vendor: Bytes, v': Versions, json': Bytes, vendor': Bytes)
    requires GoodVersions(v) && GoodVersions(v') && JsonText(json) && JsonText(json')
    ensures ExtractKey(v, json, vendor) == ExtractKey(v', json', vendor')
            <==> v == v' && json == json' && vendor == vendor'
  {
    var parts := [v.prompt, json, v.schema] + OptionalPart(vendor);
    var others := [v'.prompt, json', v'.schema] + OptionalPart(vendor');
    FramingIsInjective(parts, others);
    assert parts[0] == v.prompt && parts[1] == json && parts[2] == v.schema;
    assert others[0] == v'.prompt && others[1] == json' && others[2] == v'.schema;
    assert vendor != [] ==> parts[3] == vendor;
    assert vendor' != [] ==> others[3] == vendor';
  }

  /** The key under which `classify_event_type` stores its answer. */
  function EventTypeKey(vendor: Bytes, raw: Bytes): Bytes {
    Framed([EVENT_TYPE_PREFIX, vendor, raw])
  }

  lemma FramedTwo(a: Bytes, b: Bytes)
    ensures Framed([a, b]) == a + [SEPARATOR] + b
  {
    assert [a, b][1..] == [b];
  }

  lemma FramedThree(a: Bytes, b: Bytes, c: Bytes)
    ensures Framed([a, b, c]) == a + [SEPARATOR] + b + [SEPARATOR] + c
  {
    assert [a, b, c][1..] == [b, c];
    FramedTwo(b, c);
  }

  lemma FramedFour(a: Bytes, b: Bytes, c: Bytes, d: Bytes)
    ensures Framed([a, b, c, d]) == a + [SEPARATOR] + b + [SEPARATOR] + c + [SEPARATOR] + d
  {
    assert [a, b, c, d][1..] == [b, c, d];
    FramedThree(b, c, d);
  }

  /** The keys, spelled out: an absent part leaves no trace, not even a separator. */
  lemma KeysSpelled(v: Versions, json: Bytes, vendor: Bytes, raw: Bytes)
    ensures EventId(json, []) == json
    ensures ExtractKey(v, json, []) == v.prompt + [SEPARATOR] + json + [SEPARATOR] + v.schema
    ensures vendor != [] ==>
              && EventId(json, vendor) == json + [SEPARATOR] + vendor
              && ExtractKey(v, json, vendor) == ExtractKey(v, json, []) + [SEPARATOR] + vendor
    ensures EventTypeKey(vendor, raw) == EVENT_TYPE_PREFIX + [SEPARATOR] + vendor + [SEPARATOR] + raw
  {
    FramedThree(v.prompt, json, v.schema);
    FramedThree(EVENT_TYPE_PREFIX, vendor, raw);
    assert [json] + [] == [json] && [v.prompt, json, v.schema] + [] == [v.prompt, json, v.schema];
    if vendor != [] {
      FramedTwo(json, vendor);
      FramedFour(v.prompt, json, v.schema, vendor);
      assert [json] + [vendor] == [json, vendor];
      assert [v.prompt, json, v.schema] + [vendor] == [v.prompt, json, v.schema, vendor];
    }
  }

  lemma EventTypeKeyIs(vendor: Bytes, raw: Bytes)
    ensures EventTypeKey(vendor, raw) == EVENT_TYPE_PREFIX + [SEPARATOR] + (vendor + [SEPARATOR] + raw)
  {
    var parts := [EVENT_TYPE_PREFIX, vendor, raw];
    assert parts[1..] == [vendor, raw] && parts[1..][1..] == [raw];
    assert Framed(parts[1..]) == vendor + [SEPARATOR] + raw;
  }

  /** The two kinds of key never meet, although they share one table. */
  lemma KindsOfKeyAreApart(v: Versions, json: Bytes, vendor: Bytes, vendor': Bytes, raw: Bytes)
    requires GoodVersions(v)
    ensures ExtractKey(v, json, vendor) != EventTypeKey(vendor', raw)
  {
    var parts := [v.prompt, json, v.schema] + OptionalPart(vendor);
    UntilSeparatorOf(v.prompt, Framed(parts[1..]));
    EventTypeKeyIs(vendor', raw);
    UntilSeparatorOf(EVENT_TYPE_PREFIX, vendor' + [SEPARATOR] + raw);
  }

  /** Within the event-type keys, two vendors share a key for some pair of raw types exactly when they are the
      same vendor or one continues the other with a separator. Nothing in the service keeps the separator out
      of a vendor id. */
  lemma EventTypeKeysMeetIff(vendor: Bytes, other: Bytes)
    ensures (exists raw, raw' :: EventTypeKey(vendor, raw) == EventTypeKey(other, raw'))
            <==> vendor == other || vendor + [SEPARATOR] <= other || other + [SEPARATOR] <= vendor
  {
    if vendor == other {
      assert EventTypeKey(vendor, []) == EventTypeKey(other, []);
    } else if vendor + [SEPARATOR] <= other {
      EventTypeKeysMeet(vendor, other);
    } else if other + [SEPARATOR] <= vendor {
      EventTypeKeysMeet(other, vendor);
    }
    if raw, raw' :| EventTypeKey(vendor, raw) == EventTypeKey(other, raw') {
      var a, b := TextsAgree(vendor, raw, other, raw');
      if |vendor| < |other| {
        assert b[..|vendor| + 1] == other[..|vendor| + 1] && a[..|vendor| + 1] == vendor + [SEPARATOR];
      } else if |other| < |vendor| {
        assert a[..|other| + 1] == vendor[..|other| + 1] && b[..|other| + 1] == other + [SEPARATOR];
      } else {
        assert a[..|vendor|] == vendor && b[..|vendor|] == other;
      }
    }
  }

  lemma EventTypeKeysMeet(shorter: Bytes, longer: Bytes)
    requires shorter + [SEPARATOR] <= longer
    ensures exists raw, raw' :: EventTypeKey(shorter, raw) == EventTypeKey(longer, raw')
    ensures exists raw, raw' :: EventTypeKey(longer, raw') == EventTypeKey(shorter, raw)
  {
    var tail := longer[|shorter| + 1..];
    var raw := tail + [SEPARATOR];
    EventTypeKeyIs(shorter, raw);
    EventTypeKeyIs(longer, []);
    assert longer == shorter + [SEPARATOR] + tail;
    assert shorter + [SEPARATOR] + raw == longer + [SEPARATOR] + [];
    assert EventTypeKey(shorter, raw) == EventTypeKey(longer, []);
  }

  lemma TextsAgree(vendor: Bytes, raw: Bytes, other: Bytes, raw': Bytes) returns (a: Bytes, b: Bytes)
    requires EventTypeKey(vendor, raw) == EventTypeKey(other, raw')
    ensures a == vendor + [SEPARATOR] + raw && b == other + [SEPARATOR] + raw' && a == b
  {
    a, b := vendor + [SEPARATOR] + raw, other + [SEPARATOR] + raw';
    EventTypeKeyIs(vendor, raw);
    EventTypeKeyIs(other, raw');
    var front := EVENT_TYPE_PREFIX + [SEPARATOR];
    assert a == (front + a)[|front|..] && b == (front + b)[|front|..];
  }

  /** For one vendor, and so for vendors of which none continues another with a separator, the raw type is
      told apart too. */
  lemma EventTypeKeyTellsRawTypes(vendor: Bytes, raw: Bytes, raw': Bytes)
    ensures EventTypeKey(vendor, raw) == EventTypeKey(vendor, raw') <==> raw == raw'
  {
    if EventTypeKey(vendor, raw) == EventTypeKey(vendor, raw') {
      var a, b := TextsAgree(vendor, raw, vendor, raw');
      assert raw == a[|vendor| + 1..] && raw' == b[|vendor| + 1..];
    }
  }
}
