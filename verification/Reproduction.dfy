/** What an inferred document extracts from the payload that it was inferred from: the optional fields come back as
    the provider gave them, up to surrounding blanks. */
module Reproduction {
  import opened Prelude
  import opened Json
  import opened Canonical
  import opened PyText
  import opened Paths
  import opened Discovery
  import opened Templates
  import opened Adapter
  import opened ExtractedEvents
  import opened Learning
  import opened PathA
  import Amounts = Money

  /** A value that was found is found again, as a leaf with the same stripped text. */
  lemma ValueReproduced(world: World, payload: Json, value: Json)
    requires Clean(payload) && NoNestedArrays(payload) && ValuePath(world, payload, value).Some?
    ensures var v := Resolve(payload, ValuePath(world, payload, value).value);
            v.Ok? && v.value != Null && Matches(v.value, Strip(Text(value, world.repr)))
  {
    var segs := FoundPathResolves(payload, Strip(Text(value, world.repr)));
  }

  // ----- Reference maps -----

  function Laid(payload: Json, result: Result<Refs>, entry: (string, string)): Result<Refs> {
    var refs :- result;
    var v :- Resolve(payload, entry.1);
    Ok(if v != Null then refs[entry.0 := v] else refs)
  }

  lemma {:induction false} MapFromSnoc(payload: Json, spec: MapSpec, entry: (string, string), i: nat, result: Refs)
    requires i <= |spec|
    ensures MapFrom(payload, spec + [entry], i, result) == Laid(payload, MapFrom(payload, spec, i, result), entry)
    decreases |spec| - i
  {
    var longer := spec + [entry];
    if i == |spec| {
      assert longer[i] == entry;
      var v := Resolve(payload, entry.1);
      if v.Ok? {
        assert MapFrom(payload, longer, i + 1, result) == Ok(result);
      }
    } else {
      assert longer[i] == spec[i];
      var v := Resolve(payload, spec[i].1);
      if v.Ok? {
        MapFromSnoc(payload, spec, entry, i + 1, if v.value != Null then result[spec[i].0 := v.value] else result);
      }
    }
  }

  /** `refs` holds a matching leaf for the member if its value stands in the payload, and nothing otherwise. */
  predicate MirrorsMember(world: World, payload: Json, member: Member, refs: Refs) {
    && (member.key in refs <==> ValuePath(world, payload, member.value).Some?)
    && (member.key in refs ==> Matches(refs[member.key], Strip(Text(member.value, world.repr))))
  }

  predicate HasKey(members: seq<Member>, key: string) {
    exists i :: 0 <= i < |members| && members[i].key == key
  }

  ghost predicate Mirrors(world: World, payload: Json, members: seq<Member>, refs: Refs) {
    && (forall i :: 0 <= i < |members| ==> MirrorsMember(world, payload, members[i], refs))
    && (forall k :: k in refs ==> HasKey(members, k))
  }

  lemma HasKeySnoc(members: seq<Member>, last: Member, k: string)
    ensures HasKey(members + [last], k) <==> HasKey(members, k) || last.key == k
  {
    var longer := members + [last];
    assert longer[|members|] == last;
    if HasKey(members, k) {
      var i :| 0 <= i < |members| && members[i].key == k;
      assert longer[i].key == k;
    }
  }

  lemma MirrorsSnoc(world: World, payload: Json, front: seq<Member>, last: Member, before: Refs, leaf: Option<Json>)
    requires !HasKey(front, last.key) && Mirrors(world, payload, front, before)
    requires leaf.Some? <==> ValuePath(world, payload, last.value).Some?
    requires leaf.Some? ==> Matches(leaf.value, Strip(Text(last.value, world.repr)))
    ensures Mirrors(world, payload, front + [last], if leaf.Some? then before[last.key := leaf.value] else before)
  {
    var refs := if leaf.Some? then before[last.key := leaf.value] else before;
    var members := front + [last];
    forall i | 0 <= i < |members|
      ensures MirrorsMember(world, payload, members[i], refs)
    {
      if i < |front| {
        assert members[i] == front[i] && HasKey(front, front[i].key);
      }
    }
    forall k | k in refs
      ensures HasKey(members, k)
    {
      HasKeySnoc(front, last, k);
    }
  }

  lemma SpecOfSnoc(world: World, payload: Json, front: seq<Member>, last: Member)
    ensures var path := ValuePath(world, payload, last.value);
            MapSpecOf(world, payload, front + [last]) ==
            if path.Some? then MapSpecOf(world, payload, front) + [(last.key, path.value)]
            else MapSpecOf(world, payload, front)
  {
    assert (front + [last])[..|front|] == front;
  }

  lemma OneMoreReference(world: World, payload: Json, front: seq<Member>, last: Member, before: Refs)
    requires Clean(payload) && NoNestedArrays(payload) && !HasKey(front, last.key)
    requires MapFrom(payload, MapSpecOf(world, payload, front), 0, map[]) == Ok(before)
    requires Mirrors(world, payload, front, before)
    ensures var refs := MapFrom(payload, MapSpecOf(world, payload, front + [last]), 0, map[]);
            refs.Ok? && Mirrors(world, payload, front + [last], refs.value)
  {
    var path := ValuePath(world, payload, last.value);
    SpecOfSnoc(world, payload, front, last);
    if path.Some? {
      ValueReproduced(world, payload, last.value);
      MapFromSnoc(payload, MapSpecOf(world, payload, front), (last.key, path.value), 0, map[]);
      MirrorsSnoc(world, payload, front, last, before, Some(Resolve(payload, path.value).value));
    } else {
      MirrorsSnoc(world, payload, front, last, before, None);
    }
  }

  /** The references that the provider named, as far as they stand in the payload, are extracted from it again,
      and nothing else is. */
  lemma {:induction false} ReferencesReproduced(world: World, payload: Json, members: seq<Member>)
    requires Clean(payload) && NoNestedArrays(payload) && DistinctKeys(members)
    ensures var refs := MapFrom(payload, MapSpecOf(world, payload, members), 0, map[]);
            refs.Ok? && Mirrors(world, payload, members, refs.value)
  {
    if members != [] {
      var front, last := members[..|members| - 1], members[|members| - 1];
      ReferencesReproduced(world, payload, front);
      OneMoreReference(world, payload, front, last, MapFrom(payload, MapSpecOf(world, payload, front), 0, map[]).value);
      assert members == front + [last];
    }
  }

  // ----- Locations -----

  /** The leaf at which a value of the provider was found, null if it was not. */
  function LeafFor(world: World, payload: Json, value: Json): Json {
    var v := ResolveOptional(payload, ValuePath(world, payload, value));
    if v.Ok? then v.value else Null
  }

  /** A text that is extracted for a value of the provider: there is one exactly when the leaf is truthy, and then it
      is the value's text up to surrounding blanks. */
  predicate TextFor(world: World, payload: Json, text: Option<string>, value: Json) {
    && (text.Some? <==> Truthy(LeafFor(world, payload, value)))
    && (text.Some? ==> value != Null && Strip(text.value) == Strip(Text(value, world.repr)))
  }

  lemma TextReproduced(world: World, payload: Json, value: Json)
    requires Clean(payload) && NoNestedArrays(payload)
    ensures ResolveOptional(payload, ValuePath(world, payload, value)) == Ok(LeafFor(world, payload, value))
    ensures LeafFor(world, payload, value) != Null <==> ValuePath(world, payload, value).Some?
    ensures TextFor(world, payload, TextIfTruthy(world, LeafFor(world, payload, value)), value)
  {
    if ValuePath(world, payload, value).Some? {
      ValueReproduced(world, payload, value);
    }
  }

  predicate CoordinateReads(world: World, v: Json) {
    v != Null ==> world.toFloat(v).Some?
  }

  /** How a location follows from what its four paths lead to. */
  lemma PlaceFollows(world: World, payload: Json, spec: PlaceSpec, code: Json, name: Json, lat: Json, lon: Json)
    requires ResolveOptional(payload, spec.code) == Ok(code) && ResolveOptional(payload, spec.name) == Ok(name)
    requires ResolveOptional(payload, spec.latitude) == Ok(lat) && ResolveOptional(payload, spec.longitude) == Ok(lon)
    ensures var place := ExtractPlace(world, payload, Some(spec));
            && (place.Ok? <==>
                  (Truthy(code) || Truthy(name) ==> CoordinateReads(world, lat) && CoordinateReads(world, lon)))
            && (place.Ok? ==> (place.value.Some? <==> Truthy(code) || Truthy(name)))
            && (place.Ok? && place.value.Some? ==>
                  && place.value.value.code == TextIfTruthy(world, code)
                  && place.value.value.name == TextIfTruthy(world, name)
                  && NumberBy(world, lat, place.value.value.latitude)
                  && NumberBy(world, lon, place.value.value.longitude))
  {
  }

  /** A location extracted from the first payload: there is one exactly when the leaf of the code or of the name is
      truthy, and it has the provider's code under code, its name under name, and the numbers at the leaves of its two
      coordinates under these. It raises exactly when there is one and a coordinate that was found is no number. */
  lemma PlaceReproduced(world: World, payload: Json, location: Json)
    requires Clean(payload) && NoNestedArrays(payload) && location.Obj?
    ensures var place := ExtractPlace(world, payload, PlaceSpecFor(world, payload, location));
            var code, name := Get(location.members, "code"), Get(location.members, "name");
            var lat, lon := Get(location.members, "latitude"), Get(location.members, "longitude");
            var there := Truthy(LeafFor(world, payload, code)) || Truthy(LeafFor(world, payload, name));
            && (place.Ok? <==>
                  (there ==> && CoordinateReads(world, LeafFor(world, payload, lat))
                             && CoordinateReads(world, LeafFor(world, payload, lon))))
            && (place.Ok? ==> (place.value.Some? <==> there))
            && (place.Ok? && place.value.Some? ==>
                  && TextFor(world, payload, place.value.value.code, code)
                  && TextFor(world, payload, place.value.value.name, name)
                  && NumberBy(world, LeafFor(world, payload, lat), place.value.value.latitude)
                  && NumberBy(world, LeafFor(world, payload, lon), place.value.value.longitude))
  {
    var code, name := Get(location.members, "code"), Get(location.members, "name");
    var lat, lon := Get(location.members, "latitude"), Get(location.members, "longitude");
    TextReproduced(world, payload, code);
    TextReproduced(world, payload, name);
    TextReproduced(world, payload, lat);
    TextReproduced(world, payload, lon);
    var spec := PlaceSpecFor(world, payload, location);
    if spec.Some? {
      PlaceFollows(world, payload, spec.value, LeafFor(world, payload, code), LeafFor(world, payload, name),
                   LeafFor(world, payload, lat), LeafFor(world, payload, lon));
    }
  }

  // ----- Ids and amounts -----

  /** An external id that was found directly comes back, up to surrounding blanks, exactly when its leaf is truthy. */
  lemma IdReproduced(world: World, payload: Json, value: Json)
    requires Clean(payload) && NoNestedArrays(payload) && ValuePath(world, payload, value).Some?
    ensures var id := EntityId(world, payload, FieldSpec(world, payload, IdField, value));
            id.Ok? && TextFor(world, payload, id.value, value)
  {
    TextReproduced(world, payload, value);
  }

  /** An amount printed in US or European style behind its currency is extracted as that amount, and
      as none at all where it is too long to read. */
  lemma AmountExtracted(world: World, payload: Json, path: string, code: string, n: nat, group: char, point: char)
    requires Amounts.IsCode(code) && Amounts.IsSeparator(group) && Amounts.IsSeparator(point)
    requires Resolve(payload, path) == Ok(Str(code + " " + Amounts.Print(n, group, point)))
    ensures ExtractAmount(world, payload, Some(Path(path))) ==
            Ok(if Amounts.Readable(n) then Some(Money(code, n)) else None)
  {
    Amounts.PrintThenParse(code, n, group, point);
  }

  lemma AmountOfText(world: World, payload: Json, path: string, text: string, currency: string, minor: int)
    requires Resolve(payload, path) == Ok(Str(text)) && text != "" && Amounts.ParseMoney(text) == Ok((currency, minor))
    ensures ExtractAmount(world, payload, Some(Path(path))) ==
            Ok(if minor < 0 then None else Some(Money(currency, minor)))
  {
  }

  /** A debit printed in that way is extracted as a credit where it is less than one unit, and not at all beyond. */
  lemma DebitExtracted(world: World, payload: Json, path: string, code: string, n: nat, group: char, point: char)
    requires Amounts.IsCode(code) && Amounts.IsSeparator(group) && Amounts.IsSeparator(point) && Amounts.Readable(n)
    requires Resolve(payload, path) == Ok(Str(code + " -" + Amounts.Print(n, group, point)))
    ensures ExtractAmount(world, payload, Some(Path(path))) == Ok(if n < 100 then Some(Money(code, n)) else None)
  {
    var text := code + " -" + Amounts.Print(n, group, point);
    Amounts.NegativeIsMisread(code, n, group, point);
    AmountOfText(world, payload, path, text, code, Amounts.Misread(n));
    Amounts.MisreadIs(n);
  }
}
