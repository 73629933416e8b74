/** How the discoverer finds where an extracted value stands in a payload, and prints that place as a path
    string for the adapter. */
module Discovery {
  import opened Prelude
  import opened Json
  import opened PyText
  import opened Paths

  /** Every key can be spelled in a path, and no object repeats a key. */
  predicate Clean(v: Json)
    decreases v
  {
    match v
    case Obj(members) =>
      DistinctKeys(members) && forall i :: 0 <= i < |members| ==> CleanKey(members[i].key) && Clean(members[i].value)
    case Arr(elems) => forall i :: 0 <= i < |elems| ==> Clean(elems[i])
    case _ => true
  }

  /** No array sits directly inside an array. */
  predicate NoNestedArrays(v: Json)
    decreases v
  {
    match v
    case Obj(members) => forall i :: 0 <= i < |members| ==> NoNestedArrays(members[i].value)
    case Arr(elems) => forall i :: 0 <= i < |elems| ==> !elems[i].Arr? && NoNestedArrays(elems[i])
    case _ => true
  }

  /** The comparison at a leaf: `str(node).strip() == target`. */
  predicate Matches(v: Json, target: string) {
    IsLeaf(v) && v != Null && Strip(LeafText(v)) == target
  }

  /** Strings match by their stripped text, numbers by what is printed for them, booleans as True and False; null and
      containers match nothing. */
  lemma MatchesIff(v: Json, target: string)
    ensures Matches(v, target) <==>
            || (v.Str? && Strip(v.s) == target)
            || (v.Num? && Strip(v.text) == target)
            || (v == Bool(true) && target == "True")
            || (v == Bool(false) && target == "False")
  {
    StripIsIdentity("True", IsSpace);
    StripIsIdentity("False", IsSpace);
  }

  // ----- The walk -----

  /** The paths that the walk appends below `v`, in order. */
  function Found(v: Json, path: string, target: string): seq<string>
    decreases v, 1
  {
    match v
    case Obj(members) => FoundInMembers(members, path, target)
    case Arr(elems) => FoundInElems(elems, 0, path, target)
    case _ => if Matches(v, target) then [path] else []
  }

  function FoundInMembers(members: seq<Member>, path: string, target: string): seq<string>
    decreases members, 0
  {
    if members == [] then []
    else
      assert members[0] in members;
      Found(members[0].value, path + SegText(Key(members[0].key)), target) + FoundInMembers(members[1..], path, target)
  }

  function FoundInElems(elems: seq<Json>, from: nat, path: string, target: string): seq<string>
    decreases elems, 0
  {
    if elems == [] then []
    else Found(elems[0], path + SegText(Idx(from)), target) + FoundInElems(elems[1..], from + 1, path, target)
  }

  lemma Regroup<T>(a: seq<T>, b: seq<T>, c: seq<T>)
    ensures a + b + c == a + (b + c)
  {
  }

  lemma MembersFrom(members: seq<Member>, n: nat, path: string, target: string)
    requires n < |members|
    ensures FoundInMembers(members[n..], path, target) ==
            Found(members[n].value, path + SegText(Key(members[n].key)), target)
            + FoundInMembers(members[n + 1..], path, target)
  {
    assert members[n..][1..] == members[n + 1..];
  }

  lemma OneMoreMember(
    members: seq<Member>, i: nat, path: string, target: string, before: seq<string>, after: seq<string>)
    requires i < |members|
    requires after == before + Found(members[i].value, path + SegText(Key(members[i].key)), target)
    ensures after + FoundInMembers(members[i + 1..], path, target) ==
            before + FoundInMembers(members[i..], path, target)
  {
    MembersFrom(members, i, path, target);
    Regroup(before, Found(members[i].value, path + SegText(Key(members[i].key)), target),
            FoundInMembers(members[i + 1..], path, target));
  }

  lemma OneMoreElem(elems: seq<Json>, i: nat, path: string, target: string, before: seq<string>, after: seq<string>)
    requires i < |elems|
    requires after == before + Found(elems[i], path + SegText(Idx(i)), target)
    ensures after + FoundInElems(elems[i + 1..], i + 1, path, target) ==
            before + FoundInElems(elems[i..], i, path, target)
  {
    var here := Found(elems[i], path + SegText(Idx(i)), target);
    var rest := FoundInElems(elems[i + 1..], i + 1, path, target);
    assert elems[i..][1..] == elems[i + 1..];
    assert FoundInElems(elems[i..], i, path, target) == here + rest;
    Regroup(before, here, rest);
  }

  class Search {
    const target: string
    var results: seq<string>

    constructor (target: string)
      ensures this.target == target && results == []
    {
      this.target := target;
      results := [];
    }

    /** The closure `_walk`, which appends to the enclosing list. */
    method Walk(node: Json, path: string)
      modifies this
      ensures results == old(results) + Found(node, path, target)
      decreases node
    {
      if node.Obj? {
        var members := node.members;
        assert members[0..] == members;
        for i := 0 to |members|
          invariant results + FoundInMembers(members[i..], path, target) == old(results) + Found(node, path, target)
        {
          ghost var before := results;
          Walk(members[i].value, path + SegText(Key(members[i].key)));
          OneMoreMember(members, i, path, target, before, results);
        }
      } else if node.Arr? {
        var elems := node.elems;
        assert elems[0..] == elems;
        for i := 0 to |elems|
          invariant results + FoundInElems(elems[i..], i, path, target) == old(results) + Found(node, path, target)
        {
          ghost var before := results;
          Walk(elems[i], path + SegText(Idx(i)));
          OneMoreElem(elems, i, path, target, before, results);
        }
      } else if node != Null && Strip(LeafText(node)) == target {
        results := results + [path];
      }
    }
  }

  /** The stable `sort(key=len)`. */
  function SortByLength(paths: seq<string>): (sorted: seq<string>)
    ensures |sorted| == |paths|
  {
    if paths == [] then [] else InsertByLength(SortByLength(paths[..|paths| - 1]), paths[|paths| - 1])
  }

  function InsertByLength(sorted: seq<string>, path: string): (longer: seq<string>)
    ensures |longer| == |sorted| + 1
  {
    if sorted == [] || |path| < |sorted[0]| then [path] + sorted
    else [sorted[0]] + InsertByLength(sorted[1..], path)
  }

  /** `p` is the first of the shortest. */
  predicate FirstShortest(paths: seq<string>, p: string, i: int) {
    && 0 <= i < |paths| && paths[i] == p
    && (forall j :: 0 <= j < |paths| ==> |p| <= |paths[j]|)
    && (forall j :: 0 <= j < i ==> |p| < |paths[j]|)
  }

  lemma {:induction false} SortedHeadIsFirstShortest(paths: seq<string>) returns (i: nat)
    requires paths != []
    ensures FirstShortest(paths, SortByLength(paths)[0], i)
  {
    var last := |paths| - 1;
    var front := paths[..last];
    assert SortByLength(paths) == InsertByLength(SortByLength(front), paths[last]);
    if front == [] {
      assert SortByLength(front) == [] && SortByLength(paths) == [paths[0]];
      i := 0;
    } else {
      var k := SortedHeadIsFirstShortest(front);
      assert forall j :: 0 <= j < last ==> paths[j] == front[j];
      var head := SortByLength(front)[0];
      assert SortByLength(paths)[0] == if |paths[last]| < |head| then paths[last] else head;
      assert paths[k] == head;
      if |paths[last]| < |head| {
        i := last;
      } else {
        i := k;
        assert forall j :: 0 <= j < |paths| ==> |head| <= |paths[j]|;
      }
    }
  }

  /** `_find_value_path`, for a value whose stripped text is `target`. */
  function FindPath(payload: Json, target: string): Option<string> {
    var results := Found(payload, "$", target);
    if results == [] then None else Some(SortByLength(results)[0])
  }

  method FindValuePath(payload: Json, target: string) returns (path: Option<string>)
    ensures path == FindPath(payload, target)
  {
    var search := new Search(target);
    search.Walk(payload, "$");
    assert search.results == Found(payload, "$", target);
    if search.results != [] {
      var results := SortByLength(search.results);
      return Some(results[0]);
    }
    return None;
  }

  // ----- What the walk finds -----

  lemma SegsTextCons(path: string, seg: Seg, segs: seq<Seg>)
    ensures path + SegText(seg) + SegsText(segs) == path + SegsText([seg] + segs)
  {
    assert ([seg] + segs)[1..] == segs;
  }

  /** Every path found is the printed form of a structural path to a matching leaf. */
  lemma {:induction false} FoundIsThere(v: Json, path: string, target: string, i: nat) returns (segs: seq<Seg>)
    requires Clean(v) && i < |Found(v, path, target)|
    ensures CleanSegs(segs) && Found(v, path, target)[i] == path + SegsText(segs)
    ensures At(v, segs).Some? && Matches(At(v, segs).value, target)
    decreases v, 1, 0
  {
    if v.Obj? {
      assert v.members[0..] == v.members;
      segs := MemberFoundIsThere(v, 0, path, target, i);
    } else if v.Arr? {
      assert v.elems[0..] == v.elems;
      segs := ElemFoundIsThere(v, 0, path, target, i);
    } else {
      segs := [];
      assert path + "" == path;
    }
  }

  lemma AtMember(v: Json, n: nat, rest: seq<Seg>)
    requires v.Obj? && DistinctKeys(v.members) && n < |v.members|
    ensures At(v, [Key(v.members[n].key)] + rest) == At(v.members[n].value, rest)
  {
    LookupAt(v.members, n);
    assert ([Key(v.members[n].key)] + rest)[1..] == rest;
  }

  lemma ThroughMember(v: Json, n: nat, path: string, rest: seq<Seg>)
    requires v.Obj? && Clean(v) && n < |v.members| && CleanSegs(rest)
    ensures var key := Key(v.members[n].key);
            && CleanSegs([key] + rest)
            && At(v, [key] + rest) == At(v.members[n].value, rest)
            && path + SegText(key) + SegsText(rest) == path + SegsText([key] + rest)
  {
    AtMember(v, n, rest);
    SegsTextCons(path, Key(v.members[n].key), rest);
  }

  lemma {:induction false} MemberFoundIsThere(v: Json, n: nat, path: string, target: string, i: nat)
      returns (segs: seq<Seg>)
    requires v.Obj? && Clean(v) && n <= |v.members|
    requires i < |FoundInMembers(v.members[n..], path, target)|
    ensures CleanSegs(segs) && FoundInMembers(v.members[n..], path, target)[i] == path + SegsText(segs)
    ensures At(v, segs).Some? && Matches(At(v, segs).value, target)
    decreases v, 0, |v.members| - n
  {
    MembersFrom(v.members, n, path, target);
    var m := v.members[n];
    var here := Found(m.value, path + SegText(Key(m.key)), target);
    if i < |here| {
      var rest := FoundIsThere(m.value, path + SegText(Key(m.key)), target, i);
      ThroughMember(v, n, path, rest);
      segs := [Key(m.key)] + rest;
    } else {
      segs := MemberFoundIsThere(v, n + 1, path, target, i - |here|);
    }
  }

  lemma {:induction false} ElemFoundIsThere(v: Json, n: nat, path: string, target: string, i: nat)
      returns (segs: seq<Seg>)
    requires v.Arr? && Clean(v) && n <= |v.elems|
    requires i < |FoundInElems(v.elems[n..], n, path, target)|
    ensures CleanSegs(segs) && FoundInElems(v.elems[n..], n, path, target)[i] == path + SegsText(segs)
    ensures At(v, segs).Some? && Matches(At(v, segs).value, target)
    decreases v, 0, |v.elems| - n
  {
    var e := v.elems[n];
    var here := Found(e, path + SegText(Idx(n)), target);
    assert v.elems[n..][1..] == v.elems[n + 1..];
    if i < |here| {
      var rest := FoundIsThere(e, path + SegText(Idx(n)), target, i);
      segs := [Idx(n)] + rest;
      SegsTextCons(path, Idx(n), rest);
      assert segs[1..] == rest;
    } else {
      segs := ElemFoundIsThere(v, n + 1, path, target, i - |here|);
    }
  }

  lemma {:induction false} LookupSource(members: seq<Member>, key: string) returns (n: nat)
    requires Lookup(members, key).Some?
    ensures n < |members| && members[n].key == key && members[n].value == Lookup(members, key).value
  {
    if members[0].key == key {
      n := 0;
    } else {
      n := LookupSource(members[1..], key);
      n := n + 1;
    }
  }

  lemma {:induction false} FoundInMembersHas(members: seq<Member>, n: nat, path: string, target: string, p: string)
    requires n < |members| && p in Found(members[n].value, path + SegText(Key(members[n].key)), target)
    ensures p in FoundInMembers(members, path, target)
  {
    if n > 0 {
      FoundInMembersHas(members[1..], n - 1, path, target, p);
    }
  }

  lemma {:induction false} FoundInElemsHas(elems: seq<Json>, from: nat, n: nat, path: string, target: string, p: string)
    requires n < |elems| && p in Found(elems[n], path + SegText(Idx(from + n)), target)
    ensures p in FoundInElems(elems, from, path, target)
  {
    if n > 0 {
      FoundInElemsHas(elems[1..], from + 1, n - 1, path, target, p);
    }
  }

  lemma PathGrows(path: string, segs: seq<Seg>)
    requires segs != []
    ensures path + SegText(segs[0]) + SegsText(segs[1..]) == path + SegsText(segs)
  {
  }

  /** Every matching leaf is found. */
  lemma {:induction false} MatchingLeafIsFound(v: Json, path: string, target: string, segs: seq<Seg>)
    requires At(v, segs).Some? && Matches(At(v, segs).value, target)
    ensures path + SegsText(segs) in Found(v, path, target)
    decreases |segs|
  {
    if segs == [] {
      assert path + "" == path;
    } else {
      var rest := segs[1..];
      PathGrows(path, segs);
      match segs[0] {
        case Key(k) =>
          var n := LookupSource(v.members, k);
          MatchingLeafIsFound(v.members[n].value, path + SegText(Key(k)), target, rest);
          FoundInMembersHas(v.members, n, path, target, path + SegsText(segs));
        case Idx(i) =>
          MatchingLeafIsFound(v.elems[i], path + SegText(Idx(i)), target, rest);
          FoundInElemsHas(v.elems, 0, i, path, target, path + SegsText(segs));
      }
    }
  }

  lemma {:induction false} NoNestedArraysNoAdjacentIndices(v: Json, segs: seq<Seg>)
    requires NoNestedArrays(v) && At(v, segs).Some?
    ensures NoAdjacentIndices(segs)
    decreases |segs|
  {
    if segs != [] {
      var rest := segs[1..];
      match segs[0] {
        case Key(k) =>
          var n := LookupSource(v.members, k);
          NoNestedArraysNoAdjacentIndices(v.members[n].value, rest);
        case Idx(i) =>
          NoNestedArraysNoAdjacentIndices(v.elems[i], rest);
      }
      forall i | 0 < i < |segs| && segs[i - 1].Idx?
        ensures segs[i].Key?
      {
        assert segs[i] == rest[i - 1];
        if i > 1 {
          assert segs[i - 1] == rest[i - 2];
        }
      }
    }
  }

  // ----- The round trip -----

  /** `segs` leads to a leaf that the search for `target` accepts. */
  predicate LeadsTo(payload: Json, segs: seq<Seg>, target: string) {
    At(payload, segs).Some? && Matches(At(payload, segs).value, target)
  }

  /** The discoverer reports no path exactly when no leaf matches. */
  lemma NothingFoundIffNoMatch(payload: Json, target: string)
    requires Clean(payload)
    ensures FindPath(payload, target).None? <==> forall segs :: !LeadsTo(payload, segs, target)
  {
    if FindPath(payload, target).None? {
      forall segs
        ensures !LeadsTo(payload, segs, target)
      {
        if LeadsTo(payload, segs, target) {
          MatchingLeafIsFound(payload, "$", target, segs);
        }
      }
    } else {
      var segs := FoundIsThere(payload, "$", target, 0);
      assert LeadsTo(payload, segs, target);
    }
  }

  /** The path round trip. A path that the discoverer reports is the printed form of a structural path to a
      matching leaf, it is no longer than that of any other match, and resolving the string finds that leaf
      again exactly when no array on the way sits directly inside an array. */
  lemma FoundPathResolves(payload: Json, target: string) returns (segs: seq<Seg>)
    requires Clean(payload) && FindPath(payload, target).Some?
    ensures var path := FindPath(payload, target).value;
            && path == PathText(segs) && CleanSegs(segs) && LeadsTo(payload, segs, target)
            && (forall other :: LeadsTo(payload, other, target) ==> |path| <= |PathText(other)|)
            && (Resolve(payload, path) == Ok(At(payload, segs).value) <==> NoAdjacentIndices(segs))
            && (NoNestedArrays(payload) ==> NoAdjacentIndices(segs))
  {
    var results := Found(payload, "$", target);
    var i := SortedHeadIsFirstShortest(results);
    segs := FoundIsThere(payload, "$", target, i);
    forall other | LeadsTo(payload, other, target)
      ensures |results[i]| <= |PathText(other)|
    {
      MatchingLeafIsFound(payload, "$", target, other);
    }
    ResolvesIffNoAdjacentIndices(payload, segs);
    if NoNestedArrays(payload) {
      NoNestedArraysNoAdjacentIndices(payload, segs);
    }
  }

  /** Of the shortest paths that the walk found, the first one is returned. */
  lemma FoundPathIsFirst(payload: Json, target: string) returns (i: nat)
    requires FindPath(payload, target).Some?
    ensures FirstShortest(Found(payload, "$", target), FindPath(payload, target).value, i)
  {
    i := SortedHeadIsFirstShortest(Found(payload, "$", target));
  }

  /** A leaf that alone matches is found where it stands. */
  lemma OnlyMatchIsFound(payload: Json, segs: seq<Seg>, target: string)
    requires Clean(payload) && forall other :: LeadsTo(payload, other, target) <==> other == segs
    ensures FindPath(payload, target) == Some(PathText(segs))
  {
    NothingFoundIffNoMatch(payload, target);
    assert LeadsTo(payload, segs, target);
    var found := FoundPathResolves(payload, target);
  }

  // ----- A payload on which the round trip fails -----

  const NESTED := Obj([Member("m", Arr([Arr([Str("x")])]))])

  const NESTED_PLACE := [Key("m"), Idx(0), Idx(0)]

  lemma OneMember(key: string, v: Json, k: string)
    ensures Lookup([Member(key, v)], k) == if k == key then Some(v) else None
  {
    assert [Member(key, v)][1..] == [];
  }

  lemma OneElem(v: Json, segs: seq<Seg>)
    ensures At(Arr([v]), segs) ==
            if segs == [] then Some(Arr([v])) else if segs[0] == Idx(0) then At(v, segs[1..]) else None
  {
  }

  lemma OnlyNestedMatch(segs: seq<Seg>)
    ensures LeadsTo(NESTED, segs, "x") <==> segs == NESTED_PLACE
  {
    var inner := Arr([Str("x")]);
    StripIsIdentity("x", IsSpace);
    if segs != [] {
      var rest := segs[1..];
      assert segs == [segs[0]] + rest;
      if segs[0].Key? {
        OneMember("m", Arr([inner]), segs[0].key);
      }
      OneElem(inner, rest);
      if rest != [] {
        assert rest == [rest[0]] + rest[1..];
        OneElem(Str("x"), rest[1..]);
        if rest[1..] != [] {
          assert rest[1..] == [rest[1..][0]] + rest[1..][1..];
        }
      }
    }
  }

  /** An array directly inside an array: the discoverer finds the leaf, and the adapter does not find it again. */
  lemma NestedLeafIsLost()
    ensures FindPath(NESTED, "x") == Some("$.m[0][0]")
    ensures Resolve(NESTED, "$.m[0][0]") == Ok(Null)
  {
    forall segs
      ensures LeadsTo(NESTED, segs, "x") <==> segs == NESTED_PLACE
    {
      OnlyNestedMatch(segs);
    }
    NestedPathText();
    OnlyMatchIsFound(NESTED, NESTED_PLACE, "x");
    assert LeadsTo(NESTED, NESTED_PLACE, "x");
    assert !NoAdjacentIndices(NESTED_PLACE);
    NestedArraysAreLost(NESTED, NESTED_PLACE);
  }

  lemma NestedPathText()
    ensures PathText(NESTED_PLACE) == "$.m[0][0]"
  {
    assert Decimal(0) == "0";
    assert SegText(Idx(0)) == "[0]" && SegText(Key("m")) == ".m";
    assert NESTED_PLACE[1..] == [Idx(0), Idx(0)] && [Idx(0), Idx(0)][1..] == [Idx(0)] && [Idx(0)][1..] == [];
    assert SegsText([Idx(0)]) == "[0]";
    assert SegsText([Idx(0), Idx(0)]) == "[0][0]";
    assert SegsText(NESTED_PLACE) == ".m[0][0]";
  }
}
