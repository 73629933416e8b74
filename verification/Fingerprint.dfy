/** The structural fingerprint: the set of (path, leaf type) pairs of a payload. Hashing that set is taken to be
    injective, so the set itself stands for the fingerprint. */
module Fingerprint {
  import opened Prelude
  import opened Json
  import opened PyText
  import opened Paths
  import opened Discovery

  datatype JsonType = ObjectType | ArrayType | BooleanType | NumberType | StringType | NullType | MapType

  datatype Entry = Entry(path: string, kind: JsonType)

  function TypeOf(v: Json): JsonType {
    match v
    case Null => NullType
    case Bool(_) => BooleanType
    case Num(_, _) => NumberType
    case Str(_) => StringType
    case Arr(_) => ArrayType
    case Obj(_) => ObjectType
  }

  /** Both null, both booleans, both numbers, both strings, both arrays or both objects. */
  predicate SameKind(a: Json, b: Json) {
    && (a.Null? <==> b.Null?) && (a.Bool? <==> b.Bool?) && (a.Num? <==> b.Num?)
    && (a.Str? <==> b.Str?) && (a.Arr? <==> b.Arr?) && (a.Obj? <==> b.Obj?)
  }

  /** The type that an entry names tells the six kinds of value apart, and from a map. */
  lemma TypeOfTellsKinds(a: Json, b: Json)
    ensures TypeOf(a) == TypeOf(b) <==> SameKind(a, b)
    ensures TypeOf(a) != MapType
  {
  }

  // ----- The walk -----

  /** The pairs that the walk adds below `v`; a path in `skip` is a map whose keys are not enumerated. */
  function Shape(v: Json, path: string, skip: set<string>): set<Entry>
    decreases v, 1
  {
    if path in skip then {Entry(path, MapType)}
    else {Entry(path, TypeOf(v))} + ShapeBelow(v, path, skip)
  }

  function ShapeBelow(v: Json, path: string, skip: set<string>): set<Entry>
    decreases v, 0
  {
    match v
    case Obj(members) => ShapeOfMembers(members, path, skip)
    case Arr(elems) => ShapeOfElems(elems, path, skip)
    case _ => {}
  }

  function ShapeOfMembers(members: seq<Member>, path: string, skip: set<string>): set<Entry>
    decreases members, 0
  {
    if members == [] then {}
    else
      assert members[0] in members;
      Shape(members[0].value, path + SegText(Key(members[0].key)), skip) + ShapeOfMembers(members[1..], path, skip)
  }

  function ShapeOfElems(elems: seq<Json>, path: string, skip: set<string>): set<Entry>
    decreases elems, 0
  {
    if elems == [] then {} else Shape(elems[0], path + "[]", skip) + ShapeOfElems(elems[1..], path, skip)
  }

  class Fingerprinter {
    const skip: set<string>
    var paths: set<Entry>

    constructor (skip: set<string>)
      ensures this.skip == skip && paths == {}
    {
      this.skip := skip;
      paths := {};
    }

    /** The closure `_walk`, which adds to the enclosing set. */
    method Walk(node: Json, path: string)
      modifies this
      ensures paths == old(paths) + Shape(node, path, skip)
      decreases node
    {
      if path in skip {
        paths := paths + {Entry(path, MapType)};
        return;
      }
      paths := paths + {Entry(path, TypeOf(node))};
      if node.Obj? {
        var members := node.members;
        assert members[0..] == members;
        for i := 0 to |members|
          invariant paths + ShapeOfMembers(members[i..], path, skip) == old(paths) + Shape(node, path, skip)
        {
          assert members[i..][1..] == members[i + 1..];
          Walk(members[i].value, path + SegText(Key(members[i].key)));
        }
      } else if node.Arr? {
        var elems := node.elems;
        assert elems[0..] == elems;
        for i := 0 to |elems|
          invariant paths + ShapeOfElems(elems[i..], path, skip) == old(paths) + Shape(node, path, skip)
        {
          assert elems[i..][1..] == elems[i + 1..];
          Walk(elems[i], path + "[]");
        }
      }
    }
  }

  /** `structural_fingerprint` before hashing. */
  function FingerprintOf(payload: Json, mapPaths: set<string>): set<Entry> {
    Shape(payload, "$", mapPaths)
  }

  method StructuralFingerprint(payload: Json, mapPaths: set<string>) returns (paths: set<Entry>)
    ensures paths == FingerprintOf(payload, mapPaths)
  {
    var walker := new Fingerprinter(mapPaths);
    walker.Walk(payload, "$");
    return walker.paths;
  }

  // ----- Where entries come from -----

  predicate Separator(c: char) {
    c == '.' || c == '['
  }

  /** `q` is `p` or the path of an enclosing value, judged by the separator that follows it. */
  predicate Encloses(q: string, p: string) {
    q <= p && (|q| < |p| ==> Separator(p[|q|]))
  }

  lemma {:induction false} MemberOfShape(members: seq<Member>, path: string, skip: set<string>, e: Entry)
      returns (i: nat)
    requires e in ShapeOfMembers(members, path, skip)
    ensures i < |members| && e in Shape(members[i].value, path + SegText(Key(members[i].key)), skip)
  {
    if e in Shape(members[0].value, path + SegText(Key(members[0].key)), skip) {
      i := 0;
    } else {
      i := MemberOfShape(members[1..], path, skip, e);
      i := i + 1;
    }
  }

  lemma {:induction false} ShapeOfMember(members: seq<Member>, path: string, skip: set<string>, e: Entry, i: nat)
    requires i < |members| && e in Shape(members[i].value, path + SegText(Key(members[i].key)), skip)
    ensures e in ShapeOfMembers(members, path, skip)
  {
    if i > 0 {
      ShapeOfMember(members[1..], path, skip, e, i - 1);
    }
  }

  lemma {:induction false} ElemOfShape(elems: seq<Json>, path: string, skip: set<string>, e: Entry) returns (i: nat)
    requires e in ShapeOfElems(elems, path, skip)
    ensures i < |elems| && e in Shape(elems[i], path + "[]", skip)
  {
    if e in Shape(elems[0], path + "[]", skip) {
      i := 0;
    } else {
      i := ElemOfShape(elems[1..], path, skip, e);
      i := i + 1;
    }
  }

  lemma {:induction false} ShapeOfElem(elems: seq<Json>, path: string, skip: set<string>, e: Entry, i: nat)
    requires i < |elems| && e in Shape(elems[i], path + "[]", skip)
    ensures e in ShapeOfElems(elems, path, skip)
  {
    if i > 0 {
      ShapeOfElem(elems[1..], path, skip, e, i - 1);
    }
  }

  /** `step` is what the walk appends to the path of `v` on its way to `child`. */
  predicate IsChild(v: Json, child: Json, step: string) {
    match v
    case Obj(members) =>
      exists i :: 0 <= i < |members| && members[i].value == child && step == SegText(Key(members[i].key))
    case Arr(elems) => step == "[]" && child in elems
    case _ => false
  }

  /** The step from a value's path to that of a child that accounts for the entry. */
  lemma ChildOfShape(v: Json, path: string, skip: set<string>, e: Entry) returns (child: Json, step: string)
    requires e in ShapeBelow(v, path, skip)
    ensures child < v && e in Shape(child, path + step, skip)
    ensures IsChild(v, child, step)
    ensures Clean(v) ==> Clean(child)
  {
    if v.Obj? {
      var i := MemberOfShape(v.members, path, skip, e);
      child, step := v.members[i].value, SegText(Key(v.members[i].key));
      assert v.members[i] in v.members;
    } else {
      var i := ElemOfShape(v.elems, path, skip, e);
      child, step := v.elems[i], "[]";
    }
  }

  /** Every entry below a value carries the value's own path in front. */
  lemma {:induction false} EntriesAreEnclosed(v: Json, path: string, skip: set<string>, e: Entry)
    requires e in Shape(v, path, skip)
    ensures Encloses(path, e.path)
    ensures e in ShapeBelow(v, path, skip) && path !in skip ==> |path| < |e.path|
    decreases v
  {
    if path !in skip && e in ShapeBelow(v, path, skip) {
      var child, step := ChildOfShape(v, path, skip, e);
      EntriesAreEnclosed(child, path + step, skip, e);
      assert (path + step)[..|path|] == path && (path + step)[|path|] == step[0];
      assert e.path[..|path + step|] == path + step;
      assert e.path[..|path|] == path;
    }
  }

  /** The root of a value contributes exactly its own type. */
  lemma RootEntry(v: Json, path: string, kind: JsonType)
    ensures Entry(path, kind) in Shape(v, path, {}) <==> kind == TypeOf(v)
  {
    if Entry(path, kind) in ShapeBelow(v, path, {}) {
      EntriesAreEnclosed(v, path, {}, Entry(path, kind));
    }
  }

  // ----- Soundness -----

  predicate AllKeys(segs: seq<Seg>) {
    forall i :: 0 <= i < |segs| ==> segs[i].Key? && CleanKey(segs[i].key)
  }

  predicate NoSeparator(s: string) {
    forall i :: 0 <= i < |s| ==> !Separator(s[i])
  }

  lemma EnclosesChars(q: string, p: string)
    requires Encloses(q, p)
    ensures |q| <= |p| && forall i :: 0 <= i < |q| ==> q[i] == p[i]
  {
  }

  /** Two keys that are cut off at the next separator of the same text are the same key. */
  lemma SameKey(a: string, b: string, p: string)
    requires NoSeparator(a) && NoSeparator(b) && Encloses(a, p) && Encloses(b, p)
    ensures a == b
  {
    EnclosesChars(a, p);
    EnclosesChars(b, p);
    assert |a| == |b|;
  }

  lemma EnclosesDrop(q: string, p: string, s: string)
    requires Encloses(q + s, p)
    ensures Encloses(s, p[|q|..])
  {
    assert p[..|q + s|] == q + s;
    assert p[|q|..][..|s|] == s;
  }

  lemma SegsTextStarts(segs: seq<Seg>)
    ensures segs == [] ==> SegsText(segs) == ""
    ensures segs != [] ==> SegsText(segs) != "" && Separator(SegsText(segs)[0])
  {
  }

  /** The child that accounts for an entry behind a key is the value under that key. */
  lemma ChildBehindKey(v: Json, path: string, child: Json, step: string, key: string, rest: string)
    requires Clean(v) && IsChild(v, child, step) && CleanKey(key) && (rest != "" ==> Separator(rest[0]))
    requires Encloses(path + step, path + SegText(Key(key)) + rest)
    ensures v.Obj? && Lookup(v.members, key) == Some(child) && step == SegText(Key(key))
  {
    var tail := SegText(Key(key)) + rest;
    assert (path + SegText(Key(key)) + rest)[|path|..] == tail;
    EnclosesDrop(path, path + SegText(Key(key)) + rest, step);
    StepIsKey(v, child, step, key, rest);
  }

  lemma StepIsKey(v: Json, child: Json, step: string, key: string, rest: string)
    requires Clean(v) && IsChild(v, child, step) && CleanKey(key) && (rest != "" ==> Separator(rest[0]))
    requires Encloses(step, SegText(Key(key)) + rest)
    ensures v.Obj? && Lookup(v.members, key) == Some(child) && step == SegText(Key(key))
  {
    EnclosesChars(step, SegText(Key(key)) + rest);
    assert (SegText(Key(key)) + rest)[0] == '.';
    assert step[0] == '.';
    var i :| 0 <= i < |v.members| && v.members[i].value == child && step == SegText(Key(v.members[i].key));
    DottedKeysAgree(v.members[i].key, key, rest);
    LookupAt(v.members, i);
  }

  lemma DottedKeysAgree(own: string, key: string, rest: string)
    requires NoSeparator(own) && NoSeparator(key) && (rest != "" ==> Separator(rest[0]))
    requires Encloses("." + own, "." + key + rest)
    ensures own == key
  {
    EnclosesDrop(".", "." + key + rest, own);
    assert ("." + key + rest)[|"."|..] == key + rest;
    assert Encloses(key, key + rest);
    SameKey(own, key, key + rest);
  }

  /** Descending one key in the shape is descending one key in the payload. */
  lemma KeyEntry(v: Json, path: string, key: string, rest: string, kind: JsonType)
    requires Clean(v) && CleanKey(key) && (rest != "" ==> Separator(rest[0]))
    ensures var e, below := Entry(path + SegText(Key(key)) + rest, kind), path + SegText(Key(key));
            e in Shape(v, path, {}) <==>
            v.Obj? && Lookup(v.members, key).Some? && e in Shape(Lookup(v.members, key).value, below, {})
  {
    var below := path + SegText(Key(key));
    var e := Entry(below + rest, kind);
    if e in Shape(v, path, {}) {
      assert e.path != path;
      var child, step := ChildOfShape(v, path, {}, e);
      EntriesAreEnclosed(child, path + step, {}, e);
      ChildBehindKey(v, path, child, step, key, rest);
    } else if v.Obj? && Lookup(v.members, key).Some? && e in Shape(Lookup(v.members, key).value, below, {}) {
      var i := LookupSource(v.members, key);
      ShapeOfMember(v.members, path, {}, e, i);
    }
  }

  // ----- The whole fingerprint -----

  function ErasedStep(seg: Seg): string {
    if seg.Key? then SegText(seg) else "[]"
  }

  /** A place as the fingerprint spells it: every index is the same. */
  function Erased(segs: seq<Seg>): string {
    if segs == [] then "" else ErasedStep(segs[0]) + Erased(segs[1..])
  }

  lemma ErasedSplits(path: string, seg: Seg, rest: seq<Seg>)
    ensures path + Erased([seg] + rest) == path + ErasedStep(seg) + Erased(rest)
  {
    assert ([seg] + rest)[1..] == rest;
  }

  lemma {:induction false} EntryComesFrom(v: Json, path: string, e: Entry) returns (segs: seq<Seg>)
    requires Clean(v) && e in Shape(v, path, {})
    ensures At(v, segs).Some? && e == Entry(path + Erased(segs), TypeOf(At(v, segs).value))
    decreases v
  {
    if e == Entry(path, TypeOf(v)) {
      segs := [];
      assert path + "" == path;
    } else {
      var child, step := ChildOfShape(v, path, {}, e);
      var rest := EntryComesFrom(child, path + step, e);
      var seg: Seg;
      if v.Obj? {
        var i :| 0 <= i < |v.members| && v.members[i].value == child && step == SegText(Key(v.members[i].key));
        LookupAt(v.members, i);
        seg := Key(v.members[i].key);
      } else {
        var i :| 0 <= i < |v.elems| && v.elems[i] == child;
        seg := Idx(i);
      }
      segs := [seg] + rest;
      assert segs[1..] == rest;
      ErasedSplits(path, seg, rest);
    }
  }

  lemma {:induction false} PlaceIsEntered(v: Json, path: string, segs: seq<Seg>)
    requires Clean(v) && At(v, segs).Some?
    ensures Entry(path + Erased(segs), TypeOf(At(v, segs).value)) in Shape(v, path, {})
    decreases |segs|
  {
    if segs == [] {
      assert path + "" == path;
    } else {
      var e := Entry(path + Erased(segs), TypeOf(At(v, segs).value));
      var step := ErasedStep(segs[0]);
      ErasedSplits(path, segs[0], segs[1..]);
      assert segs == [segs[0]] + segs[1..];
      if v.Obj? {
        var i := LookupSource(v.members, segs[0].key);
        PlaceIsEntered(v.members[i].value, path + step, segs[1..]);
        ShapeOfMember(v.members, path, {}, e, i);
      } else {
        PlaceIsEntered(v.elems[segs[0].index], path + step, segs[1..]);
        ShapeOfElem(v.elems, path, {}, e, segs[0].index);
      }
    }
  }

  /** The fingerprint is the set of the places of a payload, each with its type and with the indices left out, and
      nothing else. */
  lemma FingerprintIs(payload: Json, e: Entry)
    requires Clean(payload)
    ensures e in FingerprintOf(payload, {}) <==>
            exists segs :: && At(payload, segs).Some?
                           && e == Entry("$" + Erased(segs), TypeOf(At(payload, segs).value))
  {
    if e in FingerprintOf(payload, {}) {
      var segs := EntryComesFrom(payload, "$", e);
    }
    if segs :| At(payload, segs).Some? && e == Entry("$" + Erased(segs), TypeOf(At(payload, segs).value)) {
      PlaceIsEntered(payload, "$", segs);
    }
  }

  // ----- Array-free paths -----

  /** The fingerprint records, for every array-free path, whether it is there and of which type. */
  lemma {:induction false} EntryIffAt(v: Json, path: string, segs: seq<Seg>, kind: JsonType)
    requires Clean(v) && AllKeys(segs)
    ensures Entry(path + SegsText(segs), kind) in Shape(v, path, {}) <==>
            At(v, segs).Some? && TypeOf(At(v, segs).value) == kind
    decreases |segs|
  {
    if segs == [] {
      assert path + "" == path;
      RootEntry(v, path, kind);
    } else {
      var key, rest := segs[0].key, segs[1..];
      SegsTextStarts(rest);
      PathGrows(path, segs);
      KeyEntry(v, path, key, SegsText(rest), kind);
      if v.Obj? && Lookup(v.members, key).Some? {
        var i := LookupSource(v.members, key);
        EntryIffAt(v.members[i].value, path + SegText(segs[0]), rest, kind);
      }
    }
  }

  predicate NoBrackets(path: string) {
    forall i :: 0 <= i < |path| ==> path[i] != '[' && path[i] != ']'
  }

  /** The keys that a bracket-free path string walks along. */
  function KeysOf(parts: seq<string>): seq<Seg> {
    if parts == [] then []
    else if parts[0] == "$" then KeysOf(parts[1..])
    else [Key(parts[0])] + KeysOf(parts[1..])
  }

  predicate PlainParts(parts: seq<string>) {
    forall i :: 0 <= i < |parts| ==> parts[i] != "" && NoBrackets(parts[i]) && NoSeparator(parts[i])
  }

  lemma {:induction false} BracketFreePathSplits(rest: string, current: string)
    requires NoBrackets(rest) && NoBrackets(current) && NoSeparator(current)
    ensures Segments(rest, current).Ok? && PlainParts(Segments(rest, current).value)
    decreases |rest|
  {
    if rest != "" {
      if rest[0] == '.' {
        BracketFreePathSplits(rest[1..], "");
      } else {
        BracketFreePathSplits(rest[1..], current + [rest[0]]);
      }
    }
  }

  lemma {:induction false} PlainPartsWalkKeys(v: Json, parts: seq<string>)
    requires PlainParts(parts)
    ensures AllKeys(KeysOf(parts))
    ensures ResolveFrom(v, parts) == Ok(Deref(v, KeysOf(parts)))
    decreases |parts|
  {
    if parts != [] {
      var rest := parts[1..];
      if parts[0] == "$" {
        PlainPartsWalkKeys(v, rest);
      } else {
        StepIntoKey(v, parts[0]);
        assert KeysOf(parts)[1..] == KeysOf(rest);
        PlainPartsWalkKeys(Get(if v.Obj? then v.members else [], parts[0]), rest);
      }
    }
    if v == Null {
      assert Deref(v, KeysOf(parts)) == Null;
    }
  }

  lemma BracketFreeResolve(v: Json, path: string) returns (segs: seq<Seg>)
    requires NoBrackets(path) && path != ""
    ensures AllKeys(segs) && Resolve(v, path) == Ok(Deref(v, segs))
    ensures segs == KeysOf(PathSegments(path).value) && PathSegments(path).Ok?
  {
    BracketFreePathSplits(WithoutRoot(path), "");
    var parts := PathSegments(path).value;
    segs := KeysOf(parts);
    PlainPartsWalkKeys(v, parts);
  }

  /** Fingerprint soundness: when two clean payloads have the same fingerprint, every bracket-free path string
      resolves in both without raising, and to values of the same kind; a path that leads nowhere in one leads
      nowhere in the other. */
  lemma SameFingerprintSamePaths(a: Json, b: Json, path: string)
    requires Clean(a) && Clean(b) && FingerprintOf(a, {}) == FingerprintOf(b, {}) && NoBrackets(path)
    ensures Resolve(a, path).Ok? && Resolve(b, path).Ok?
    ensures SameKind(Resolve(a, path).value, Resolve(b, path).value)
  {
    if path != "" {
      var segs := BracketFreeResolve(a, path);
      var segs' := BracketFreeResolve(b, path);
      assert segs == segs';
      SameFingerprintSamePlaces(a, b, segs);
    }
  }

  lemma SameFingerprintSamePlaces(a: Json, b: Json, segs: seq<Seg>)
    requires Clean(a) && Clean(b) && FingerprintOf(a, {}) == FingerprintOf(b, {}) && AllKeys(segs)
    ensures At(a, segs).Some? <==> At(b, segs).Some?
    ensures At(a, segs).Some? ==> SameKind(At(a, segs).value, At(b, segs).value)
  {
    if At(a, segs).Some? {
      EntryIffAt(a, "$", segs, TypeOf(At(a, segs).value));
      EntryIffAt(b, "$", segs, TypeOf(At(a, segs).value));
    }
    if At(b, segs).Some? {
      EntryIffAt(a, "$", segs, TypeOf(At(b, segs).value));
      EntryIffAt(b, "$", segs, TypeOf(At(b, segs).value));
    }
  }

  /** The other way round: clean payloads that hold values of different kinds under a bracket-free path, or a value and
      nothing, have different fingerprints. */
  lemma DifferentKindsDiffer(a: Json, b: Json, path: string)
    requires Clean(a) && Clean(b) && NoBrackets(path) && Resolve(a, path).Ok? && Resolve(b, path).Ok?
    requires !SameKind(Resolve(a, path).value, Resolve(b, path).value)
    ensures FingerprintOf(a, {}) != FingerprintOf(b, {})
  {
    if FingerprintOf(a, {}) == FingerprintOf(b, {}) {
      SameFingerprintSamePaths(a, b, path);
    }
  }

  /** A number and a string that spells it are told apart. */
  lemma NumberIsNoString(key: string, text: string, zero: bool)
    requires CleanKey(key)
    ensures FingerprintOf(Obj([Member(key, Num(text, zero))]), {}) != FingerprintOf(Obj([Member(key, Str(text))]), {})
  {
    var a, b := Obj([Member(key, Num(text, zero))]), Obj([Member(key, Str(text))]);
    var e := Entry("$" + SegText(Key(key)), TypeOf(Num(text, zero)));
    OneMemberShape(key, Num(text, zero), "$");
    OneMemberShape(key, Str(text), "$");
    assert e in Shape(a, "$", {}) && e !in Shape(b, "$", {});
  }

  /** A key that holds a dot breaks this: these two payloads have one fingerprint, yet `$.a.b` is a number in
      one and missing from the other. */
  lemma DottedKeysCollide()
    ensures var a := Obj([Member("a", Obj([])), Member("a.b", Num("1", false))]);
            var b := Obj([Member("a", Obj([Member("b", Num("1", false))]))]);
            && FingerprintOf(a, {}) == FingerprintOf(b, {})
            && At(a, [Key("a"), Key("b")]).None? && At(b, [Key("a"), Key("b")]).Some?
  {
    var one := Num("1", false);
    assert "$" + ("." + "a") == "$.a" && "$" + ("." + "a.b") == "$.a.b" && "$.a" + ("." + "b") == "$.a.b";
    OneMemberShape("b", one, "$.a");
    OneMemberShape("a", Obj([Member("b", one)]), "$");
    OneMemberShape("a.b", one, "$");
    var ms := [Member("a", Obj([])), Member("a.b", one)];
    assert ms[1..] == [Member("a.b", one)];
    assert Shape(Obj([]), "$.a", {}) == {Entry("$.a", ObjectType)};
    assert ShapeOfMembers(ms, "$", {}) == {Entry("$.a", ObjectType)} + ShapeOfMembers(ms[1..], "$", {});
    assert ShapeBelow(one, "$.a.b", {}) == {};
    assert [Key("a"), Key("b")][1..] == [Key("b")];
    assert [Key("b")][1..] == [];
  }

  lemma OneMemberShape(key: string, v: Json, path: string)
    ensures ShapeOfMembers([Member(key, v)], path, {}) == Shape(v, path + SegText(Key(key)), {})
    ensures Shape(Obj([Member(key, v)]), path, {}) == {Entry(path, ObjectType)} + Shape(v, path + SegText(Key(key)), {})
  {
    assert [Member(key, v)][1..] == [];
  }

  // ----- What the fingerprint does not see -----

  function Width(v: Json): nat {
    match v
    case Obj(members) => |members|
    case Arr(elems) => |elems|
    case _ => 0
  }

  function ChildAt(v: Json, i: nat): (child: Json)
    requires i < Width(v)
    ensures child < v
  {
    if v.Obj? then
      assert v.members[i] in v.members;
      v.members[i].value
    else v.elems[i]
  }

  /** What the walk appends on its way to a child. */
  function StepAt(v: Json, i: nat): string
    requires i < Width(v)
  {
    if v.Obj? then SegText(Key(v.members[i].key)) else "[]"
  }

  /** The same up to the order and number of array elements, the order of keys, and the values of leaves. */
  predicate Alike(a: Json, b: Json)
    decreases a, 2
  {
    && TypeOf(a) == TypeOf(b)
    && (forall i :: 0 <= i < Width(a) ==> HasPartner(a, b, i))
    && (forall j :: 0 <= j < Width(b) ==> IsPartner(a, b, j))
  }

  predicate HasPartner(a: Json, b: Json, i: nat)
    requires i < Width(a)
    decreases a, 1
  {
    exists j :: 0 <= j < Width(b) && Partners(a, b, i, j)
  }

  predicate IsPartner(a: Json, b: Json, j: nat)
    requires j < Width(b)
    decreases a, 1
  {
    exists i :: 0 <= i < Width(a) && Partners(a, b, i, j)
  }

  predicate Partners(a: Json, b: Json, i: nat, j: nat)
    requires i < Width(a) && j < Width(b)
    decreases a, 0
  {
    StepAt(a, i) == StepAt(b, j) && Alike(ChildAt(a, i), ChildAt(b, j))
  }

  lemma ShapeOfChildAt(v: Json, path: string, skip: set<string>, i: nat, e: Entry)
    requires path !in skip && i < Width(v) && e in Shape(ChildAt(v, i), path + StepAt(v, i), skip)
    ensures e in Shape(v, path, skip)
  {
    if v.Obj? {
      ShapeOfMember(v.members, path, skip, e, i);
    } else {
      ShapeOfElem(v.elems, path, skip, e, i);
    }
  }

  lemma ChildAtOfShape(v: Json, path: string, skip: set<string>, e: Entry) returns (i: nat)
    requires e in ShapeBelow(v, path, skip)
    ensures i < Width(v) && e in Shape(ChildAt(v, i), path + StepAt(v, i), skip)
  {
    if v.Obj? {
      i := MemberOfShape(v.members, path, skip, e);
    } else {
      i := ElemOfShape(v.elems, path, skip, e);
    }
  }

  lemma {:induction false} AlikeShape(a: Json, b: Json, path: string, skip: set<string>, e: Entry)
    requires Alike(a, b)
    ensures e in Shape(a, path, skip) <==> e in Shape(b, path, skip)
    decreases a
  {
    if path !in skip {
      if e in ShapeBelow(a, path, skip) {
        var i := ChildAtOfShape(a, path, skip, e);
        assert HasPartner(a, b, i);
        var j :| 0 <= j < Width(b) && Partners(a, b, i, j);
        AlikeShape(ChildAt(a, i), ChildAt(b, j), path + StepAt(a, i), skip, e);
        ShapeOfChildAt(b, path, skip, j, e);
      }
      if e in ShapeBelow(b, path, skip) {
        var j := ChildAtOfShape(b, path, skip, e);
        assert IsPartner(a, b, j);
        var i :| 0 <= i < Width(a) && Partners(a, b, i, j);
        AlikeShape(ChildAt(a, i), ChildAt(b, j), path + StepAt(a, i), skip, e);
        ShapeOfChildAt(a, path, skip, i, e);
      }
    }
  }

  /** Shape algebra: reordering keys, permuting or repeating array elements and replacing leaves by leaves of the
      same type, anywhere in a payload, leave its fingerprint as it is, whatever the map paths. */
  lemma AlikeKeepsFingerprint(a: Json, b: Json, mapPaths: set<string>)
    requires Alike(a, b)
    ensures FingerprintOf(a, mapPaths) == FingerprintOf(b, mapPaths)
  {
    forall e
      ensures e in FingerprintOf(a, mapPaths) <==> e in FingerprintOf(b, mapPaths)
    {
      AlikeShape(a, b, "$", mapPaths, e);
    }
  }

  lemma {:induction false} AlikeToItself(v: Json)
    ensures Alike(v, v)
    decreases v
  {
    forall i | 0 <= i < Width(v)
      ensures Partners(v, v, i, i)
    {
      AlikeToItself(ChildAt(v, i));
    }
    assert forall i :: 0 <= i < Width(v) ==> Partners(v, v, i, i) ==> HasPartner(v, v, i) && IsPartner(v, v, i);
  }

  predicate SameChild(a: Json, b: Json, i: nat)
    requires i < Width(a)
  {
    exists j :: 0 <= j < Width(b) && StepAt(a, i) == StepAt(b, j) && ChildAt(a, i) == ChildAt(b, j)
  }

  /** Values of one type whose children are the same, under the same steps, are alike: arrays whatever the order
      and number of their elements, objects whatever the order of their keys. */
  lemma SameChildrenAreAlike(a: Json, b: Json)
    requires TypeOf(a) == TypeOf(b)
    requires forall i :: 0 <= i < Width(a) ==> SameChild(a, b, i)
    requires forall j :: 0 <= j < Width(b) ==> SameChild(b, a, j)
    ensures Alike(a, b)
  {
    forall i | 0 <= i < Width(a)
      ensures HasPartner(a, b, i)
    {
      assert SameChild(a, b, i);
      var j :| 0 <= j < Width(b) && StepAt(a, i) == StepAt(b, j) && ChildAt(a, i) == ChildAt(b, j);
      AlikeToItself(ChildAt(a, i));
      assert Partners(a, b, i, j);
    }
    forall j | 0 <= j < Width(b)
      ensures IsPartner(a, b, j)
    {
      assert SameChild(b, a, j);
      var i :| 0 <= i < Width(a) && StepAt(b, j) == StepAt(a, i) && ChildAt(b, j) == ChildAt(a, i);
      AlikeToItself(ChildAt(a, i));
      assert Partners(a, b, i, j);
    }
  }

  // ----- Map paths -----

  /** No skipped path strictly encloses `p` at or below `path`. */
  ghost predicate Visible(p: string, path: string, skip: set<string>) {
    forall q :: q in skip && Encloses(q, p) && |path| <= |q| ==> |q| == |p|
  }

  /** What an entry of the skipping fingerprint says, in terms of the plain one. */
  ghost predicate Explained(shape: set<Entry>, path: string, skip: set<string>, e: Entry) {
    && Visible(e.path, path, skip)
    && if e.path in skip then e.kind == MapType && exists kind :: Entry(e.path, kind) in shape else e in shape
  }

  predicate CleanStepText(step: string) {
    step == "[]" || (step != "" && step[0] == '.' && NoSeparator(step[1..]))
  }

  lemma StepHasNoInnerSeparator(path: string, step: string)
    requires CleanStepText(step)
    ensures forall i :: |path| < i < |path + step| ==> !Separator((path + step)[i])
  {
    forall i | |path| < i < |path + step|
      ensures !Separator((path + step)[i])
    {
      assert (path + step)[i] == step[1..][i - |path| - 1];
    }
  }

  /** Between a clean child's path and its parent's there is no other enclosing path. */
  lemma StepIsWhole(path: string, step: string, p: string, q: string)
    requires CleanStepText(step)
    requires Encloses(path + step, p) && Encloses(q, p) && |path| <= |q| < |path + step|
    ensures q == path
  {
    EnclosesChars(path + step, p);
    EnclosesChars(q, p);
    StepHasNoInnerSeparator(path, step);
    assert (path + step)[|q|] == p[|q|];
    assert |q| == |path|;
    assert forall i :: 0 <= i < |q| ==> q[i] == (path + step)[i];
  }

  lemma ExplainedInChild(
    shape: set<Entry>, below: set<Entry>, path: string, step: string, skip: set<string>, e: Entry)
    requires CleanStepText(step)
    requires path !in skip && Encloses(path + step, e.path)
    requires forall kind :: Entry(e.path, kind) in below ==> Entry(e.path, kind) in shape
    requires Explained(below, path + step, skip, e)
    ensures Explained(shape, path, skip, e)
  {
    forall q | q in skip && Encloses(q, e.path) && |path| <= |q|
      ensures |q| == |e.path|
    {
      if |q| < |path + step| {
        StepIsWhole(path, step, e.path, q);
      }
    }
    if e.path in skip {
      var kind :| Entry(e.path, kind) in below;
    } else {
      assert Entry(e.path, e.kind) in below;
    }
  }

  lemma CleanStep(v: Json, child: Json, step: string)
    requires Clean(v)
    requires IsChild(v, child, step)
    ensures CleanStepText(step)
  {
    if v.Obj? {
      var i :| 0 <= i < |v.members| && v.members[i].value == child && step == SegText(Key(v.members[i].key));
      assert step[1..] == v.members[i].key;
    }
  }

  lemma ShapeOfChild(v: Json, path: string, skip: set<string>, child: Json, step: string, e: Entry)
    requires path !in skip && e in Shape(child, path + step, skip)
    requires IsChild(v, child, step)
    ensures e in Shape(v, path, skip)
  {
    if v.Arr? {
      var i :| 0 <= i < |v.elems| && v.elems[i] == child;
      ShapeOfElem(v.elems, path, skip, e, i);
    } else {
      var i :| 0 <= i < |v.members| && v.members[i].value == child && step == SegText(Key(v.members[i].key));
      ShapeOfMember(v.members, path, skip, e, i);
    }
  }

  /** The skipping fingerprint of a clean value is a function of its plain one. */
  lemma {:induction false} SkippingShapeIsExplained(v: Json, path: string, skip: set<string>, e: Entry)
    requires Clean(v)
    ensures e in Shape(v, path, skip) <==> Explained(Shape(v, path, {}), path, skip, e)
    decreases v
  {
    var shape := Shape(v, path, {});
    if path in skip {
      SkippedRoot(v, path, skip, e);
    } else {
      if e in ShapeBelow(v, path, skip) {
        var child, step := ChildOfShape(v, path, skip, e);
        ShapeOfChildren(v, path, {}, child, step);
        SkippingShapeIsExplained(child, path + step, skip, e);
        EntriesAreEnclosed(child, path + step, skip, e);
        CleanStep(v, child, step);
        ExplainedInChild(shape, Shape(child, path + step, {}), path, step, skip, e);
      } else if e == Entry(path, TypeOf(v)) {
        assert Visible(e.path, path, skip);
      }
      if Explained(shape, path, skip, e) && e.path != path {
        var kind :| Entry(e.path, kind) in shape && (e.path !in skip ==> kind == e.kind);
        var plain := Entry(e.path, kind);
        var child, step := ChildOfShape(v, path, {}, plain);
        EntriesAreEnclosed(child, path + step, {}, plain);
        assert Visible(e.path, path + step, skip);
        assert Explained(Shape(child, path + step, {}), path + step, skip, e);
        SkippingShapeIsExplained(child, path + step, skip, e);
        ShapeOfChild(v, path, skip, child, step, e);
      } else if Explained(shape, path, skip, e) {
        RootEntry(v, path, e.kind);
      }
    }
  }

  lemma ShapeOfChildren(v: Json, path: string, skip: set<string>, child: Json, step: string)
    requires path !in skip && IsChild(v, child, step)
    ensures forall e :: e in Shape(child, path + step, skip) ==> e in Shape(v, path, skip)
  {
    forall e | e in Shape(child, path + step, skip)
      ensures e in Shape(v, path, skip)
    {
      ShapeOfChild(v, path, skip, child, step, e);
    }
  }

  lemma SkippedRoot(v: Json, path: string, skip: set<string>, e: Entry)
    requires path in skip
    ensures e in Shape(v, path, skip) <==> Explained(Shape(v, path, {}), path, skip, e)
  {
    var shape := Shape(v, path, {});
    if e == Entry(path, MapType) {
      assert Entry(path, TypeOf(v)) in shape;
      assert Visible(path, path, skip);
    }
    if Explained(shape, path, skip, e) {
      var kind :| Entry(e.path, kind) in shape;
      EntriesAreEnclosed(v, path, {}, Entry(e.path, kind));
      assert |path| == |e.path|;
    }
  }

  /** For clean payloads, equal fingerprints stay equal whatever subtrees are later declared to be maps. */
  lemma EqualityIsKeptByMapPaths(a: Json, b: Json, mapPaths: set<string>)
    requires Clean(a) && Clean(b) && FingerprintOf(a, {}) == FingerprintOf(b, {})
    ensures FingerprintOf(a, mapPaths) == FingerprintOf(b, mapPaths)
  {
    forall e
      ensures e in FingerprintOf(a, mapPaths) <==> e in FingerprintOf(b, mapPaths)
    {
      SkippingShapeIsExplained(a, "$", mapPaths, e);
      SkippingShapeIsExplained(b, "$", mapPaths, e);
    }
  }
}
