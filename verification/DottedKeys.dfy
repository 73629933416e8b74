/** What a fingerprint promises about payloads whose keys may hold dots and brackets: exactly which clean payloads
    cannot be confused with any other. */
module DottedKeys {
  import opened Prelude
  import opened Json
  import opened Paths
  import opened Discovery
  import opened Fingerprint

  /** A value as `json.loads` returns it: no object repeats a key. */
  predicate KeyedOnce(v: Json)
    decreases v
  {
    match v
    case Obj(members) =>
      DistinctKeys(members) && forall i :: 0 <= i < |members| ==> KeyedOnce(members[i].value)
    case Arr(elems) => forall i :: 0 <= i < |elems| ==> KeyedOnce(elems[i])
    case _ => true
  }

  /** Every path of keys leads to values of one kind in both, or nowhere in both. */
  ghost predicate SamePlaces(a: Json, b: Json) {
    forall segs :: AllKeys(segs) ==>
      && (At(a, segs).Some? <==> At(b, segs).Some?)
      && (At(a, segs).Some? ==> SameKind(At(a, segs).value, At(b, segs).value))
  }

  /** No payload of the same fingerprint differs from `a` in a path of keys. */
  ghost predicate Unmistakable(a: Json) {
    forall b :: KeyedOnce(b) && FingerprintOf(b, {}) == FingerprintOf(a, {}) ==> SamePlaces(a, b)
  }

  /** No object sits non-empty directly inside the outermost object. */
  predicate Shallow(a: Json) {
    a.Obj? ==> forall i :: 0 <= i < |a.members| && a.members[i].value.Obj? ==> a.members[i].value.members == []
  }

  lemma {:induction false} CleanIsKeyedOnce(v: Json)
    requires Clean(v)
    ensures KeyedOnce(v)
    decreases v
  {
    match v {
      case Obj(members) =>
        forall i | 0 <= i < |members|
          ensures KeyedOnce(members[i].value)
        {
          assert members[i] in members;
          CleanIsKeyedOnce(members[i].value);
        }
      case Arr(elems) =>
        forall i | 0 <= i < |elems|
          ensures KeyedOnce(elems[i])
        {
          CleanIsKeyedOnce(elems[i]);
        }
      case _ =>
    }
  }

  // ----- Shallow payloads -----

  /** The entry of a key right under the root comes from a member with that key. */
  lemma TopEntry(v: Json, key: string, kind: JsonType) returns (i: nat)
    requires CleanKey(key) && Entry("$." + key, kind) in Shape(v, "$", {})
    ensures v.Obj? && i < |v.members| && v.members[i].key == key && TypeOf(v.members[i].value) == kind
  {
    var e := Entry("$." + key, kind);
    assert |e.path| > 1;
    var child, step := ChildOfShape(v, "$", {}, e);
    EntriesAreEnclosed(child, "$" + step, {}, e);
    EnclosesDrop("$", "$." + key, step);
    assert ("$." + key)[|"$"|..] == "." + key;
    EnclosesChars(step, "." + key);
    assert step[0] == ("." + key)[0] == '.';
    i :| 0 <= i < |v.members| && v.members[i].value == child && step == SegText(Key(v.members[i].key));
    OwnKey(v.members[i].key, key);
    assert "$" + ("." + key) == "$." + key;
    RootEntry(child, "$." + key, kind);
  }

  /** A key that is cut off at a separator of a clean key is that key. */
  lemma OwnKey(own: string, key: string)
    requires CleanKey(key) && Encloses("." + own, "." + key)
    ensures own == key
  {
    EnclosesChars("." + own, "." + key);
    assert forall i :: 0 <= i < |own| ==> ("." + own)[i + 1] == own[i];
    assert forall i :: 0 <= i < |key| ==> ("." + key)[i + 1] == key[i];
    assert |own| == |key|;
  }

  /** A member of a member has its entry. */
  lemma SecondEntry(v: Json, segs: seq<Seg>) returns (e: Entry)
    requires AllKeys(segs) && |segs| >= 2 && At(v, segs).Some?
    ensures e in Shape(v, "$", {}) && e.path == "$" + SegText(segs[0]) + SegText(segs[1])
  {
    var i := LookupSource(v.members, segs[0].key);
    var inner := v.members[i].value;
    assert At(inner, segs[1..]).Some? && segs[1..][0] == segs[1];
    var j := LookupSource(inner.members, segs[1].key);
    var path := "$" + SegText(segs[0]);
    e := Entry(path + SegText(segs[1]), TypeOf(inner.members[j].value));
    RootEntry(inner.members[j].value, path + SegText(segs[1]), e.kind);
    ShapeOfMember(inner.members, path, {}, e, j);
    ShapeOfMember(v.members, "$", {}, e, i);
  }

  lemma ShallowEndsEarly(a: Json, segs: seq<Seg>)
    requires Shallow(a) && |segs| >= 2 && AllKeys(segs)
    ensures At(a, segs).None?
  {
    if a.Obj? && Lookup(a.members, segs[0].key).Some? {
      var i := LookupSource(a.members, segs[0].key);
      assert segs[1..][0] == segs[1];
    }
  }

  lemma PathOfTwo(path: string, first: Seg, second: Seg)
    ensures path + SegsText([first, second]) == path + SegText(first) + SegText(second)
  {
    SegsTextCons(path, first, [second]);
    SegsTextCons(path + SegText(first), second, []);
    assert [first] + [second] == [first, second] && [second] + [] == [second];
  }

  lemma ShallowSecondEntry(a: Json, first: Seg, second: Seg, e: Entry)
    requires Clean(a) && Shallow(a) && AllKeys([first, second])
    requires e.path == "$" + SegText(first) + SegText(second)
    ensures e !in Shape(a, "$", {})
  {
    PathOfTwo("$", first, second);
    EntryIffAt(a, "$", [first, second], e.kind);
    ShallowEndsEarly(a, [first, second]);
  }

  lemma TopMember(v: Json, key: string)
    requires v.Obj? && Lookup(v.members, key).Some?
    ensures Entry("$." + key, TypeOf(Lookup(v.members, key).value)) in Shape(v, "$", {})
  {
    var i := LookupSource(v.members, key);
    var kind := TypeOf(v.members[i].value);
    assert "$" + SegText(Key(key)) == "$." + key;
    RootEntry(v.members[i].value, "$." + key, kind);
    ShapeOfMember(v.members, "$", {}, Entry("$." + key, kind), i);
  }

  lemma TopSame(a: Json, b: Json, key: string)
    requires KeyedOnce(a) && FingerprintOf(b, {}) == FingerprintOf(a, {}) && CleanKey(key)
    requires b.Obj? && Lookup(b.members, key).Some?
    ensures a.Obj? && Lookup(a.members, key).Some?
    ensures TypeOf(Lookup(a.members, key).value) == TypeOf(Lookup(b.members, key).value)
  {
    TopMember(b, key);
    var i := TopEntry(a, key, TypeOf(Lookup(b.members, key).value));
    LookupAt(a.members, i);
  }

  /** A shallow clean payload agrees with every payload of its fingerprint. */
  lemma ShallowIsSafe(a: Json, b: Json, segs: seq<Seg>)
    requires Clean(a) && Shallow(a) && KeyedOnce(b) && FingerprintOf(b, {}) == FingerprintOf(a, {}) && AllKeys(segs)
    ensures At(a, segs).Some? <==> At(b, segs).Some?
    ensures At(a, segs).Some? ==> SameKind(At(a, segs).value, At(b, segs).value)
  {
    CleanIsKeyedOnce(a);
    if segs == [] {
      RootEntry(a, "$", TypeOf(a));
      RootEntry(b, "$", TypeOf(a));
    } else if |segs| == 1 {
      assert segs[1..] == [];
      if b.Obj? && Lookup(b.members, segs[0].key).Some? {
        TopSame(a, b, segs[0].key);
      }
      if a.Obj? && Lookup(a.members, segs[0].key).Some? {
        TopSame(b, a, segs[0].key);
      }
    } else {
      ShallowEndsEarly(a, segs);
      if At(b, segs).Some? {
        var e := SecondEntry(b, segs);
        ShallowSecondEntry(a, segs[0], segs[1], e);
      }
    }
  }

  // ----- All others -----

  /** The payload with the first member of the object under member `i` moved up, under both keys joined by a dot. */
  function MovedUp(members: seq<Member>, i: nat): seq<Member>
    requires i < |members| && members[i].value.Obj? && members[i].value.members != []
  {
    var inner := members[i].value.members;
    members[i := Member(members[i].key, Obj(inner[1..]))]
    + [Member(members[i].key + "." + inner[0].key, inner[0].value)]
  }

  ghost predicate InMembers(members: seq<Member>, path: string, e: Entry) {
    exists i :: 0 <= i < |members| && e in Shape(members[i].value, path + SegText(Key(members[i].key)), {})
  }

  lemma MembersIff(members: seq<Member>, path: string, e: Entry)
    ensures e in ShapeOfMembers(members, path, {}) <==> InMembers(members, path, e)
  {
    if e in ShapeOfMembers(members, path, {}) {
      var i := MemberOfShape(members, path, {}, e);
    }
    if InMembers(members, path, e) {
      var i :| 0 <= i < |members| && e in Shape(members[i].value, path + SegText(Key(members[i].key)), {});
      ShapeOfMember(members, path, {}, e, i);
    }
  }

  lemma ShapeOfObject(members: seq<Member>, path: string)
    ensures Shape(Obj(members), path, {}) == {Entry(path, ObjectType)} + ShapeOfMembers(members, path, {})
  {
    assert ShapeBelow(Obj(members), path, {}) == ShapeOfMembers(members, path, {});
  }

  /** Taking the first member out of an object takes its shape out, and nothing else. */
  lemma WithoutFirst(inner: seq<Member>, path: string)
    requires inner != []
    ensures Shape(Obj(inner), path, {}) ==
            Shape(Obj(inner[1..]), path, {}) + Shape(inner[0].value, path + SegText(Key(inner[0].key)), {})
  {
    ShapeOfObject(inner, path);
    ShapeOfObject(inner[1..], path);
  }

  lemma Joined(root: string, dot: string, outer: string, inner: string)
    ensures root + (dot + outer) + (dot + inner) == root + (dot + (outer + dot + inner))
  {
    Regroup(root, dot + outer, dot + inner);
    Regroup(dot, outer, dot + inner);
    Regroup(outer, dot, inner);
  }

  lemma MovedUpPath(outer: string, inner: string)
    ensures "$" + SegText(Key(outer)) + SegText(Key(inner)) == "$" + SegText(Key(outer + "." + inner))
  {
    Joined("$", ".", outer, inner);
  }

  lemma MovedUpEntry(members: seq<Member>, i: nat, e: Entry)
    requires i < |members| && members[i].value.Obj? && members[i].value.members != []
    ensures InMembers(members, "$", e) <==> InMembers(MovedUp(members, i), "$", e)
  {
    var inner, moved := members[i].value.members, MovedUp(members, i);
    var path := "$" + SegText(Key(members[i].key));
    WithoutFirst(inner, path);
    MovedUpPath(members[i].key, inner[0].key);
    assert moved[i] == Member(members[i].key, Obj(inner[1..]));
    assert moved[|members|] == Member(members[i].key + "." + inner[0].key, inner[0].value);
    if InMembers(members, "$", e) {
      var j :| 0 <= j < |members| && e in Shape(members[j].value, "$" + SegText(Key(members[j].key)), {});
      if j != i {
        assert moved[j] == members[j];
      } else if e in Shape(Obj(inner[1..]), path, {}) {
        assert e in Shape(moved[i].value, "$" + SegText(Key(moved[i].key)), {});
      } else {
        assert e in Shape(moved[|members|].value, "$" + SegText(Key(moved[|members|].key)), {});
      }
    }
    if InMembers(moved, "$", e) {
      var j :| 0 <= j < |moved| && e in Shape(moved[j].value, "$" + SegText(Key(moved[j].key)), {});
      if j != i && j < |members| {
        assert moved[j] == members[j];
      } else {
        assert e in Shape(members[i].value, path, {});
      }
    }
  }

  /** Moving a member up does not show in the fingerprint. */
  lemma MovedUpKeepsShape(members: seq<Member>, i: nat)
    requires i < |members| && members[i].value.Obj? && members[i].value.members != []
    ensures FingerprintOf(Obj(MovedUp(members, i)), {}) == FingerprintOf(Obj(members), {})
  {
    forall e
      ensures e in ShapeOfMembers(members, "$", {}) <==> e in ShapeOfMembers(MovedUp(members, i), "$", {})
    {
      MembersIff(members, "$", e);
      MembersIff(MovedUp(members, i), "$", e);
      MovedUpEntry(members, i, e);
    }
    ShapeOfObject(members, "$");
    ShapeOfObject(MovedUp(members, i), "$");
  }

  lemma DottedIsNew(outer: string, inner: string, key: string)
    requires CleanKey(key)
    ensures outer + "." + inner != key
  {
    assert (outer + "." + inner)[|outer|] == '.';
  }

  lemma MovedUpIsKeyedOnce(members: seq<Member>, i: nat)
    requires Clean(Obj(members))
    requires i < |members| && members[i].value.Obj? && members[i].value.members != []
    ensures DistinctKeys(MovedUp(members, i)) && KeyedOnce(Obj(MovedUp(members, i)))
  {
    var inner, moved := members[i].value.members, MovedUp(members, i);
    CleanIsKeyedOnce(Obj(members));
    assert KeyedOnce(members[i].value) && KeyedOnce(inner[0].value);
    assert KeyedOnce(Obj(inner[1..])) by {
      forall j | 0 <= j < |inner[1..]|
        ensures KeyedOnce(inner[1..][j].value)
      {
        assert inner[1..][j] == inner[j + 1];
      }
    }
    forall j | 0 <= j < |members|
      ensures moved[j].key == members[j].key && moved[j].key != moved[|members|].key && KeyedOnce(moved[j].value)
    {
      DottedIsNew(members[i].key, inner[0].key, members[j].key);
    }
  }

  lemma AtTwoKeys(v: Json, first: string, second: string)
    requires v.Obj? && Lookup(v.members, first).Some? && Lookup(v.members, first).value.Obj?
    ensures At(v, [Key(first), Key(second)]) == Lookup(Lookup(v.members, first).value.members, second)
  {
    assert [Key(first), Key(second)][1..] == [Key(second)] && [Key(second)][1..] == [];
    assert At(Lookup(v.members, first).value, [Key(second)]) ==
           Lookup(Lookup(v.members, first).value.members, second);
  }

  /** A payload with a member to move up is confused with the payload in which it is moved up. */
  lemma DeepIsUnsafe(a: Json, i: nat)
    requires Clean(a) && a.Obj?
    requires i < |a.members| && a.members[i].value.Obj? && a.members[i].value.members != []
    ensures var b := Obj(MovedUp(a.members, i));
            KeyedOnce(b) && FingerprintOf(b, {}) == FingerprintOf(a, {}) && !SamePlaces(a, b)
  {
    var inner, moved := a.members[i].value.members, MovedUp(a.members, i);
    var b, segs := Obj(moved), [Key(a.members[i].key), Key(inner[0].key)];
    MovedUpKeepsShape(a.members, i);
    MovedUpIsKeyedOnce(a.members, i);
    assert Clean(a.members[i].value);
    assert AllKeys(segs);
    LookupAt(a.members, i);
    LookupAt(inner, 0);
    AtTwoKeys(a, a.members[i].key, inner[0].key);
    LookupAt(moved, i);
    LookupFinds(inner[1..], inner[0].key);
    AtTwoKeys(b, a.members[i].key, inner[0].key);
  }

  /** Fingerprint soundness against payloads of any kind: a clean payload is confused with no other, whatever keys the
      other one has, exactly when no object sits non-empty directly inside it. */
  lemma UnmistakableIffShallow(a: Json)
    requires Clean(a)
    ensures Unmistakable(a) <==> Shallow(a)
  {
    if Shallow(a) {
      forall b | KeyedOnce(b) && FingerprintOf(b, {}) == FingerprintOf(a, {})
        ensures SamePlaces(a, b)
      {
        forall segs | AllKeys(segs)
          ensures At(a, segs).Some? <==> At(b, segs).Some?
          ensures At(a, segs).Some? ==> SameKind(At(a, segs).value, At(b, segs).value)
        {
          ShallowIsSafe(a, b, segs);
        }
      }
    } else {
      var i :| 0 <= i < |a.members| && a.members[i].value.Obj? && a.members[i].value.members != [];
      DeepIsUnsafe(a, i);
    }
  }
}
