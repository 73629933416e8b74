/** The adapter's path language: splitting a path string into segments and walking a payload along them,
    as loops and as functions, and what a printed structural path means to that walk. */
module Paths {
  import opened Prelude
  import opened Json
  import opened PyText

  // ----- Splitting -----

  /** The segments of the rest of a path, `current` being the segment under construction. */
  function Segments(rest: string, current: string): Result<seq<string>>
    decreases |rest|
  {
    if rest == "" then Ok(if current != "" then [current] else [])
    else if rest[0] == '.' then
      var later :- Segments(rest[1..], "");
      Ok(if current != "" then [current] + later else later)
    else if rest[0] == '[' then
      var close := IndexOf(rest, ']');
      if close.None? then Raised else Segments(rest[close.value + 1..], current + rest[..close.value + 1])
    else Segments(rest[1..], current + [rest[0]])
  }

  function WithoutRoot(path: string): string {
    if StartsWith(path, "$.") then path[2..] else if StartsWith(path, "$") then path[1..] else path
  }

  function PathSegments(path: string): Result<seq<string>> {
    Segments(WithoutRoot(path), "")
  }

  function After(segments: seq<string>, later: Result<seq<string>>): Result<seq<string>> {
    if later.Raised? then Raised else Ok(segments + later.value)
  }

  lemma AfterNothing(later: Result<seq<string>>)
    ensures After([], later) == later
  {
    if later.Ok? {
      assert [] + later.value == later.value;
    }
  }

  lemma AfterOneMore(segments: seq<string>, segment: string, later: Result<seq<string>>)
    ensures After(segments + [segment], later) == After(segments, After([segment], later))
  {
    if later.Ok? {
      assert segments + [segment] + later.value == segments + ([segment] + later.value);
    }
  }

  lemma SegmentsAtDot(text: string, i: nat, current: string)
    requires i < |text| && text[i] == '.'
    ensures Segments(text[i..], current) ==
            After(if current != "" then [current] else [], Segments(text[i + 1..], ""))
  {
    assert text[i..][1..] == text[i + 1..];
    AfterNothing(Segments(text[i + 1..], ""));
  }

  lemma SegmentsAtBracket(text: string, i: nat, current: string)
    requires i < |text| && text[i] == '['
    ensures var close := IndexOf(text[i..], ']');
            Segments(text[i..], current) ==
            if close.None? then Raised
            else Segments(text[i + close.value + 1..], current + text[i..i + close.value + 1])
  {
    var close := IndexOf(text[i..], ']');
    if close.Some? {
      assert text[i..][close.value + 1..] == text[i + close.value + 1..];
      assert text[i..][..close.value + 1] == text[i..i + close.value + 1];
    }
  }

  lemma SegmentsAtPlain(text: string, i: nat, current: string)
    requires i < |text| && text[i] != '.' && text[i] != '['
    ensures Segments(text[i..], current) == Segments(text[i + 1..], current + [text[i]])
  {
    assert text[i..][1..] == text[i + 1..];
  }

  function Ended(segments: seq<string>, current: string): seq<string> {
    if current != "" then segments + [current] else segments
  }

  /** The rest of a split, behind the finished segments and with the segment under construction. */
  function SplitFrom(segments: seq<string>, text: string, i: nat, current: string): Result<seq<string>>
    requires i <= |text|
  {
    After(segments, Segments(text[i..], current))
  }

  lemma DotStep(segments: seq<string>, text: string, i: nat, current: string)
    requires i < |text| && text[i] == '.'
    ensures SplitFrom(segments, text, i, current) == SplitFrom(Ended(segments, current), text, i + 1, "")
  {
    SegmentsAtDot(text, i, current);
    if current != "" {
      AfterOneMore(segments, current, Segments(text[i + 1..], ""));
    } else {
      AfterNothing(Segments(text[i + 1..], ""));
    }
  }

  lemma BracketStep(segments: seq<string>, text: string, i: nat, current: string)
    requires i < |text| && text[i] == '['
    ensures var close := IndexOf(text[i..], ']');
            SplitFrom(segments, text, i, current) ==
            if close.None? then Raised
            else SplitFrom(segments, text, i + close.value + 1, current + text[i..i + close.value + 1])
  {
    SegmentsAtBracket(text, i, current);
  }

  lemma PlainStep(segments: seq<string>, text: string, i: nat, current: string)
    requires i < |text| && text[i] != '.' && text[i] != '['
    ensures SplitFrom(segments, text, i, current) == SplitFrom(segments, text, i + 1, current + [text[i]])
  {
    SegmentsAtPlain(text, i, current);
  }

  lemma WholeSplit(text: string)
    ensures SplitFrom([], text, 0, "") == Segments(text, "")
  {
    assert text[0..] == text;
    AfterNothing(Segments(text, ""));
  }

  lemma EndOfSplit(segments: seq<string>, text: string, current: string)
    ensures SplitFrom(segments, text, |text|, current) == Ok(Ended(segments, current))
  {
    assert text[|text|..] == "" && segments + [] == segments;
  }

  /** `_parse_path`: raises where an opening bracket is never closed. */
  method ParsePath(path: string) returns (r: Result<seq<string>>)
    ensures r == PathSegments(path)
  {
    var text := path;
    if StartsWith(text, "$.") {
      text := text[2..];
    } else if StartsWith(text, "$") {
      text := text[1..];
    }
    r := SplitPath(text);
  }

  /** The loop of `_parse_path`. */
  method SplitPath(text: string) returns (r: Result<seq<string>>)
    ensures r == Segments(text, "")
  {
    var segments: seq<string> := [];
    var current := "";
    var i := 0;
    WholeSplit(text);
    while i < |text|
      invariant 0 <= i <= |text|
      invariant Segments(text, "") == SplitFrom(segments, text, i, current)
    {
      var ch := text[i];
      if ch == '.' {
        DotStep(segments, text, i, current);
        if current != "" {
          segments := segments + [current];
          current := "";
        }
      } else if ch == '[' {
        BracketStep(segments, text, i, current);
        var close := IndexOf(text[i..], ']');
        if close.None? {
          return Raised;
        }
        var end := i + close.value;
        current := current + text[i..end + 1];
        i := end;
      } else {
        PlainStep(segments, text, i, current);
        current := current + [ch];
      }
      i := i + 1;
    }
    EndOfSplit(segments, text, current);
    if current != "" {
      segments := segments + [current];
    }
    return Ok(segments);
  }

  // ----- Walking -----

  /** `current[i]` of a list, or None where Python raises IndexError. */
  function ElementAt(elems: seq<Json>, i: int): Json {
    if 0 <= i < |elems| then elems[i]
    else if -|elems| <= i < 0 then elems[|elems| + i]
    else Null
  }

  /** The value under the key part of a bracketed segment; an empty key stays where it is. */
  function Under(current: Json, key: string): Json {
    if key == "" then current else if current.Obj? then Get(current.members, key) else Null
  }

  /** One iteration of `_resolve_path`'s loop; None is JSON null. An index with more digits than `int` takes is read as
      its number here: no list is that long, so either way nothing is found. */
  function StepInto(current: Json, part: string): Result<Json> {
    if part == "$" then Ok(current)
    else if EndsWith(part, "[]") then
      var v := Under(current, part[..|part| - 2]);
      Ok(if v.Arr? then (if v.elems != [] then v.elems[0] else Null) else v)
    else if EndsWith(part, "]") then
      var bracket := IndexOf(part, '[');
      if bracket.None? then Raised
      else
        assert bracket.value < |part| - 1;
        var v := Under(current, part[..bracket.value]);
        var index := Numeral(part[bracket.value + 1..|part| - 1]);
        Ok(if v.Arr? && index.Some? then ElementAt(v.elems, index.value) else Null)
    else Ok(if current.Obj? then Get(current.members, part) else Null)
  }

  function ResolveFrom(current: Json, parts: seq<string>): Result<Json>
    decreases |parts|
  {
    if parts == [] || current == Null then Ok(current)
    else
      var next :- StepInto(current, parts[0]);
      ResolveFrom(next, parts[1..])
  }

  function Resolve(payload: Json, path: string): Result<Json> {
    if path == "" then Ok(Null)
    else
      var parts :- PathSegments(path);
      ResolveFrom(payload, parts)
  }

  /** `_resolve_path`. */
  method ResolvePath(payload: Json, path: string) returns (r: Result<Json>)
    ensures r == Resolve(payload, path)
  {
    if path == "" {
      return Ok(Null);
    }
    var split := ParsePath(path);
    if split.Raised? {
      return Raised;
    }
    var parts := split.value;
    var current := payload;
    for i := 0 to |parts|
      invariant ResolveFrom(payload, parts) == ResolveFrom(current, parts[i..])
    {
      if current == Null {
        return Ok(Null);
      }
      assert parts[i..][1..] == parts[i + 1..];
      var next := StepInto(current, parts[i]);
      if next.Raised? {
        return Raised;
      }
      current := next.value;
    }
    return Ok(current);
  }

  // ----- Structural paths -----

  datatype Seg = Key(key: string) | Idx(index: nat)

  /** A key that the path language can spell. */
  predicate CleanKey(key: string) {
    && key != "" && key != "$"
    && forall i :: 0 <= i < |key| ==> key[i] != '.' && key[i] != '[' && key[i] != ']'
  }

  predicate CleanSegs(segs: seq<Seg>) {
    forall i :: 0 <= i < |segs| && segs[i].Key? ==> CleanKey(segs[i].key)
  }

  function SegText(seg: Seg): string {
    match seg
    case Key(k) => "." + k
    case Idx(i) => "[" + Decimal(i) + "]"
  }

  function SegsText(segs: seq<Seg>): string {
    if segs == [] then "" else SegText(segs[0]) + SegsText(segs[1..])
  }

  /** The string that the discoverer's walk prints for a structural path. */
  function PathText(segs: seq<Seg>): string {
    "$" + SegsText(segs)
  }

  /** The value at a structural path, if there is one. */
  function At(v: Json, segs: seq<Seg>): Option<Json>
    decreases |segs|
  {
    if segs == [] then Some(v)
    else match segs[0]
      case Key(k) =>
        if v.Obj? && Lookup(v.members, k).Some? then At(Lookup(v.members, k).value, segs[1..]) else None
      case Idx(i) =>
        if v.Arr? && i < |v.elems| then At(v.elems[i], segs[1..]) else None
  }

  /** The value at a structural path, or None. */
  function Deref(v: Json, segs: seq<Seg>): Json {
    var found := At(v, segs);
    if found.Some? then found.value else Null
  }

  /** No index directly after another. */
  predicate NoAdjacentIndices(segs: seq<Seg>) {
    forall i :: 0 < i < |segs| && segs[i - 1].Idx? ==> segs[i].Key?
  }

  // ----- Printing then splitting -----

  /** The segments that a printed path splits into. */
  function Groups(segs: seq<Seg>, current: string): seq<string> {
    if segs == [] then if current != "" then [current] else []
    else match segs[0]
      case Key(k) => (if current != "" then [current] else []) + Groups(segs[1..], k)
      case Idx(i) => Groups(segs[1..], current + "[" + Decimal(i) + "]")
  }

  lemma {:induction false} KeyIsConsumed(key: string, rest: string, current: string)
    requires forall i :: 0 <= i < |key| ==> key[i] != '.' && key[i] != '['
    ensures Segments(key + rest, current) == Segments(rest, current + key)
    decreases |key|
  {
    if key == "" {
      assert key + rest == rest && current + key == current;
    } else {
      assert (key + rest)[1..] == key[1..] + rest;
      KeyIsConsumed(key[1..], rest, current + [key[0]]);
      assert current + [key[0]] + key[1..] == current + key;
    }
  }

  lemma BracketIsConsumed(index: string, rest: string, current: string)
    requires forall j :: 0 <= j < |index| ==> index[j] != ']'
    ensures Segments("[" + index + "]" + rest, current) == Segments(rest, current + "[" + index + "]")
  {
    var text := "[" + index + "]" + rest;
    var close := |index| + 1;
    forall j | 0 <= j < close
      ensures text[j] != ']'
    {
      if j > 0 {
        assert text[j] == index[j - 1];
      }
    }
    IndexOfIs(text, ']', close);
    assert text[..close + 1] == "[" + index + "]";
    assert text[close + 1..] == rest;
    assert current + ("[" + index + "]") == current + "[" + index + "]";
  }

  lemma IndexIsConsumed(i: nat, rest: string, current: string)
    ensures Segments("[" + Decimal(i) + "]" + rest, current) == Segments(rest, current + "[" + Decimal(i) + "]")
  {
    BracketIsConsumed(Decimal(i), rest, current);
  }

  lemma DotEndsSegment(rest: string, current: string)
    ensures Segments("." + rest, current) == After(if current != "" then [current] else [], Segments(rest, ""))
  {
    assert ("." + rest)[1..] == rest;
    AfterNothing(Segments(rest, ""));
  }

  lemma {:induction false} PrintedSegments(segs: seq<Seg>, current: string)
    requires CleanSegs(segs)
    ensures Segments(SegsText(segs), current) == Ok(Groups(segs, current))
    decreases |segs|
  {
    if segs != [] {
      var rest := SegsText(segs[1..]);
      match segs[0] {
        case Key(k) =>
          assert SegsText(segs) == "." + (k + rest);
          DotEndsSegment(k + rest, current);
          KeyIsConsumed(k, rest, "");
          assert "" + k == k;
          PrintedSegments(segs[1..], k);
        case Idx(i) =>
          IndexIsConsumed(i, rest, current);
          PrintedSegments(segs[1..], current + "[" + Decimal(i) + "]");
      }
    }
  }

  /** Splitting a printed path gives its segments back, indices attached to the key before them. */
  lemma PrintThenSplit(segs: seq<Seg>)
    requires CleanSegs(segs)
    ensures PathSegments(PathText(segs)) == Ok(Groups(segs, ""))
  {
    if segs != [] && segs[0].Key? {
      var k, rest := segs[0].key, SegsText(segs[1..]);
      assert SegsText(segs) == "." + k + rest;
      RootBeforeKey(k, rest);
      KeyIsConsumed(k, rest, "");
      assert "" + k == k;
      PrintedSegments(segs[1..], k);
      assert [] + Groups(segs[1..], k) == Groups(segs[1..], k);
    } else {
      assert segs != [] ==> SegsText(segs)[0] == '[';
      RootBeforeIndex(SegsText(segs));
      PrintedSegments(segs, "");
    }
  }

  lemma RootBeforeKey(key: string, rest: string)
    ensures "$" + ("." + key + rest) == "$." + (key + rest)
    ensures WithoutRoot("$" + ("." + key + rest)) == key + rest
  {
    var path := "$." + (key + rest);
    assert path[..2] == "$." && path[2..] == key + rest;
  }

  lemma RootBeforeIndex(text: string)
    requires text == "" || text[0] != '.'
    ensures WithoutRoot("$" + text) == text
  {
    var path := "$" + text;
    assert path[1..] == text;
    assert |path| > 1 ==> path[1] != '.';
  }

  // ----- Printing then walking -----

  lemma EndsWithBracket(s: string)
    ensures EndsWith(s, "]") <==> s != "" && s[|s| - 1] == ']'
    ensures EndsWith(s, "[]") ==> |s| >= 2 && s[|s| - 2] == '[' && s[|s| - 1] == ']'
  {
    if s != "" {
      assert s[|s| - 1..] == [s[|s| - 1]];
    }
    if |s| >= 2 {
      assert s[|s| - 2..] == [s[|s| - 2], s[|s| - 1]];
    }
  }

  lemma StepIntoKey(v: Json, key: string)
    requires CleanKey(key)
    ensures StepInto(v, key) == Ok(if v.Obj? then Get(v.members, key) else Null)
  {
    EndsWithBracket(key);
    assert key[|key| - 1] != ']';
  }

  /** What a bracketed segment does, by the text between its first and its last bracket. */
  lemma StepIntoBracket(v: Json, key: string, index: string)
    requires key == "" || CleanKey(key)
    requires index != "" && IsDigit(index[|index| - 1])
    ensures StepInto(v, key + "[" + index + "]") ==
            Ok(var u, i := Under(v, key), Numeral(index);
               if u.Arr? && i.Some? then ElementAt(u.elems, i.value) else Null)
  {
    var part := key + "[" + index + "]";
    var n := |part|;
    assert part[n - 1] == ']' && part[n - 2] == index[|index| - 1] && part[|key|] == '[';
    EndsWithBracket(part);
    IndexOfIs(part, '[', |key|);
    assert part[..|key|] == key;
    assert part[|key| + 1..n - 1] == index;
  }

  lemma StepIntoIndex(v: Json, key: string, i: nat)
    requires key == "" || CleanKey(key)
    ensures StepInto(v, key + "[" + Decimal(i) + "]") ==
            Ok(var u := Under(v, key); if u.Arr? && i < |u.elems| then u.elems[i] else Null)
  {
    StepIntoBracket(v, key, Decimal(i));
    NumeralOfDecimal(i);
  }

  /** A segment with two indices is no index at all: the text between its first and its last bracket is not
      a number. */
  lemma StepIntoTwoIndices(v: Json, key: string, i: nat, more: string, j: nat)
    requires key == "" || CleanKey(key)
    ensures StepInto(v, key + "[" + (Decimal(i) + "]" + more + "[" + Decimal(j)) + "]") == Ok(Null)
  {
    var index := Decimal(i) + "]" + more + "[" + Decimal(j);
    assert index[|Decimal(i)|] == ']' && index[0] == Decimal(i)[0];
    assert index[|index| - 1] == Decimal(j)[|Decimal(j)| - 1];
    NumeralRejects(index, |Decimal(i)|);
    StepIntoBracket(v, key, index);
  }

  lemma NullResolvesToNull(parts: seq<string>)
    ensures ResolveFrom(Null, parts) == Ok(Null)
  {
  }

  /** What stands under a key, or None. */
  function Below(v: Json, key: string): Json {
    if v.Obj? then Get(v.members, key) else Null
  }

  lemma WalkKey(v: Json, key: string, parts: seq<string>)
    requires CleanKey(key)
    ensures ResolveFrom(v, [key] + parts) == ResolveFrom(Below(v, key), parts)
  {
    StepIntoKey(v, key);
    NullResolvesToNull(parts);
    assert ([key] + parts)[1..] == parts;
  }

  lemma {:induction false} DerefNull(segs: seq<Seg>)
    ensures Deref(Null, segs) == Null
  {
  }

  lemma DerefKey(v: Json, key: string, segs: seq<Seg>)
    ensures Deref(v, [Key(key)] + segs) == Deref(Below(v, key), segs)
  {
    assert ([Key(key)] + segs)[1..] == segs;
    DerefNull(segs);
  }

  /** The walk that follows a pending key, and the indices behind it. */
  lemma {:induction false} WalkGroups(v: Json, key: string, segs: seq<Seg>)
    requires CleanKey(key) && CleanSegs(segs) && NoAdjacentIndices(segs)
    ensures ResolveFrom(v, Groups(segs, key)) == Ok(Deref(v, [Key(key)] + segs))
    decreases |segs|
  {
    if segs == [] {
      WalkKey(v, key, []);
      assert [key] + [] == [key];
      DerefKey(v, key, []);
    } else if segs[0].Key? {
      WalkKey(v, key, Groups(segs[1..], segs[0].key));
      DerefKey(v, key, segs);
      WalkGroups(Below(v, key), segs[0].key, segs[1..]);
      assert [Key(segs[0].key)] + segs[1..] == segs;
    } else {
      WalkIndexed(v, key, segs[0].index, segs[1..]);
      assert segs == [Idx(segs[0].index)] + segs[1..];
      DerefKey(v, key, segs);
    }
  }

  lemma {:induction false} WalkIndexed(v: Json, key: string, i: nat, segs: seq<Seg>)
    requires key == "" || CleanKey(key)
    requires CleanSegs(segs) && NoAdjacentIndices(segs) && (segs != [] ==> segs[0].Key?)
    ensures ResolveFrom(v, Groups(segs, key + "[" + Decimal(i) + "]")) ==
            Ok(Deref(Under(v, key), [Idx(i)] + segs))
    decreases |segs|
  {
    var part := key + "[" + Decimal(i) + "]";
    var parts := Groups(segs, part);
    StepIntoIndex(v, key, i);
    var u := Under(v, key);
    var next := if u.Arr? && i < |u.elems| then u.elems[i] else Null;
    assert ([Idx(i)] + segs)[1..] == segs;
    if segs == [] {
      assert parts == [part] && parts[1..] == [];
      assert At(u, [Idx(i)] + segs) == if u.Arr? && i < |u.elems| then Some(u.elems[i]) else None;
    } else {
      assert parts == [part] + Groups(segs[1..], segs[0].key);
      assert parts[1..] == Groups(segs[1..], segs[0].key);
      WalkGroups(next, segs[0].key, segs[1..]);
      assert [Key(segs[0].key)] + segs[1..] == segs;
      assert Deref(u, [Idx(i)] + segs) == Deref(next, segs);
    }
  }

  /** Resolving a printed path is walking its segments. */
  lemma ResolveWalks(v: Json, segs: seq<Seg>)
    requires CleanSegs(segs)
    ensures Resolve(v, PathText(segs)) == ResolveFrom(v, Groups(segs, ""))
  {
    PrintThenSplit(segs);
    assert PathText(segs) != "";
  }

  lemma GroupsStart(segs: seq<Seg>)
    requires segs != []
    ensures Groups(segs, "") ==
            match segs[0] { case Key(k) => Groups(segs[1..], k)
                            case Idx(i) => Groups(segs[1..], "" + "[" + Decimal(i) + "]") }
  {
    if segs[0].Key? {
      assert [] + Groups(segs[1..], segs[0].key) == Groups(segs[1..], segs[0].key);
    }
  }

  lemma WalkAll(v: Json, segs: seq<Seg>)
    requires CleanSegs(segs) && NoAdjacentIndices(segs)
    ensures ResolveFrom(v, Groups(segs, "")) == Ok(Deref(v, segs))
  {
    if segs != [] {
      GroupsStart(segs);
      assert segs == [segs[0]] + segs[1..];
      match segs[0] {
        case Key(k) => WalkGroups(v, k, segs[1..]);
        case Idx(i) => WalkIndexed(v, "", i, segs[1..]);
      }
    }
  }

  /** Resolving a printed path finds what stands at the structural path, provided that no index follows
      another. */
  lemma PrintThenResolve(v: Json, segs: seq<Seg>)
    requires CleanSegs(segs) && NoAdjacentIndices(segs)
    ensures Resolve(v, PathText(segs)) == Ok(Deref(v, segs))
  {
    ResolveWalks(v, segs);
    WalkAll(v, segs);
  }

  // ----- Nested arrays -----

  /** A segment that has collected two or more indices loses the value, whatever follows. */
  lemma {:induction false} WalkDoubleIndex(v: Json, key: string, i: nat, more: string, j: nat, segs: seq<Seg>)
    requires key == "" || CleanKey(key)
    ensures ResolveFrom(v, Groups(segs, key + "[" + (Decimal(i) + "]" + more + "[" + Decimal(j)) + "]")) == Ok(Null)
    decreases |segs|
  {
    var part := key + "[" + (Decimal(i) + "]" + more + "[" + Decimal(j)) + "]";
    if segs != [] && segs[0].Idx? {
      var more' := more + "[" + Decimal(j) + "]";
      var longer := key + "[" + (Decimal(i) + "]" + more' + "[" + Decimal(segs[0].index)) + "]";
      assert part + "[" + Decimal(segs[0].index) + "]" == longer;
      WalkDoubleIndex(v, key, i, more', segs[0].index, segs[1..]);
    } else {
      var parts := Groups(segs, part);
      StepIntoTwoIndices(v, key, i, more, j);
      assert parts[0] == part;
      NullResolvesToNull(parts[1..]);
    }
  }

  lemma BrokenBehindKey(segs: seq<Seg>)
    requires !NoAdjacentIndices(segs) && segs[0].Key?
    ensures !NoAdjacentIndices(segs[1..])
  {
    var i :| 0 < i < |segs| && segs[i - 1].Idx? && !segs[i].Key?;
    assert segs[1..][i - 2].Idx? && !segs[1..][i - 1].Key?;
  }

  lemma BrokenBehindIndex(index: nat, segs: seq<Seg>)
    requires !NoAdjacentIndices([Idx(index)] + segs) && segs[0].Key?
    ensures !NoAdjacentIndices(segs)
  {
    var all := [Idx(index)] + segs;
    var i :| 0 < i < |all| && all[i - 1].Idx? && !all[i].Key?;
    assert segs[i - 2].Idx? && !segs[i - 1].Key?;
  }

  lemma {:induction false} WalkKeyBroken(v: Json, key: string, segs: seq<Seg>)
    requires CleanKey(key) && CleanSegs(segs) && !NoAdjacentIndices(segs)
    ensures ResolveFrom(v, Groups(segs, key)) == Ok(Null)
    decreases |segs|
  {
    if segs[0].Key? {
      StepIntoKey(v, key);
      BrokenBehindKey(segs);
      assert Groups(segs, key)[1..] == Groups(segs[1..], segs[0].key);
      WalkKeyBroken(Get(if v.Obj? then v.members else [], key), segs[0].key, segs[1..]);
    } else {
      assert segs == [Idx(segs[0].index)] + segs[1..];
      WalkIndexBroken(v, key, segs[0].index, segs[1..]);
    }
  }

  lemma {:induction false} WalkIndexBroken(v: Json, key: string, i: nat, segs: seq<Seg>)
    requires key == "" || CleanKey(key)
    requires CleanSegs(segs) && !NoAdjacentIndices([Idx(i)] + segs)
    ensures ResolveFrom(v, Groups(segs, key + "[" + Decimal(i) + "]")) == Ok(Null)
    decreases |segs|
  {
    var part := key + "[" + Decimal(i) + "]";
    if segs[0].Key? {
      StepIntoIndex(v, key, i);
      BrokenBehindIndex(i, segs);
      BrokenBehindKey(segs);
      assert Groups(segs, part)[1..] == Groups(segs[1..], segs[0].key);
      var u := Under(v, key);
      WalkKeyBroken(if u.Arr? && i < |u.elems| then u.elems[i] else Null, segs[0].key, segs[1..]);
    } else {
      var j := segs[0].index;
      assert part + "[" + Decimal(j) + "]" == key + "[" + (Decimal(i) + "]" + "" + "[" + Decimal(j)) + "]";
      WalkDoubleIndex(v, key, i, "", j, segs[1..]);
    }
  }

  lemma WalkBroken(v: Json, segs: seq<Seg>)
    requires CleanSegs(segs) && !NoAdjacentIndices(segs)
    ensures ResolveFrom(v, Groups(segs, "")) == Ok(Null)
  {
    GroupsStart(segs);
    if segs[0].Key? {
      BrokenBehindKey(segs);
      WalkKeyBroken(v, segs[0].key, segs[1..]);
    } else {
      assert segs == [Idx(segs[0].index)] + segs[1..];
      WalkIndexBroken(v, "", segs[0].index, segs[1..]);
    }
  }

  /** Where an index follows another, the printed path resolves to None, whatever stands there. */
  lemma NestedArraysAreLost(v: Json, segs: seq<Seg>)
    requires CleanSegs(segs) && !NoAdjacentIndices(segs)
    ensures Resolve(v, PathText(segs)) == Ok(Null)
  {
    ResolveWalks(v, segs);
    WalkBroken(v, segs);
  }

  /** A printed path resolves to the value at its structural path exactly when no index follows another, or
      there is nothing to find. */
  lemma ResolvesIffNoAdjacentIndices(v: Json, segs: seq<Seg>)
    requires CleanSegs(segs)
    ensures Resolve(v, PathText(segs)) == Ok(if NoAdjacentIndices(segs) then Deref(v, segs) else Null)
  {
    if NoAdjacentIndices(segs) {
      PrintThenResolve(v, segs);
    } else {
      NestedArraysAreLost(v, segs);
    }
  }

  // ----- Brackets that discovery does not print -----

  lemma OneBracketSplits(key: string, index: string)
    requires CleanKey(key) && forall j :: 0 <= j < |index| ==> index[j] != ']'
    ensures PathSegments("$." + key + "[" + index + "]") == Ok([key + "[" + index + "]"])
  {
    var bracket := "[" + index + "]";
    assert "$." + key + "[" + index + "]" == "$." + (key + bracket);
    RootBeforeKey(key, bracket);
    KeyIsConsumed(key, bracket, "");
    assert "" + key == key && bracket + "" == bracket;
    BracketIsConsumed(index, "", key);
  }

  lemma OneStepResolves(payload: Json, path: string, part: string)
    requires path != "" && PathSegments(path) == Ok([part]) && payload != Null
    ensures Resolve(payload, path) == StepInto(payload, part)
  {
    var next := StepInto(payload, part);
    assert [part][0] == part && [part][1..] == [];
    assert next.Ok? ==> ResolveFrom(next.value, []) == next;
    assert ResolveFrom(payload, [part]) == next;
  }

  /** Empty brackets take the first element of an array, and leave anything else as it is. */
  lemma EmptyBrackets(members: seq<Member>, key: string)
    requires CleanKey(key)
    ensures var v := Get(members, key);
            Resolve(Obj(members), "$." + key + "[]") ==
            Ok(if !v.Arr? then v else if v.elems == [] then Null else v.elems[0])
  {
    var part := key + "[" + "" + "]";
    OneBracketSplits(key, "");
    assert "$." + key + "[" + "" + "]" == "$." + key + "[]";
    OneStepResolves(Obj(members), "$." + key + "[]", part);
    assert part == key + "[]" && part[|part| - 2..] == "[]" && part[..|part| - 2] == key;
  }

  lemma NegativeStep(v: Json, key: string, n: nat)
    requires CleanKey(key) && n > 0
    ensures StepInto(v, key + "[" + ("-" + Decimal(n)) + "]") ==
            Ok(var u := Under(v, key); if u.Arr? && n <= |u.elems| then u.elems[|u.elems| - n] else Null)
  {
    var index := "-" + Decimal(n);
    assert index == ['-'] + Decimal(n) && index[|index| - 1] == Decimal(n)[|Decimal(n)| - 1];
    StepIntoBracket(v, key, index);
    SignedNumeral('-', Decimal(n));
    ValueOfDecimal(n);
  }

  /** A negative index counts from the end, and leads nowhere in front of the array. */
  lemma NegativeIndex(members: seq<Member>, key: string, n: nat)
    requires CleanKey(key) && n > 0
    ensures var v := Get(members, key);
            Resolve(Obj(members), "$." + key + "[" + ("-" + Decimal(n)) + "]") ==
            Ok(if v.Arr? && n <= |v.elems| then v.elems[|v.elems| - n] else Null)
  {
    var index := "-" + Decimal(n);
    NegativeStep(Obj(members), key, n);
    OneBracketSplits(key, index);
    OneStepResolves(Obj(members), "$." + key + "[" + index + "]", key + "[" + index + "]");
  }
}
