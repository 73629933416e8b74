/** Composite ids: the discoverer turns an id such as `A:B` into a template over the payload, and the
    adapter fills the template in again. */
module Templates {
  import opened Prelude
  import opened Json
  import opened PyText
  import opened Paths
  import opened Discovery

  // ----- Splitting and joining -----

  /** `s.split(sep)`. */
  function Split(s: string, sep: char): (parts: seq<string>)
    ensures parts != []
  {
    var i := IndexOf(s, sep);
    if i.None? then [s] else [s[..i.value]] + Split(s[i.value + 1..], sep)
  }

  /** `sep.join(parts)`. */
  function Join(parts: seq<string>, sep: char): string {
    if parts == [] then ""
    else if |parts| == 1 then parts[0]
    else parts[0] + [sep] + Join(parts[1..], sep)
  }

  lemma JoinCons(text: string, texts: seq<string>, sep: char)
    requires texts != []
    ensures Join([text] + texts, sep) == text + ([sep] + Join(texts, sep))
  {
    assert ([text] + texts)[1..] == texts;
  }

  lemma {:induction false} JoinOfSplit(s: string, sep: char)
    ensures Join(Split(s, sep), sep) == s
    decreases |s|
  {
    var i := IndexOf(s, sep);
    if i.Some? {
      var rest := s[i.value + 1..];
      JoinOfSplit(rest, sep);
      JoinCons(s[..i.value], Split(rest, sep), sep);
      assert s == s[..i.value] + ([sep] + rest);
    }
  }

  // ----- Inferring -----

  const SEPARATORS := [':', '-', '_', '/']

  /** `path[2:]`. */
  function WithoutDollarDot(path: string): string {
    if |path| < 2 then "" else path[2..]
  }

  /** The path of each part inside the payload, or None as soon as a part is blank or nowhere to be found. */
  function PartPaths(payload: Json, parts: seq<string>): Option<seq<string>> {
    if parts == [] then Some([])
    else
      var part := Strip(parts[0]);
      var path := FindPath(payload, Strip(part));
      var later := PartPaths(payload, parts[1..]);
      if part == "" || path.None? || later.None? then None
      else Some([WithoutDollarDot(path.value)] + later.value)
  }

  function Hole(path: string): string {
    "{" + path + "}"
  }

  function Holes(paths: seq<string>): seq<string> {
    seq(|paths|, i requires 0 <= i < |paths| => Hole(paths[i]))
  }

  /** One round of the loop over separators. */
  function TemplateFor(payload: Json, composite: string, sep: char): Option<string> {
    if sep !in composite then None
    else
      var parts := Split(composite, sep);
      if |parts| < 2 || |parts| > 4 then None
      else
        var paths := PartPaths(payload, parts);
        if paths.None? then None else Some(Join(Holes(paths.value), sep))
  }

  function FirstTemplate(payload: Json, composite: string, separators: seq<char>): Option<string> {
    if separators == [] then None
    else
      var template := TemplateFor(payload, composite, separators[0]);
      if template.Some? then template else FirstTemplate(payload, composite, separators[1..])
  }

  function MorePaths(paths: seq<string>, later: Option<seq<string>>): Option<seq<string>> {
    if later.None? then None else Some(paths + later.value)
  }

  lemma PartPathsSplit(payload: Json, parts: seq<string>, i: nat)
    requires i < |parts|
    ensures var path := FindPath(payload, Strip(Strip(parts[i])));
            PartPaths(payload, parts[i..]) ==
            if Strip(parts[i]) == "" || path.None? then None
            else MorePaths([WithoutDollarDot(path.value)], PartPaths(payload, parts[i + 1..]))
  {
    assert parts[i..][1..] == parts[i + 1..];
  }

  lemma MorePathsAssociates(a: seq<string>, b: seq<string>, later: Option<seq<string>>)
    ensures MorePaths(a + b, later) == MorePaths(a, MorePaths(b, later))
  {
    if later.Some? {
      assert a + b + later.value == a + (b + later.value);
    }
  }

  /** The loop over the parts of one split. */
  method FindParts(payload: Json, parts: seq<string>) returns (holes: seq<string>, allFound: bool)
    ensures allFound == PartPaths(payload, parts).Some?
    ensures allFound ==> holes == Holes(PartPaths(payload, parts).value)
  {
    holes, allFound := [], true;
    ghost var paths: seq<string> := [];
    ghost var all := PartPaths(payload, parts);
    assert parts[0..] == parts && (all.Some? ==> [] + all.value == all.value);
    for i := 0 to |parts|
      invariant allFound && holes == Holes(paths)
      invariant all == MorePaths(paths, PartPaths(payload, parts[i..]))
    {
      PartPathsSplit(payload, parts, i);
      var part := Strip(parts[i]);
      if part == "" {
        allFound := false;
        break;
      }
      var path := FindValuePath(payload, Strip(part));
      if path.None? {
        allFound := false;
        break;
      }
      MorePathsAssociates(paths, [WithoutDollarDot(path.value)], PartPaths(payload, parts[i + 1..]));
      holes := holes + [Hole(WithoutDollarDot(path.value))];
      paths := paths + [WithoutDollarDot(path.value)];
    }
    assert parts[|parts|..] == [] && paths + [] == paths;
  }

  /** `_infer_composite_template`. */
  method InferCompositeTemplate(payload: Json, composite: string) returns (template: Option<string>)
    ensures template == FirstTemplate(payload, composite, SEPARATORS)
  {
    for n := 0 to |SEPARATORS|
      invariant FirstTemplate(payload, composite, SEPARATORS) == FirstTemplate(payload, composite, SEPARATORS[n..])
    {
      var sep := SEPARATORS[n];
      assert SEPARATORS[n..][1..] == SEPARATORS[n + 1..];
      if sep in composite {
        var parts := Split(composite, sep);
        if 2 <= |parts| <= 4 {
          var holes, allFound := FindParts(payload, parts);
          if allFound {
            return Some(Join(holes, sep));
          }
        }
      }
    }
    return None;
  }

  // ----- Filling in -----

  /** Leftmost match of a brace, one or more characters that are no closing brace, and a closing brace. */
  function NextHole(s: string, from: nat): (hole: Option<(nat, nat)>)
    requires from <= |s|
    ensures hole.Some? ==> from <= hole.value.0 < hole.value.1 < |s|
    decreases |s| - from
  {
    if from == |s| then None
    else
      var close := IndexOf(s[from..], '}');
      if s[from] == '{' && close.Some? && close.value > 1 then Some((from, from + close.value))
      else NextHole(s, from + 1)
  }

  /** `re.split` on holes, the holes kept. */
  function SplitHoles(s: string): seq<string>
    decreases |s|
  {
    var hole := NextHole(s, 0);
    if hole.None? then [s]
    else [s[..hole.value.0], s[hole.value.0..hole.value.1 + 1]] + SplitHoles(s[hole.value.1 + 1..])
  }

  predicate IsHole(part: string) {
    |part| >= 2 && part[0] == '{' && part[|part| - 1] == '}'
  }

  /** `str(v)`; how Python prints a container is left open. */
  function Text(v: Json, repr: Json -> string): string {
    if IsLeaf(v) then LeafText(v) else repr(v)
  }

  datatype Filling = Filling(text: string, hasValue: bool)

  function FillPart(payload: Json, part: string, repr: Json -> string): Result<Filling> {
    if IsHole(part) then
      var v :- Resolve(payload, "$." + part[1..|part| - 1]);
      Ok(if Truthy(v) then Filling(Text(v, repr), true) else Filling("", false))
    else Ok(Filling(part, false))
  }

  function Fill(payload: Json, parts: seq<string>, repr: Json -> string): Result<Filling> {
    if parts == [] then Ok(Filling("", false))
    else
      var first :- FillPart(payload, parts[0], repr);
      Plus(first, Fill(payload, parts[1..], repr))
  }

  function Trimmed(filling: Filling): Option<string> {
    var text := StripChar(StripChar(filling.text, ':'), '-');
    if !filling.hasValue || text == "" then None else Some(text)
  }

  function FillTemplate(payload: Json, template: string, repr: Json -> string): Result<Option<string>> {
    var filling :- Fill(payload, SplitHoles(template), repr);
    Ok(Trimmed(filling))
  }

  function Plus(first: Filling, later: Result<Filling>): Result<Filling> {
    if later.Raised? then Raised else Ok(Filling(first.text + later.value.text, first.hasValue || later.value.hasValue))
  }

  lemma PlusAssociates(a: Filling, b: Filling, later: Result<Filling>)
    ensures Plus(Filling(a.text + b.text, a.hasValue || b.hasValue), later) == Plus(a, Plus(b, later))
  {
    if later.Ok? {
      assert a.text + b.text + later.value.text == a.text + (b.text + later.value.text);
    }
  }

  lemma FillSplits(payload: Json, parts: seq<string>, i: nat, repr: Json -> string)
    requires i < |parts|
    ensures Fill(payload, parts[i..], repr) ==
            var first := FillPart(payload, parts[i], repr);
            if first.Raised? then Raised else Plus(first.value, Fill(payload, parts[i + 1..], repr))
  {
    assert parts[i..][1..] == parts[i + 1..];
  }

  /** The body of the loop over the parts of a template. */
  method ResolvePart(payload: Json, part: string, repr: Json -> string) returns (r: Result<Filling>)
    ensures r == FillPart(payload, part, repr)
  {
    if !IsHole(part) {
      return Ok(Filling(part, false));
    }
    var v := ResolvePath(payload, "$." + part[1..|part| - 1]);
    if v.Raised? {
      return Raised;
    }
    return Ok(if Truthy(v.value) then Filling(Text(v.value, repr), true) else Filling("", false));
  }

  /** The loop over the parts of a template. */
  method FillParts(payload: Json, parts: seq<string>, repr: Json -> string) returns (r: Result<Filling>)
    ensures r == Fill(payload, parts, repr)
  {
    var filling := Filling("", false);
    ghost var all := Fill(payload, parts, repr);
    PlusNothing(all);
    assert parts[0..] == parts;
    for i := 0 to |parts|
      invariant all == Plus(filling, Fill(payload, parts[i..], repr))
    {
      FillSplits(payload, parts, i, repr);
      var piece := ResolvePart(payload, parts[i], repr);
      if piece.Raised? {
        return Raised;
      }
      PlusAssociates(filling, piece.value, Fill(payload, parts[i + 1..], repr));
      filling := Filling(filling.text + piece.value.text, filling.hasValue || piece.value.hasValue);
    }
    assert parts[|parts|..] == [] && filling.text + "" == filling.text;
    return Ok(filling);
  }

  lemma PlusNothing(later: Result<Filling>)
    ensures Plus(Filling("", false), later) == later
  {
    if later.Ok? {
      assert "" + later.value.text == later.value.text;
    }
  }

  /** `_resolve_template`. */
  method ResolveTemplate(payload: Json, template: string, repr: Json -> string) returns (r: Result<Option<string>>)
    ensures r == FillTemplate(payload, template, repr)
  {
    var filling := FillParts(payload, SplitHoles(template), repr);
    if filling.Raised? {
      return Raised;
    }
    if !filling.value.hasValue {
      return Ok(None);
    }
    var text := StripChar(StripChar(filling.value.text, ':'), '-');
    return Ok(if text == "" then None else Some(text));
  }

  // ----- Filling in what was inferred -----

  predicate BraceFree(s: string) {
    forall i :: 0 <= i < |s| ==> s[i] != '{' && s[i] != '}'
  }

  predicate BraceFreeKeys(v: Json)
    decreases v
  {
    match v
    case Obj(members) => forall i :: 0 <= i < |members| ==> BraceFree(members[i].key) && BraceFreeKeys(members[i].value)
    case Arr(elems) => forall i :: 0 <= i < |elems| ==> BraceFreeKeys(elems[i])
    case _ => true
  }

  lemma {:induction false} PrintedPathIsBraceFree(v: Json, segs: seq<Seg>)
    requires BraceFreeKeys(v) && At(v, segs).Some?
    ensures BraceFree(SegsText(segs))
    decreases |segs|
  {
    if segs != [] {
      match segs[0] {
        case Key(k) =>
          var n := LookupSource(v.members, k);
          PrintedPathIsBraceFree(v.members[n].value, segs[1..]);
        case Idx(i) =>
          PrintedPathIsBraceFree(v.elems[i], segs[1..]);
      }
    }
  }

  /** The parts of a template: the text before each hole and the hole, and nothing after the last. */
  function Pieces(lead: string, paths: seq<string>, sep: char): seq<string>
    requires paths != []
    decreases |paths|
  {
    [lead, Hole(paths[0])] + if |paths| == 1 then [""] else Pieces([sep], paths[1..], sep)
  }

  lemma NextHoleAfterLead(lead: string, path: string, rest: string)
    requires BraceFree(lead) && |lead| <= 1 && BraceFree(path) && |path| > 0
    ensures NextHole(lead + Hole(path) + rest, 0) == Some((|lead|, |lead| + 1 + |path|))
  {
    var s := lead + Hole(path) + rest;
    var tail := s[|lead|..];
    assert tail == Hole(path) + rest;
    var close := |path| + 1;
    assert tail[close] == '}';
    forall j | 0 <= j < close
      ensures tail[j] != '}'
    {
      if j > 0 {
        assert tail[j] == path[j - 1];
      }
    }
    IndexOfIs(tail, '}', close);
    assert s[|lead|] == '{';
  }

  lemma {:induction false} TemplateSplits(lead: string, paths: seq<string>, sep: char)
    requires paths != [] && BraceFree(lead) && |lead| <= 1 && BraceFree([sep])
    requires forall i :: 0 <= i < |paths| ==> BraceFree(paths[i]) && |paths[i]| > 0
    ensures SplitHoles(lead + Join(Holes(paths), sep)) == Pieces(lead, paths, sep)
    decreases |paths|
  {
    var first := Hole(paths[0]);
    var rest := if |paths| == 1 then "" else [sep] + Join(Holes(paths[1..]), sep);
    var s := lead + Join(Holes(paths), sep);
    assert Holes(paths)[1..] == Holes(paths[1..]);
    assert s == lead + first + rest;
    NextHoleAfterLead(lead, paths[0], rest);
    var close := |lead| + 1 + |paths[0]|;
    assert s[..|lead|] == lead && s[|lead|..close + 1] == first && s[close + 1..] == rest;
    if |paths| == 1 {
      assert SplitHoles("") == [""];
    } else {
      TemplateSplits([sep], paths[1..], sep);
    }
  }

  ghost predicate TidyPayload(payload: Json) {
    payload.Obj? && Clean(payload) && NoNestedArrays(payload) && BraceFreeKeys(payload)
  }

  /** The leaf that the discoverer finds for a part of a composite. */
  function FoundLeaf(payload: Json, part: string): Json {
    var path := FindPath(payload, Strip(Strip(part)));
    if path.None? then Null
    else
      var v := Resolve(payload, path.value);
      if v.Ok? then v.value else Null
  }

  /** What the adapter fills in for the part's hole. */
  function FilledText(payload: Json, part: string): string {
    var leaf := FoundLeaf(payload, part);
    if IsLeaf(leaf) && Truthy(leaf) then LeafText(leaf) else ""
  }

  function FilledTexts(payload: Json, parts: seq<string>): (texts: seq<string>)
    ensures |texts| == |parts|
    ensures forall i :: 0 <= i < |parts| ==> texts[i] == FilledText(payload, parts[i])
  {
    if parts == [] then [] else [FilledText(payload, parts[0])] + FilledTexts(payload, parts[1..])
  }

  predicate AnyFilled(payload: Json, parts: seq<string>) {
    exists i :: 0 <= i < |parts| && Truthy(FoundLeaf(payload, parts[i]))
  }

  /** The hole that stands for a part fills with the text of the leaf that was found. */
  lemma HoleFills(payload: Json, part: string, repr: Json -> string)
    requires TidyPayload(payload) && FindPath(payload, Strip(Strip(part))).Some?
    ensures var path := WithoutDollarDot(FindPath(payload, Strip(Strip(part))).value);
            && path != "" && BraceFree(path)
            && Matches(FoundLeaf(payload, part), Strip(Strip(part)))
            && FillPart(payload, Hole(path), repr) ==
               Ok(Filling(FilledText(payload, part), Truthy(FoundLeaf(payload, part))))
  {
    var segs := FoundPathResolves(payload, Strip(Strip(part)));
    var found := FindPath(payload, Strip(Strip(part))).value;
    PrintedPathIsBraceFree(payload, segs);
    FoundPathBehindRoot(segs);
    assert found == "$." + WithoutDollarDot(found);
    var hole := Hole(WithoutDollarDot(found));
    assert hole[1..|hole| - 1] == WithoutDollarDot(found);
  }

  /** A printed path that starts with a key is the root, a dot, and something brace-free where the path is. */
  lemma FoundPathBehindRoot(segs: seq<Seg>)
    requires segs != [] && segs[0].Key? && CleanSegs(segs)
    ensures var path := PathText(segs);
            && path == "$." + WithoutDollarDot(path) && WithoutDollarDot(path) != ""
            && (BraceFree(SegsText(segs)) ==> BraceFree(WithoutDollarDot(path)))
  {
    var rest := segs[0].key + SegsText(segs[1..]);
    assert SegsText(segs) == "." + rest;
    assert PathText(segs) == "$." + rest;
    assert PathText(segs)[2..] == rest && SegsText(segs)[1..] == rest;
  }

  lemma {:induction false} PartPathsAreTidy(payload: Json, parts: seq<string>, paths: seq<string>)
    requires TidyPayload(payload) && PartPaths(payload, parts) == Some(paths)
    ensures |paths| == |parts| && forall i :: 0 <= i < |paths| ==> BraceFree(paths[i]) && |paths[i]| > 0
    decreases |parts|
  {
    if parts != [] {
      PartPathsHead(payload, parts, paths);
      HoleFills(payload, parts[0], _ => "");
      PartPathsAreTidy(payload, parts[1..], paths[1..]);
      assert forall i :: 0 < i < |paths| ==> paths[i] == paths[1..][i - 1];
    }
  }

  lemma LastPieceFills(payload: Json, repr: Json -> string)
    ensures Fill(payload, [""], repr) == Ok(Filling("", false))
  {
    assert [""][1..] == [] && "" + "" == "";
  }

  lemma {:induction false} PiecesFill(
    payload: Json, lead: string, parts: seq<string>, paths: seq<string>, sep: char, repr: Json -> string)
    requires TidyPayload(payload) && parts != [] && BraceFree(lead) && BraceFree([sep])
    requires PartPaths(payload, parts) == Some(paths) && paths != []
    ensures Fill(payload, Pieces(lead, paths, sep), repr) ==
            Ok(Filling(lead + Join(FilledTexts(payload, parts), sep), AnyFilled(payload, parts)))
    decreases |parts|
  {
    PartPathsHead(payload, parts, paths);
    HoleFills(payload, parts[0], repr);
    AnyFilledCons(payload, parts);
    var text, filled := FilledText(payload, parts[0]), Truthy(FoundLeaf(payload, parts[0]));
    if |parts| == 1 {
      LastPieceFills(payload, repr);
      FillLeadAndHole(payload, lead, Hole(paths[0]), [""], text, filled, Filling("", false), repr);
      assert FilledTexts(payload, parts) == [text] && text + "" == text;
    } else {
      PartPathsHead(payload, parts[1..], paths[1..]);
      PiecesFill(payload, [sep], parts[1..], paths[1..], sep, repr);
      var texts := FilledTexts(payload, parts[1..]);
      var later := Filling([sep] + Join(texts, sep), AnyFilled(payload, parts[1..]));
      FillLeadAndHole(payload, lead, Hole(paths[0]), Pieces([sep], paths[1..], sep), text, filled, later, repr);
      JoinCons(text, texts, sep);
    }
  }

  lemma AnyFilledCons(payload: Json, parts: seq<string>)
    requires parts != []
    ensures AnyFilled(payload, parts) <==> Truthy(FoundLeaf(payload, parts[0])) || AnyFilled(payload, parts[1..])
  {
    if AnyFilled(payload, parts[1..]) {
      var i :| 0 <= i < |parts[1..]| && Truthy(FoundLeaf(payload, parts[1..][i]));
      assert parts[i + 1] == parts[1..][i];
    }
    if AnyFilled(payload, parts) {
      var i :| 0 <= i < |parts| && Truthy(FoundLeaf(payload, parts[i]));
      assert i > 0 ==> parts[i] == parts[1..][i - 1];
    }
  }

  lemma PartPathsHead(payload: Json, parts: seq<string>, paths: seq<string>)
    requires parts != [] && PartPaths(payload, parts) == Some(paths)
    ensures Strip(parts[0]) != "" && FindPath(payload, Strip(Strip(parts[0]))).Some? && paths != []
    ensures paths[0] == WithoutDollarDot(FindPath(payload, Strip(Strip(parts[0]))).value)
    ensures PartPaths(payload, parts[1..]) == Some(paths[1..])
    ensures |parts| == 1 ==> paths == [paths[0]]
  {
    var later := PartPaths(payload, parts[1..]).value;
    assert paths == [WithoutDollarDot(FindPath(payload, Strip(Strip(parts[0]))).value)] + later;
    assert paths[1..] == later;
  }

  lemma FillLeadAndHole(payload: Json, lead: string, hole: string, rest: seq<string>, text: string, filled: bool,
                        later: Filling, repr: Json -> string)
    requires FillPart(payload, lead, repr) == Ok(Filling(lead, false))
    requires FillPart(payload, hole, repr) == Ok(Filling(text, filled))
    requires Fill(payload, rest, repr) == Ok(later)
    ensures Fill(payload, [lead, hole] + rest, repr) ==
            Ok(Filling(lead + (text + later.text), filled || later.hasValue))
  {
    var pieces := [lead, hole] + rest;
    assert pieces[1..] == [hole] + rest;
    assert ([hole] + rest)[1..] == rest;
  }

  /** Filling in an inferred template gives, trimmed, the texts of the leaves that were found for the parts. */
  lemma TemplateFills(payload: Json, composite: string, sep: char, repr: Json -> string)
    requires TidyPayload(payload) && BraceFree([sep]) && TemplateFor(payload, composite, sep).Some?
    ensures var parts := Split(composite, sep);
            FillTemplate(payload, TemplateFor(payload, composite, sep).value, repr) ==
            Ok(Trimmed(Filling(Join(FilledTexts(payload, parts), sep), AnyFilled(payload, parts))))
  {
    var parts := Split(composite, sep);
    var paths := PartPaths(payload, parts).value;
    PartPathsAreTidy(payload, parts, paths);
    PiecesFill(payload, "", parts, paths, sep, repr);
    TemplateSplits("", paths, sep);
    assert "" + Join(Holes(paths), sep) == Join(Holes(paths), sep);
    assert "" + Join(FilledTexts(payload, parts), sep) == Join(FilledTexts(payload, parts), sep);
  }

  // ----- When the composite comes back -----

  /** The composite begins or ends with a character that the adapter trims off. */
  predicate Edged(s: string) {
    s != "" && (s[0] == ':' || s[0] == '-' || s[|s| - 1] == ':' || s[|s| - 1] == '-')
  }

  lemma TrimKeepsUnedged(s: string)
    requires s != ""
    ensures Trimmed(Filling(s, true)) == Some(s) <==> !Edged(s)
  {
    StripIsIdentity(s, x => x == ':');
    StripIsIdentity(StripChar(s, ':'), x => x == '-');
  }

  /** The leaf found for a part is truthy and prints as the part itself, blanks included. */
  predicate Exact(payload: Json, part: string) {
    var leaf := FoundLeaf(payload, part);
    IsLeaf(leaf) && Truthy(leaf) && LeafText(leaf) == part
  }

  predicate Apart(parts: seq<string>, sep: char) {
    forall i :: 0 <= i < |parts| ==> sep !in parts[i]
  }

  lemma {:induction false} SplitIsApart(s: string, sep: char)
    ensures Apart(Split(s, sep), sep)
    decreases |s|
  {
    var i := IndexOf(s, sep);
    if i.Some? {
      SplitIsApart(s[i.value + 1..], sep);
    }
  }

  /** Joining separator-free parts and splitting again is the identity. */
  lemma {:induction false} SplitOfJoin(parts: seq<string>, sep: char)
    requires parts != [] && Apart(parts, sep)
    ensures Split(Join(parts, sep), sep) == parts
    decreases |parts|
  {
    var s := Join(parts, sep);
    if |parts| == 1 {
      assert IndexOf(s, sep).None?;
    } else {
      var rest := Join(parts[1..], sep);
      assert s == parts[0] + [sep] + rest && s[|parts[0]|] == sep;
      IndexOfIs(s, sep, |parts[0]|);
      assert s[..|parts[0]|] == parts[0] && s[|parts[0]| + 1..] == rest;
      SplitOfJoin(parts[1..], sep);
    }
  }

  /** Whether or not a leaf is truthy, what it fills in holds no separator and no more characters than its part,
      blanks aside; and as many only if it is truthy. */
  lemma FilledTextIsSmall(payload: Json, part: string, sep: char, repr: Json -> string)
    requires TidyPayload(payload) && FindPath(payload, Strip(Strip(part))).Some?
    requires sep !in part && !IsSpace(sep) && Strip(part) != ""
    ensures var text := FilledText(payload, part);
            && sep !in text && Solids(text) <= Solids(part)
            && (text == part <==> Exact(payload, part))
  {
    HoleFills(payload, part, repr);
    var leaf := FoundLeaf(payload, part);
    StripKeeps(LeafText(leaf), IsSpace, sep);
    StripKeeps(Strip(part), IsSpace, sep);
    StripKeeps(part, IsSpace, sep);
    StripKeepsSolids(LeafText(leaf));
    StripKeepsSolids(Strip(part));
    StripKeepsSolids(part);
    StripIsIdentity(part, IsSpace);
  }

  /** The same for every part of a composite. */
  lemma {:induction false} FilledTextsAreSmall(payload: Json, parts: seq<string>, sep: char, repr: Json -> string)
    requires TidyPayload(payload) && PartPaths(payload, parts).Some? && Apart(parts, sep) && !IsSpace(sep)
    ensures forall i :: 0 <= i < |parts| ==>
              var text := FilledText(payload, parts[i]);
              && sep !in text && Solids(text) <= Solids(parts[i])
              && (text == parts[i] <==> Exact(payload, parts[i]))
  {
    if parts != [] {
      PartPathsHead(payload, parts, PartPaths(payload, parts).value);
      FilledTextIsSmall(payload, parts[0], sep, repr);
      assert Apart(parts[1..], sep);
      FilledTextsAreSmall(payload, parts[1..], sep, repr);
      assert forall i :: 0 < i < |parts| ==> parts[i] == parts[1..][i - 1];
    }
  }

  /** A list of smaller parts joins to something smaller. */
  lemma {:induction false} JoinIsMonotone(texts: seq<string>, parts: seq<string>, sep: char)
    requires |texts| == |parts| && !IsSpace(sep)
    requires forall i :: 0 <= i < |parts| ==> Solids(texts[i]) <= Solids(parts[i])
    ensures Solids(Join(texts, sep)) <= Solids(Join(parts, sep))
  {
    if parts != [] {
      JoinSolids(texts, sep);
      JoinSolids(parts, sep);
      JoinIsMonotone(texts[1..], parts[1..], sep);
    }
  }

  lemma JoinSolids(parts: seq<string>, sep: char)
    requires parts != [] && !IsSpace(sep)
    ensures Solids(Join(parts, sep)) ==
            Solids(parts[0]) + if |parts| == 1 then 0 else 1 + Solids(Join(parts[1..], sep))
  {
    if |parts| > 1 {
      SolidsAppend(parts[0] + [sep], Join(parts[1..], sep));
      SolidsAppend(parts[0], [sep]);
      SolidsOfOne(sep);
    }
  }

  /** A trimmed filling with no more characters than the composite, blanks aside, can only be the composite if
      nothing was trimmed. */
  lemma NothingTrimmed(filled: string, composite: string)
    requires Solids(filled) <= Solids(composite) && StripChar(StripChar(filled, ':'), '-') == composite
    ensures filled == composite
  {
    StripCharSolids(filled, ':');
    StripCharSolids(StripChar(filled, ':'), '-');
  }

  /** Smaller texts, joined and trimmed, are the joined parts exactly when they are the parts and nothing is
      trimmed off. */
  lemma TrimmedIsComposite(texts: seq<string>, parts: seq<string>, sep: char, filled: bool)
    requires |texts| == |parts| && parts != [] && Apart(texts, sep) && Apart(parts, sep) && !IsSpace(sep)
    requires forall i :: 0 <= i < |parts| ==> Solids(texts[i]) <= Solids(parts[i])
    requires Join(parts, sep) != "" && (texts == parts ==> filled)
    ensures Trimmed(Filling(Join(texts, sep), filled)) == Some(Join(parts, sep))
            <==> texts == parts && !Edged(Join(parts, sep))
  {
    JoinIsMonotone(texts, parts, sep);
    TrimKeepsUnedged(Join(parts, sep));
    if Trimmed(Filling(Join(texts, sep), filled)) == Some(Join(parts, sep)) {
      NothingTrimmed(Join(texts, sep), Join(parts, sep));
      SplitOfJoin(texts, sep);
      SplitOfJoin(parts, sep);
    }
  }

  /** Every part of the composite comes back exactly. */
  predicate AllExact(payload: Json, parts: seq<string>) {
    forall i :: 0 <= i < |parts| ==> Exact(payload, parts[i])
  }

  lemma AllExactIff(payload: Json, parts: seq<string>, sep: char, repr: Json -> string)
    requires TidyPayload(payload) && PartPaths(payload, parts).Some? && Apart(parts, sep) && !IsSpace(sep)
    requires parts != []
    ensures var texts := FilledTexts(payload, parts);
            && Apart(texts, sep)
            && (forall i :: 0 <= i < |parts| ==> Solids(texts[i]) <= Solids(parts[i]))
            && (texts == parts <==> AllExact(payload, parts))
            && (texts == parts ==> AnyFilled(payload, parts))
  {
    FilledTextsAreSmall(payload, parts, sep, repr);
    if AllExact(payload, parts) {
      assert Exact(payload, parts[0]);
    }
  }

  /** The composite template inverse, for one separator: filling in the inferred template gives the composite
      back exactly when every leaf found is truthy and prints as its part, and the composite neither begins nor
      ends with a colon or a dash. */
  lemma TemplateInverse(payload: Json, composite: string, sep: char, repr: Json -> string)
    requires TidyPayload(payload) && BraceFree([sep]) && !IsSpace(sep)
    requires TemplateFor(payload, composite, sep).Some?
    ensures FillTemplate(payload, TemplateFor(payload, composite, sep).value, repr) == Ok(Some(composite))
            <==> AllExact(payload, Split(composite, sep)) && !Edged(composite)
  {
    var parts := Split(composite, sep);
    TemplateFills(payload, composite, sep, repr);
    JoinOfSplit(composite, sep);
    SplitIsApart(composite, sep);
    AllExactIff(payload, parts, sep, repr);
    TrimmedIsComposite(FilledTexts(payload, parts), parts, sep, AnyFilled(payload, parts));
  }

  lemma {:induction false} SeparatorOfTemplate(payload: Json, composite: string, separators: seq<char>)
      returns (sep: char)
    requires FirstTemplate(payload, composite, separators).Some?
    ensures sep in separators && TemplateFor(payload, composite, sep) == FirstTemplate(payload, composite, separators)
  {
    if TemplateFor(payload, composite, separators[0]).Some? {
      sep := separators[0];
    } else {
      sep := SeparatorOfTemplate(payload, composite, separators[1..]);
    }
  }

  /** The composite template inverse, for the separator that the discoverer settles on. */
  lemma CompositeRoundTrip(payload: Json, composite: string, repr: Json -> string) returns (sep: char)
    requires TidyPayload(payload) && FirstTemplate(payload, composite, SEPARATORS).Some?
    ensures sep in SEPARATORS && FirstTemplate(payload, composite, SEPARATORS) == TemplateFor(payload, composite, sep)
    ensures FillTemplate(payload, FirstTemplate(payload, composite, SEPARATORS).value, repr) == Ok(Some(composite))
            <==> AllExact(payload, Split(composite, sep)) && !Edged(composite)
  {
    sep := SeparatorOfTemplate(payload, composite, SEPARATORS);
    TemplateInverse(payload, composite, sep, repr);
  }

  // ----- Which template, and what is trimmed -----

  lemma {:induction false} PartPathsIff(payload: Json, parts: seq<string>)
    ensures PartPaths(payload, parts).Some? <==>
            forall i :: 0 <= i < |parts| ==>
              Strip(parts[i]) != "" && FindPath(payload, Strip(Strip(parts[i]))).Some?
  {
    if parts != [] {
      PartPathsIff(payload, parts[1..]);
      assert forall i :: 0 < i < |parts| ==> parts[i] == parts[1..][i - 1];
    }
  }

  /** A separator works exactly where it cuts the composite into two, three or four parts, each of which, blanks aside,
      stands in the payload. */
  predicate Works(payload: Json, composite: string, sep: char) {
    var parts := Split(composite, sep);
    && |parts| in {2, 3, 4}
    && forall i :: 0 <= i < |parts| ==> Strip(parts[i]) != "" && FindPath(payload, Strip(Strip(parts[i]))).Some?
  }

  lemma TemplateIff(payload: Json, composite: string, sep: char)
    ensures TemplateFor(payload, composite, sep).Some? <==> Works(payload, composite, sep)
  {
    PartPathsIff(payload, Split(composite, sep));
  }

  /** Of the separators that work the first counts: a colon before a dash before an underscore before a slash. */
  lemma FirstSeparatorWins(payload: Json, composite: string)
    ensures FirstTemplate(payload, composite, SEPARATORS) ==
            if Works(payload, composite, ':') then TemplateFor(payload, composite, ':')
            else if Works(payload, composite, '-') then TemplateFor(payload, composite, '-')
            else if Works(payload, composite, '_') then TemplateFor(payload, composite, '_')
            else if Works(payload, composite, '/') then TemplateFor(payload, composite, '/')
            else None
  {
    TemplateIff(payload, composite, ':');
    TemplateIff(payload, composite, '-');
    TemplateIff(payload, composite, '_');
    TemplateIff(payload, composite, '/');
    assert SEPARATORS[1..] == ['-', '_', '/'] && ['-', '_', '/'][1..] == ['_', '/'];
    assert ['_', '/'][1..] == ['/'] && ['/'][1..] == [];
    assert FirstTemplate(payload, composite, ['/']) == TemplateFor(payload, composite, '/');
    assert FirstTemplate(payload, composite, ['_', '/']) ==
           if Works(payload, composite, '_') then TemplateFor(payload, composite, '_')
           else TemplateFor(payload, composite, '/');
  }

  predicate AllOf(s: string, c: char) {
    forall i :: 0 <= i < |s| ==> s[i] == c
  }

  predicate Meets(s: string, c: char) {
    s != "" && (s[0] == c || s[|s| - 1] == c)
  }

  /** What trimming keeps of a filling: all colons at its ends go, then all dashes, and nothing else; nothing is kept of
      a filling without a value. */
  lemma TrimmedIs(filling: Filling) returns (a: string, b: string, kept: string, c: string, d: string)
    ensures filling.text == a + (b + kept + c) + d
    ensures AllOf(a, ':') && AllOf(d, ':') && !Meets(b + kept + c, ':')
    ensures AllOf(b, '-') && AllOf(c, '-') && !Meets(kept, '-')
    ensures Trimmed(filling) == if filling.hasValue && kept != "" then Some(kept) else None
  {
    a, d := StripIs(filling.text, x => x == ':');
    b, c := StripIs(StripChar(filling.text, ':'), x => x == '-');
    kept := StripChar(StripChar(filling.text, ':'), '-');
  }

  // ----- Payloads on which the inverse fails -----

  /** A leaf under a key of the payload that alone matches its text. */
  ghost predicate OnlyLeaf(payload: Json, key: string, text: string) {
    && CleanKey(key) && Strip(text) != "" && Strip(Strip(text)) == Strip(text)
    && At(payload, [Key(key)]) == Some(Str(text))
    && forall segs :: LeadsTo(payload, segs, Strip(text)) <==> segs == [Key(key)]
  }

  lemma OnlyLeafIsFound(payload: Json, key: string, text: string)
    requires TidyPayload(payload) && OnlyLeaf(payload, key, text)
    ensures FindPath(payload, Strip(text)) == Some("$." + key) && WithoutDollarDot("$." + key) == key
    ensures FoundLeaf(payload, Strip(text)) == Str(text)
  {
    assert [Key(key)][1..] == [] && "." + key + "" == "." + key;
    assert SegsText([Key(key)]) == "." + key;
    assert PathText([Key(key)]) == "$." + key;
    OnlyMatchIsFound(payload, [Key(key)], Strip(text));
    PrintThenResolve(payload, [Key(key)]);
  }

  lemma OneMoreLeaf(payload: Json, key: string, text: string, parts: seq<string>, keys: seq<string>)
    requires TidyPayload(payload) && OnlyLeaf(payload, key, text) && PartPaths(payload, parts) == Some(keys)
    ensures PartPaths(payload, [Strip(text)] + parts) == Some([key] + keys)
    ensures FilledTexts(payload, [Strip(text)] + parts) == [text] + FilledTexts(payload, parts)
    ensures AnyFilled(payload, [Strip(text)] + parts)
  {
    OnlyLeafIsFound(payload, key, text);
    assert ([Strip(text)] + parts)[1..] == parts;
    assert text != "";
    assert Truthy(FoundLeaf(payload, ([Strip(text)] + parts)[0]));
  }

  lemma TwoLeavesFoundFor(payload: Json, key: string, text: string, key': string, text': string)
    requires TidyPayload(payload) && OnlyLeaf(payload, key, text) && OnlyLeaf(payload, key', text')
    ensures PartPaths(payload, [Strip(text), Strip(text')]) == Some([key, key'])
    ensures FilledTexts(payload, [Strip(text), Strip(text')]) == [text, text']
    ensures AnyFilled(payload, [Strip(text), Strip(text')])
  {
    OneMoreLeaf(payload, key', text', [], []);
    assert [Strip(text')] + [] == [Strip(text')] && [key'] + [] == [key'];
    OneMoreLeaf(payload, key, text, [Strip(text')], [key']);
    assert [Strip(text)] + [Strip(text')] == [Strip(text), Strip(text')] && [key] + [key'] == [key, key'];
  }

  /** The template for a composite of two leaves, and what it fills in: the leaves as they stand, trimmed. */
  lemma TwoLeavesFill(payload: Json, key: string, text: string, key': string, text': string, repr: Json -> string)
    requires TidyPayload(payload) && OnlyLeaf(payload, key, text) && OnlyLeaf(payload, key', text')
    requires ':' !in Strip(text) && ':' !in Strip(text')
    ensures var composite, template := Strip(text) + ":" + Strip(text'), Hole(key) + ":" + Hole(key');
            && FirstTemplate(payload, composite, SEPARATORS) == Some(template)
            && FillTemplate(payload, template, repr) == Ok(Trimmed(Filling(text + ":" + text', true)))
  {
    var x, y := Strip(text), Strip(text');
    var composite := x + ":" + y;
    JoinOfTwo(x, y);
    SplitOfJoin([x, y], ':');
    TwoLeavesFoundFor(payload, key, text, key', text');
    assert composite[|x|] == ':';
    assert Holes([key, key']) == [Hole(key), Hole(key')];
    JoinOfTwo(Hole(key), Hole(key'));
    assert TemplateFor(payload, composite, ':') == Some(Hole(key) + ":" + Hole(key'));
    TemplateFills(payload, composite, ':', repr);
    JoinOfTwo(text, text');
  }

  lemma JoinOfTwo(x: string, y: string)
    ensures Join([x, y], ':') == x + ":" + y
  {
    assert [x, y][1..] == [y];
  }

  /** Two string leaves under `a` and `b`. */
  function Pair(a: string, b: string): Json {
    Obj([Member("a", Str(a)), Member("b", Str(b))])
  }

  lemma PairLookup(a: string, b: string, k: string)
    ensures Lookup(Pair(a, b).members, k) == if k == "a" then Some(Str(a)) else if k == "b" then Some(Str(b)) else None
  {
    var last := [Member("b", Str(b))];
    assert Pair(a, b).members[1..] == last;
    OneMember("b", Str(b), k);
  }

  lemma BelowString(v: Json, segs: seq<Seg>)
    requires v.Str?
    ensures At(v, segs) == if segs == [] then Some(v) else None
  {
  }

  lemma PairAt(a: string, b: string, segs: seq<Seg>)
    ensures At(Pair(a, b), segs) ==
            if segs == [] then Some(Pair(a, b)) else if segs == [Key("a")] then Some(Str(a))
            else if segs == [Key("b")] then Some(Str(b)) else None
  {
    if segs != [] {
      assert segs == [segs[0]] + segs[1..];
      BelowString(Str(a), segs[1..]);
      BelowString(Str(b), segs[1..]);
      if segs[0].Key? {
        PairLookup(a, b, segs[0].key);
      }
    }
  }

  lemma PairIsTidy(a: string, b: string)
    ensures TidyPayload(Pair(a, b))
  {
  }

  lemma PairLeaves(a: string, b: string)
    requires Strip(a) != "" && Strip(Strip(a)) == Strip(a) && Strip(b) != "" && Strip(Strip(b)) == Strip(b)
    requires Strip(a) != Strip(b)
    ensures OnlyLeaf(Pair(a, b), "a", a) && OnlyLeaf(Pair(a, b), "b", b)
  {
    forall segs
      ensures LeadsTo(Pair(a, b), segs, Strip(a)) <==> segs == [Key("a")]
      ensures LeadsTo(Pair(a, b), segs, Strip(b)) <==> segs == [Key("b")]
    {
      PairAt(a, b, segs);
    }
    PairAt(a, b, [Key("a")]);
    PairAt(a, b, [Key("b")]);
  }

  lemma Unstripped(s: string)
    requires s != "" && !IsSpace(s[0]) && !IsSpace(s[|s| - 1])
    ensures Strip(s) == s
  {
    StripIsIdentity(s, IsSpace);
  }

  lemma PairFills(a: string, b: string, x: string, y: string, composite: string, result: string, repr: Json -> string)
    requires Strip(a) == x && Strip(b) == y && Strip(x) == x && Strip(y) == y && x != "" && y != "" && x != y
    requires ':' !in x && ':' !in y && composite == x + ":" + y
    requires Trimmed(Filling(a + ":" + b, true)) == Some(result)
    ensures FirstTemplate(Pair(a, b), composite, SEPARATORS) == Some("{a}:{b}")
    ensures FillTemplate(Pair(a, b), "{a}:{b}", repr) == Ok(Some(result))
  {
    PairIsTidy(a, b);
    PairLeaves(a, b);
    TwoLeavesFill(Pair(a, b), "a", a, "b", b, repr);
    assert Hole("a") + ":" + Hole("b") == "{a}:{b}";
  }

  lemma DashIsGone()
    ensures "-A" + ":" + "B" == "-A:B" && Trimmed(Filling("-A:B", true)) == Some("A:B")
    ensures Strip("-A") == "-A" && Strip("B") == "B"
  {
    Unstripped("-A");
    Unstripped("B");
    StripIsIdentity("-A:B", x => x == ':');
    assert "-A:B"[1..] == "A:B";
    StripIsIdentity("A:B", x => x == '-');
  }

  /** A composite that begins with a dash comes back without it. */
  lemma DashIsTrimmed(repr: Json -> string)
    ensures FirstTemplate(Pair("-A", "B"), "-A:B", SEPARATORS) == Some("{a}:{b}")
    ensures FillTemplate(Pair("-A", "B"), "{a}:{b}", repr) == Ok(Some("A:B"))
  {
    DashIsGone();
    PairFills("-A", "B", "-A", "B", "-A:B", "A:B", repr);
  }

  lemma BlankStays()
    ensures "A" + ":" + "B" == "A:B" && "A " + ":" + "B" == "A :B" && Trimmed(Filling("A :B", true)) == Some("A :B")
    ensures Strip("A ") == "A" && Strip("A") == "A" && Strip("B") == "B"
  {
    assert "A "[..1] == "A" && LStrip("A ", IsSpace) == "A ";
    assert RStrip("A", IsSpace) == "A";
    Unstripped("A");
    Unstripped("B");
    TrimKeepsUnedged("A :B");
  }

  /** A leaf with a blank behind it comes back with the blank. */
  lemma BlankComesBack(repr: Json -> string)
    ensures FirstTemplate(Pair("A ", "B"), "A:B", SEPARATORS) == Some("{a}:{b}")
    ensures FillTemplate(Pair("A ", "B"), "{a}:{b}", repr) == Ok(Some("A :B"))
  {
    BlankStays();
    PairFills("A ", "B", "A", "B", "A:B", "A :B", repr);
  }
}
