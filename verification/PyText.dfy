/** The Python string operations that paths, templates and amounts rest on. */
module PyText {
  import opened Prelude

  // ----- Whitespace -----

  /** `c.isspace()`. */
  predicate IsSpace(c: char) {
    var n := c as int;
    if n < 0x85 then 9 <= n <= 13 || 28 <= n <= 32 else IsWideSpace(n)
  }

  predicate IsWideSpace(n: nat) {
    n in {0x85, 0xA0, 0x1680, 0x2028, 0x2029, 0x202F, 0x205F, 0x3000} || 0x2000 <= n <= 0x200A
  }

  function LStrip(s: string, drop: char -> bool): string {
    if s != "" && drop(s[0]) then LStrip(s[1..], drop) else s
  }

  function RStrip(s: string, drop: char -> bool): string {
    if s != "" && drop(s[|s| - 1]) then RStrip(s[..|s| - 1], drop) else s
  }

  function StripOf(s: string, drop: char -> bool): string {
    RStrip(LStrip(s, drop), drop)
  }

  /** `s.strip()`. */
  function Strip(s: string): string {
    StripOf(s, IsSpace)
  }

  /** `s.strip(c)` for a one-character `c`. */
  function StripChar(s: string, c: char): string {
    StripOf(s, x => x == c)
  }

  lemma LStripShorter(s: string, drop: char -> bool)
    ensures |LStrip(s, drop)| <= |s|
    ensures LStrip(s, drop) == s <==> s == "" || !drop(s[0])
    ensures |LStrip(s, drop)| == |s| ==> LStrip(s, drop) == s
  {
  }

  lemma RStripShorter(s: string, drop: char -> bool)
    ensures |RStrip(s, drop)| <= |s|
    ensures RStrip(s, drop) == s <==> s == "" || !drop(s[|s| - 1])
    ensures |RStrip(s, drop)| == |s| ==> RStrip(s, drop) == s
  {
  }

  /** Stripping leaves a string alone exactly when neither end is to be dropped. */
  lemma StripIsIdentity(s: string, drop: char -> bool)
    ensures |StripOf(s, drop)| <= |s|
    ensures |StripOf(s, drop)| == |s| ==> StripOf(s, drop) == s
    ensures StripOf(s, drop) == s <==> s == "" || (!drop(s[0]) && !drop(s[|s| - 1]))
  {
    LStripShorter(s, drop);
    RStripShorter(LStrip(s, drop), drop);
  }

  lemma {:induction false} LStripIs(s: string, drop: char -> bool) returns (lead: string)
    ensures s == lead + LStrip(s, drop) && forall i :: 0 <= i < |lead| ==> drop(lead[i])
  {
    if s != "" && drop(s[0]) {
      var rest := LStripIs(s[1..], drop);
      lead := [s[0]] + rest;
    } else {
      lead := "";
    }
  }

  lemma {:induction false} RStripIs(s: string, drop: char -> bool) returns (trail: string)
    ensures s == RStrip(s, drop) + trail && forall i :: 0 <= i < |trail| ==> drop(trail[i])
  {
    if s != "" && drop(s[|s| - 1]) {
      var rest := RStripIs(s[..|s| - 1], drop);
      trail := rest + [s[|s| - 1]];
    } else {
      trail := "";
    }
  }

  /** Stripping takes away what is to be dropped at both ends, all of it and nothing else. */
  lemma StripIs(s: string, drop: char -> bool) returns (lead: string, trail: string)
    ensures s == lead + StripOf(s, drop) + trail
    ensures forall i :: 0 <= i < |lead| ==> drop(lead[i])
    ensures forall i :: 0 <= i < |trail| ==> drop(trail[i])
    ensures var kept := StripOf(s, drop); kept != "" ==> !drop(kept[0]) && !drop(kept[|kept| - 1])
  {
    lead := LStripIs(s, drop);
    trail := RStripIs(LStrip(s, drop), drop);
    LStripEnd(s, drop);
    RStripEnds(LStrip(s, drop), drop);
  }

  lemma {:induction false} LStripEnd(s: string, drop: char -> bool)
    ensures LStrip(s, drop) == "" || !drop(LStrip(s, drop)[0])
  {
    if s != "" && drop(s[0]) {
      LStripEnd(s[1..], drop);
    }
  }

  lemma {:induction false} RStripEnds(s: string, drop: char -> bool)
    ensures RStrip(s, drop) <= s
    ensures RStrip(s, drop) == "" || !drop(RStrip(s, drop)[|RStrip(s, drop)| - 1])
  {
    if s != "" && drop(s[|s| - 1]) {
      RStripEnds(s[..|s| - 1], drop);
    }
  }

  /** A stripped string is its own stripped form. */
  lemma StripTwice(s: string)
    ensures Strip(Strip(s)) == Strip(s)
  {
    LStripEnd(s, IsSpace);
    RStripEnds(LStrip(s, IsSpace), IsSpace);
    StripIsIdentity(Strip(s), IsSpace);
  }

  lemma {:induction false} LStripKeeps(s: string, drop: char -> bool, c: char)
    ensures c in LStrip(s, drop) ==> c in s
    ensures c in s && !drop(c) ==> c in LStrip(s, drop)
  {
    if s != "" && drop(s[0]) {
      LStripKeeps(s[1..], drop, c);
    }
  }

  lemma {:induction false} RStripKeeps(s: string, drop: char -> bool, c: char)
    ensures c in RStrip(s, drop) ==> c in s
    ensures c in s && !drop(c) ==> c in RStrip(s, drop)
  {
    if s != "" && drop(s[|s| - 1]) {
      RStripKeeps(s[..|s| - 1], drop, c);
    }
  }

  /** Stripping adds no character, and loses only characters that are to be dropped. */
  lemma StripKeeps(s: string, drop: char -> bool, c: char)
    ensures c in StripOf(s, drop) ==> c in s
    ensures c in s && !drop(c) ==> c in StripOf(s, drop)
  {
    LStripKeeps(s, drop, c);
    RStripKeeps(LStrip(s, drop), drop, c);
  }

  /** How many characters are no whitespace. */
  function Solids(s: string): nat {
    if s == "" then 0 else Solids(s[..|s| - 1]) + if IsSpace(s[|s| - 1]) then 0 else 1
  }

  lemma {:induction false} SolidsAppend(a: string, b: string)
    ensures Solids(a + b) == Solids(a) + Solids(b)
  {
    if b == "" {
      assert a + b == a;
    } else {
      assert (a + b)[..|a + b| - 1] == a + b[..|b| - 1];
      SolidsAppend(a, b[..|b| - 1]);
    }
  }

  lemma SolidsOfOne(c: char)
    ensures Solids([c]) == if IsSpace(c) then 0 else 1
  {
    assert [c][..0] == "";
  }

  /** What a strip that drops only whitespace, or none of it, does to the number of other characters. */
  lemma {:induction false} LStripSolids(s: string, drop: char -> bool)
    ensures (forall c :: drop(c) ==> IsSpace(c)) ==> Solids(LStrip(s, drop)) == Solids(s)
    ensures (forall c :: drop(c) ==> !IsSpace(c)) ==> Solids(LStrip(s, drop)) + |s| == Solids(s) + |LStrip(s, drop)|
  {
    if s != "" && drop(s[0]) {
      assert s == [s[0]] + s[1..];
      SolidsAppend([s[0]], s[1..]);
      SolidsOfOne(s[0]);
      LStripSolids(s[1..], drop);
    }
  }

  lemma {:induction false} RStripSolids(s: string, drop: char -> bool)
    ensures (forall c :: drop(c) ==> IsSpace(c)) ==> Solids(RStrip(s, drop)) == Solids(s)
    ensures (forall c :: drop(c) ==> !IsSpace(c)) ==> Solids(RStrip(s, drop)) + |s| == Solids(s) + |RStrip(s, drop)|
  {
    if s != "" && drop(s[|s| - 1]) {
      RStripSolids(s[..|s| - 1], drop);
    }
  }

  lemma StripKeepsSolids(s: string)
    ensures Solids(Strip(s)) == Solids(s)
  {
    LStripSolids(s, IsSpace);
    RStripSolids(LStrip(s, IsSpace), IsSpace);
  }

  lemma StripCharSolids(s: string, c: char)
    requires !IsSpace(c)
    ensures Solids(StripChar(s, c)) + |s| == Solids(s) + |StripChar(s, c)|
    ensures |StripChar(s, c)| <= |s| && (|StripChar(s, c)| == |s| ==> StripChar(s, c) == s)
  {
    var drop := (x: char) => x == c;
    LStripSolids(s, drop);
    RStripSolids(LStrip(s, drop), drop);
    StripIsIdentity(s, drop);
  }

  // ----- Decimal numbers -----

  predicate IsDigit(c: char) {
    '0' <= c <= '9'
  }

  function DigitValue(c: char): nat
    requires IsDigit(c)
  {
    c as int - '0' as int
  }

  function Digit(n: nat): (c: char)
    requires n < 10
    ensures IsDigit(c) && DigitValue(c) == n
  {
    ('0' as int + n) as char
  }

  predicate AllDigits(s: string) {
    forall i :: 0 <= i < |s| ==> IsDigit(s[i])
  }

  /** The number that a string of digits denotes. */
  function Value(s: string): nat
    requires AllDigits(s)
  {
    if s == "" then 0 else 10 * Value(s[..|s| - 1]) + DigitValue(s[|s| - 1])
  }

  /** `str(n)` of a natural number. */
  function Decimal(n: nat): (s: string)
    ensures s != "" && AllDigits(s)
  {
    if n < 10 then [Digit(n)] else Decimal(n / 10) + [Digit(n % 10)]
  }

  lemma {:induction false} ValueOfDecimal(n: nat)
    ensures Value(Decimal(n)) == n
  {
    if n >= 10 {
      ValueOfDecimal(n / 10);
      assert Decimal(n)[..|Decimal(n)| - 1] == Decimal(n / 10);
    }
  }

  function Power10(k: nat): nat {
    if k == 0 then 1 else 10 * Power10(k - 1)
  }

  lemma Tenfold(n: nat, power: nat)
    ensures n * (10 * power) == 10 * (n * power)
  {
  }

  lemma {:induction false} ValueAppend(a: string, b: string)
    requires AllDigits(a) && AllDigits(b)
    ensures AllDigits(a + b)
    ensures Value(a + b) == Value(a) * Power10(|b|) + Value(b)
  {
    if b == "" {
      assert a + b == a;
    } else {
      var b' := b[..|b| - 1];
      ValueAppend(a, b');
      assert (a + b)[..|a + b| - 1] == a + b';
      Tenfold(Value(a), Power10(|b'|));
      assert Value(a + b) == 10 * (Value(a) * Power10(|b'|) + Value(b')) + DigitValue(b[|b| - 1]);
    }
  }

  /** The number that `int` reads from the digits of its argument, where an underscore may stand singly
      between two digits. */
  function ReadDigits(s: string): Option<nat> {
    if s == "" || !IsDigit(s[|s| - 1]) then None
    else if |s| == 1 then Some(DigitValue(s[0]))
    else
      var front := if s[|s| - 2] == '_' then s[..|s| - 2] else s[..|s| - 1];
      match ReadDigits(front)
      case None => None
      case Some(n) => Some(10 * n + DigitValue(s[|s| - 1]))
  }

  lemma {:induction false} ReadDigitsOfDigits(s: string)
    requires AllDigits(s) && s != ""
    ensures ReadDigits(s) == Some(Value(s))
  {
    if |s| == 1 {
      assert s[..0] == "";
    } else {
      ReadDigitsOfDigits(s[..|s| - 1]);
    }
  }

  lemma {:induction false} ReadDigitsRejects(s: string, i: nat)
    requires i < |s| && !IsDigit(s[i]) && s[i] != '_'
    ensures ReadDigits(s) == None
  {
    if IsDigit(s[|s| - 1]) && |s| > 1 {
      ReadDigitsRejects(if s[|s| - 2] == '_' then s[..|s| - 2] else s[..|s| - 1], i);
    }
  }

  /** The integer that a text spells, however long it is. */
  function Numeral(s: string): Option<int> {
    var t := Strip(s);
    var signed := t != "" && (t[0] == '-' || t[0] == '+');
    match ReadDigits(if signed then t[1..] else t)
    case None => None
    case Some(n) =>
      var value: int := n;
      Some(if signed && t[0] == '-' then -value else value)
  }

  lemma DigitsHaveNoEdges(s: string)
    requires AllDigits(s)
    ensures Strip(s) == s
  {
    StripIsIdentity(s, IsSpace);
  }

  /** A sign in front of digits is read, a minus as one. */
  lemma SignedNumeral(sign: char, digits: string)
    requires (sign == '-' || sign == '+') && AllDigits(digits) && digits != ""
    ensures Numeral([sign] + digits) == Some(if sign == '-' then 0 - Value(digits) else Value(digits))
  {
    var s := [sign] + digits;
    StripIsIdentity(s, IsSpace);
    assert s[1..] == digits;
    ReadDigitsOfDigits(digits);
  }

  lemma NumeralOfDigits(s: string)
    requires AllDigits(s)
    ensures Numeral(s) == if s == "" then None else Some(Value(s))
  {
    DigitsHaveNoEdges(s);
    if s != "" {
      ReadDigitsOfDigits(s);
    }
  }

  lemma NumeralOfDecimal(n: nat)
    ensures Numeral(Decimal(n)) == Some(n)
  {
    NumeralOfDigits(Decimal(n));
    ValueOfDecimal(n);
  }

  /** A closing bracket anywhere between two digits spells no number. */
  lemma NumeralRejects(s: string, i: nat)
    requires 0 < i < |s| - 1 && s[i] == ']' && IsDigit(s[0]) && IsDigit(s[|s| - 1])
    ensures Numeral(s) == None
  {
    StripIsIdentity(s, IsSpace);
    ReadDigitsRejects(s, i);
  }

  /** `sys.int_info.default_max_str_digits`. */
  const MAX_INT_DIGITS := 4300

  function DigitCount(s: string): (n: nat)
    ensures n <= |s|
  {
    if s == "" then 0 else (if IsDigit(s[0]) then 1 else 0) + DigitCount(s[1..])
  }

  /** `int(s)`, or None where it raises ValueError, as it does on more digits than the interpreter allows. */
  function PyInt(s: string): Option<int> {
    if DigitCount(s) > MAX_INT_DIGITS then None else Numeral(s)
  }

  lemma {:induction false} DigitCountOfDigits(s: string)
    requires AllDigits(s)
    ensures DigitCount(s) == |s|
  {
    if s != "" {
      DigitCountOfDigits(s[1..]);
    }
  }

  /** `int` reads a string of up to 4300 digits as the number it denotes, and no other string of digits. */
  lemma PyIntOfDigits(s: string)
    requires AllDigits(s)
    ensures PyInt(s) == if s == "" || |s| > MAX_INT_DIGITS then None else Some(Value(s))
  {
    DigitCountOfDigits(s);
    NumeralOfDigits(s);
  }

  // ----- Searching -----

  /** `s.find(c)`. */
  function IndexOf(s: string, c: char): (r: Option<nat>)
    ensures r.Some? ==> r.value < |s| && s[r.value] == c && forall i :: 0 <= i < r.value ==> s[i] != c
    ensures r.None? ==> forall i :: 0 <= i < |s| ==> s[i] != c
  {
    if s == "" then None
    else if s[0] == c then Some(0)
    else
      var rest := IndexOf(s[1..], c);
      if rest.Some? then Some(rest.value + 1) else None
  }

  lemma IndexOfIs(s: string, c: char, i: nat)
    requires i < |s| && s[i] == c && forall j :: 0 <= j < i ==> s[j] != c
    ensures IndexOf(s, c) == Some(i)
  {
  }

  predicate StartsWith(s: string, prefix: string) {
    prefix <= s
  }

  predicate EndsWith(s: string, suffix: string) {
    |suffix| <= |s| && s[|s| - |suffix|..] == suffix
  }
}
