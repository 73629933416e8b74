/** `parse_money`: a vendor's money string to a currency and an integer number of minor units. */
module Money {
  import opened Prelude
  import opened PyText

  // ----- The currency -----

  predicate IsUpper(c: char) {
    'A' <= c <= 'Z'
  }

  /** `\w`, on ASCII. */
  predicate IsWord(c: char) {
    IsUpper(c) || 'a' <= c <= 'z' || IsDigit(c) || c == '_'
  }

  /** The pattern `\b[A-Z]{3}\b` matches at `i`. */
  predicate CodeAt(s: string, i: nat) {
    && i + 3 <= |s| && IsUpper(s[i]) && IsUpper(s[i + 1]) && IsUpper(s[i + 2])
    && (i > 0 ==> !IsWord(s[i - 1])) && (i + 3 < |s| ==> !IsWord(s[i + 3]))
  }

  function FindCode(s: string, from: nat): (r: Option<nat>)
    requires from <= |s|
    ensures r.Some? ==> CodeAt(s, r.value)
    decreases |s| - from
  {
    if CodeAt(s, from) then Some(from)
    else if from == |s| then None
    else FindCode(s, from + 1)
  }

  /** `s.replace(code, "")` for a three-letter code. */
  function RemoveCode(s: string, code: string): string
    requires |code| == 3
  {
    if |s| < 3 then s
    else if s[..3] == code then RemoveCode(s[3..], code)
    else [s[0]] + RemoveCode(s[1..], code)
  }

  // ----- The number -----

  predicate IsSeparator(c: char) {
    c == '.' || c == ','
  }

  /** `re.sub(r"[^0-9.,\-]", "", s)`. */
  function NumberText(s: string): string {
    if s == "" then ""
    else (if IsDigit(s[0]) || IsSeparator(s[0]) || s[0] == '-' then [s[0]] else "") + NumberText(s[1..])
  }

  /** `s.replace(c, "")`. */
  function Without(s: string, c: char): string {
    if s == "" then "" else (if s[0] == c then "" else [s[0]]) + Without(s[1..], c)
  }

  /** `max(s.rfind("."), s.rfind(","))`. */
  function LastSeparator(s: string): (r: int)
    ensures -1 <= r < |s|
    ensures r >= 0 ==> IsSeparator(s[r])
    ensures forall i :: r < i < |s| ==> !IsSeparator(s[i])
  {
    if s == "" then -1
    else if IsSeparator(s[|s| - 1]) then |s| - 1
    else LastSeparator(s[..|s| - 1])
  }

  /** `s.ljust(2, "0")[:2]`. */
  function TwoDigits(s: string): string {
    if |s| == 0 then "00" else if |s| == 1 then s + "0" else s[..2]
  }

  function OrRaise(n: Option<int>): Result<int> {
    if n.Some? then Ok(n.value) else Raised
  }

  /** From the filtered text to minor units. */
  function MinorUnits(digits: string): Result<int> {
    if digits == "" then Raised
    else
      var pos := LastSeparator(digits);
      if pos == -1 then Hundredfold(PyInt(digits))
      else if |digits| - pos - 1 != 1 && |digits| - pos - 1 != 2 then JoinedUnits(digits)
      else DecimalUnits(digits, pos)
  }

  function Hundredfold(n: Option<int>): Result<int> {
    if n.Some? then Ok(n.value * 100) else Raised
  }

  /** Every separator separates thousands. */
  function JoinedUnits(digits: string): Result<int> {
    var joined := Without(Without(digits, ','), '.');
    if joined == "" || !AllDigits(joined) then Raised else Hundredfold(PyInt(joined))
  }

  /** The last separator is the decimal point. */
  function DecimalUnits(digits: string, pos: nat): Result<int>
    requires pos < |digits|
  {
    var sep := digits[pos];
    var other := if sep == '.' then ',' else '.';
    MajorAndMinor(Without(Without(digits[..pos], other), sep), TwoDigits(digits[pos + 1..]))
  }

  function MajorAndMinor(integer: string, cents: string): Result<int> {
    var major :- if integer == "" then Ok(0) else OrRaise(PyInt(integer));
    var minor :- OrRaise(PyInt(cents));
    Ok(major * 100 + minor)
  }

  /** `parse_money`; a ValueError is Raised. */
  function ParseMoney(value: string): Result<(string, int)> {
    var s := Strip(value);
    if s == "" then Raised
    else
      var (currency, text) := SplitCurrency(s);
      var minor :- MinorUnits(NumberText(text));
      Ok((currency, minor))
  }

  /** The currency, and what is left of `s` without its code. */
  function SplitCurrency(s: string): (string, string)
    requires s != ""
  {
    match FindCode(s, 0)
    case Some(i) => (s[i..i + 3], RemoveCode(s, s[i..i + 3]))
    case None =>
      (if s[0] == '\U{20AC}' then "EUR" else if s[0] == '\U{A3}' then "GBP" else "USD", s)
  }

  // ----- What the digits mean -----

  /** Digits and separators only. */
  predicate Plain(s: string) {
    forall i :: 0 <= i < |s| ==> IsDigit(s[i]) || IsSeparator(s[i])
  }

  function DigitsOf(s: string): (r: string)
    requires Plain(s)
    ensures AllDigits(r)
  {
    if s == "" then "" else (if IsDigit(s[0]) then [s[0]] else "") + DigitsOf(s[1..])
  }

  lemma {:induction false} DigitsOfAppend(a: string, b: string)
    requires Plain(a) && Plain(b)
    ensures Plain(a + b) && DigitsOf(a + b) == DigitsOf(a) + DigitsOf(b)
  {
    if a == "" {
      assert a + b == b && "" + DigitsOf(b) == DigitsOf(b);
    } else {
      var head := if IsDigit(a[0]) then [a[0]] else "";
      DigitsOfAppend(a[1..], b);
      assert (a + b)[1..] == a[1..] + b && (a + b)[0] == a[0];
      assert head + (DigitsOf(a[1..]) + DigitsOf(b)) == (head + DigitsOf(a[1..])) + DigitsOf(b);
    }
  }

  lemma {:induction false} DigitsOfDigits(s: string)
    requires AllDigits(s)
    ensures Plain(s) && DigitsOf(s) == s
  {
    if s != "" {
      DigitsOfDigits(s[1..]);
    }
  }

  lemma {:induction false} WithoutSeparators(s: string, a: char, b: char)
    requires Plain(s) && {a, b} == {'.', ','}
    ensures Without(Without(s, a), b) == DigitsOf(s)
  {
    if s != "" {
      WithoutSeparators(s[1..], a, b);
      assert a in {a, b} && b in {a, b} && '.' in {a, b} && ',' in {a, b};
      if s[0] == a {
        assert "" + Without(s[1..], a) == Without(s[1..], a);
      } else {
        assert Without(s, a)[1..] == Without(s[1..], a);
      }
    }
  }

  /** How many digits a plain text puts behind the decimal point: those behind its last separator when
      there are one or two of them, and none otherwise. */
  function Decimals(s: string): nat {
    var pos := LastSeparator(s);
    var k := |s| - pos - 1;
    if pos >= 0 && (k == 1 || k == 2) then k else 0
  }

  /** One or two digits, padded to two, are hundredths. */
  lemma Hundredths(fractional: string)
    requires AllDigits(fractional) && 1 <= |fractional| <= 2
    ensures AllDigits(TwoDigits(fractional))
    ensures Value(TwoDigits(fractional)) == if |fractional| == 1 then 10 * Value(fractional) else Value(fractional)
  {
    if |fractional| == 1 {
      var padded := fractional + "0";
      assert padded[..1] == fractional && padded[1] == '0';
    } else {
      assert fractional[..2] == fractional;
    }
  }

  lemma MajorAndMinorIs(integer: string, cents: string, n: int)
    requires AllDigits(integer) && AllDigits(cents) && 0 < |cents| <= 2
    requires Value(integer) * 100 + Value(cents) == n
    ensures MajorAndMinor(integer, cents) == if |integer| > MAX_INT_DIGITS then Raised else Ok(n)
  {
    PyIntOfDigits(integer);
    PyIntOfDigits(cents);
  }

  lemma DigitsAround(s: string, pos: nat)
    requires Plain(s) && pos < |s| && IsSeparator(s[pos]) && AllDigits(s[pos + 1..])
    ensures DigitsOf(s) == DigitsOf(s[..pos]) + s[pos + 1..]
  {
    var tail := s[pos..];
    assert tail[1..] == s[pos + 1..] && "" + tail[1..] == tail[1..];
    DigitsOfDigits(tail[1..]);
    assert s == s[..pos] + tail;
    DigitsOfAppend(s[..pos], tail);
  }

  lemma ValueAround(integer: string, fractional: string)
    requires AllDigits(integer) && AllDigits(fractional) && 1 <= |fractional| <= 2
    ensures Value(integer + fractional) ==
            (if |fractional| == 1 then Value(integer) * 10 else Value(integer) * 100) + Value(fractional)
  {
    ValueAppend(integer, fractional);
    assert Power10(1) == 10 && Power10(2) == 10 * Power10(1);
  }

  lemma PartsOfDecimal(s: string, pos: nat)
    requires Plain(s) && pos < |s| && IsSeparator(s[pos])
    ensures DecimalUnits(s, pos) == MajorAndMinor(DigitsOf(s[..pos]), TwoDigits(s[pos + 1..]))
  {
    WithoutSeparators(s[..pos], if s[pos] == '.' then ',' else '.', s[pos]);
  }

  lemma PaddedUnits(integer: string, fractional: string, digits: string)
    requires AllDigits(integer) && AllDigits(fractional) && 1 <= |fractional| <= 2 && digits == integer + fractional
    ensures AllDigits(digits)
    ensures MajorAndMinor(integer, TwoDigits(fractional)) ==
            if |integer| > MAX_INT_DIGITS then Raised
            else Ok(if |fractional| == 1 then Value(digits) * 10 else Value(digits))
  {
    Hundredths(fractional);
    ValueAround(integer, fractional);
    MajorAndMinorIs(integer, TwoDigits(fractional), if |fractional| == 1 then Value(digits) * 10 else Value(digits));
  }

  lemma JoinedOfPlain(s: string)
    requires Plain(s) && DigitsOf(s) != ""
    ensures JoinedUnits(s) ==
            if |DigitsOf(s)| > MAX_INT_DIGITS then Raised else Ok(Value(DigitsOf(s)) * 100)
  {
    WithoutSeparators(s, ',', '.');
    PyIntOfDigits(DigitsOf(s));
  }

  lemma DecimalOfPlain(s: string, pos: nat)
    requires Plain(s) && pos < |s| && IsSeparator(s[pos]) && AllDigits(s[pos + 1..]) && 1 <= |s| - pos - 1 <= 2
    ensures DecimalUnits(s, pos) ==
            if |DigitsOf(s)| - (|s| - pos - 1) > MAX_INT_DIGITS then Raised
            else Ok(if |s| - pos - 1 == 1 then Value(DigitsOf(s)) * 10 else Value(DigitsOf(s)))
  {
    PartsOfDecimal(s, pos);
    DigitsAround(s, pos);
    PaddedUnits(DigitsOf(s[..pos]), s[pos + 1..], DigitsOf(s));
  }

  lemma ScaledBy(n: nat)
    ensures n * Power10(0) == n && n * Power10(1) == n * 10 && n * Power10(2) == n * 100
  {
    assert Power10(0) == 1 && Power10(1) == 10 && Power10(2) == 100;
  }

  lemma WholeOfPlain(s: string)
    requires Plain(s) && DigitsOf(s) != "" && LastSeparator(s) == -1
    ensures MinorUnits(s) == if |DigitsOf(s)| > MAX_INT_DIGITS then Raised else Ok(Value(DigitsOf(s)) * 100)
  {
    DigitsOfDigits(s);
    PyIntOfDigits(s);
  }

  lemma DigitsBehindLast(s: string)
    requires Plain(s) && LastSeparator(s) >= 0
    ensures AllDigits(s[LastSeparator(s) + 1..])
  {
    var pos := LastSeparator(s);
    var tail := s[pos + 1..];
    forall i | 0 <= i < |tail|
      ensures IsDigit(tail[i])
    {
      assert tail[i] == s[pos + 1 + i] && !IsSeparator(s[pos + 1 + i]);
    }
  }

  /** Money refinement: a text of digits and separators with at least one digit is the number that its digits
      spell, scaled by the digits behind the last separator when there are one or two of them, unless it has more
      digits before them than `int` takes. */
  lemma MinorUnitsOfPlain(s: string)
    requires Plain(s) && DigitsOf(s) != ""
    ensures MinorUnits(s) ==
            if |DigitsOf(s)| - Decimals(s) > MAX_INT_DIGITS then Raised
            else Ok(Value(DigitsOf(s)) * Power10(2 - Decimals(s)))
  {
    var pos := LastSeparator(s);
    ScaledBy(Value(DigitsOf(s)));
    if pos == -1 {
      WholeOfPlain(s);
    } else if |s| - pos - 1 != 1 && |s| - pos - 1 != 2 {
      JoinedOfPlain(s);
    } else {
      DigitsBehindLast(s);
      DecimalOfPlain(s, pos);
    }
  }

  // ----- Printing -----

  /** Thousands grouped with `group`. */
  function Group(digits: string, group: char): string {
    if |digits| <= 3 then digits else Group(digits[..|digits| - 3], group) + [group] + digits[|digits| - 3..]
  }

  /** `n` minor units with two decimals: `Print(n, ',', '.')` is the US style, `Print(n, '.', ',')` the
      European one. */
  function Print(n: nat, group: char, point: char): string {
    Group(Decimal(n / 100), group) + [point] + [Digit(n % 100 / 10), Digit(n % 10)]
  }

  lemma DigitsAcross(front: string, group: char, tail: string)
    requires Plain(front) && IsSeparator(group) && AllDigits(tail)
    ensures Plain(front + [group] + tail) && DigitsOf(front + [group] + tail) == DigitsOf(front) + tail
  {
    DigitsOfDigits(tail);
    DigitsOfAppend(front, [group]);
    DigitsOfAppend(front + [group], tail);
    assert [group][1..] == "";
    assert DigitsOf([group]) == "" + "" == "";
    assert DigitsOf(front) + "" == DigitsOf(front);
  }

  lemma {:induction false} GroupKeepsDigits(digits: string, group: char)
    requires AllDigits(digits) && IsSeparator(group)
    ensures Plain(Group(digits, group)) && DigitsOf(Group(digits, group)) == digits
    ensures digits != "" ==> Group(digits, group) != ""
  {
    if |digits| <= 3 {
      DigitsOfDigits(digits);
    } else {
      var front, tail := digits[..|digits| - 3], digits[|digits| - 3..];
      GroupKeepsDigits(front, group);
      DigitsAcross(Group(front, group), group, tail);
      assert digits == front + tail;
    }
  }

  lemma CentsValue(m: nat)
    requires m < 100
    ensures AllDigits([Digit(m / 10), Digit(m % 10)]) && Value([Digit(m / 10), Digit(m % 10)]) == m
  {
    var cents := [Digit(m / 10), Digit(m % 10)];
    assert cents[..1] == [Digit(m / 10)] && cents[..1][..0] == "";
    assert Value(cents[..1]) == m / 10;
  }

  lemma PrintIsPlain(n: nat, group: char, point: char)
    requires IsSeparator(group) && IsSeparator(point)
    ensures var text := Print(n, group, point);
            && Plain(text)
            && DigitsOf(text) == Decimal(n / 100) + [Digit(n % 100 / 10), Digit(n % 10)]
  {
    var whole, cents := Decimal(n / 100), [Digit(n % 100 / 10), Digit(n % 10)];
    var text := Print(n, group, point);
    var pos := |Group(whole, group)|;
    GroupKeepsDigits(whole, group);
    assert text[pos + 1..] == cents && text[..pos] == Group(whole, group);
    DigitsAround(text, pos);
  }

  lemma DigitBehind(n: nat, tens: nat, digit: nat)
    requires n == 10 * tens + digit && digit < 10
    ensures n % 10 == digit
  {
  }

  lemma LastDigit(n: nat)
    ensures n % 100 % 10 == n % 10
  {
    DigitBehind(n, 10 * (n / 100) + n % 100 / 10, n % 100 % 10);
  }

  lemma WithCents(whole: nat, cents: nat)
    requires cents < 100
    ensures Value(Decimal(whole) + [Digit(cents / 10), Digit(cents % 10)]) == whole * 100 + cents
  {
    CentsValue(cents);
    ValueOfDecimal(whole);
    ValueAppend(Decimal(whole), [Digit(cents / 10), Digit(cents % 10)]);
    ScaledBy(whole);
  }

  lemma PrintedValue(n: nat)
    ensures Value(Decimal(n / 100) + [Digit(n % 100 / 10), Digit(n % 10)]) == n
  {
    WithCents(n / 100, n % 100);
    LastDigit(n);
  }

  lemma PrintedDecimals(n: nat, group: char, point: char)
    requires IsSeparator(group) && IsSeparator(point)
    ensures Decimals(Print(n, group, point)) == 2
  {
    var text := Print(n, group, point);
    LastSeparatorIs(text, |text| - 3);
  }

  lemma PrintedDigits(n: nat, group: char, point: char)
    requires IsSeparator(group) && IsSeparator(point)
    ensures var text := Print(n, group, point);
            && Plain(text) && |DigitsOf(text)| == |Decimal(n / 100)| + 2
            && Value(DigitsOf(text)) == n && Decimals(text) == 2
  {
    PrintIsPlain(n, group, point);
    PrintedValue(n);
    PrintedDecimals(n, group, point);
  }

  lemma {:induction false} LastSeparatorIs(s: string, pos: nat)
    requires pos < |s| && IsSeparator(s[pos]) && forall i :: pos < i < |s| ==> !IsSeparator(s[i])
    ensures LastSeparator(s) == pos
  {
    assert LastSeparator(s) >= pos;
  }

  /** A money string that carries no code. */
  predicate CodeFree(s: string) {
    forall i :: 0 <= i < |s| ==> !IsUpper(s[i])
  }

  lemma {:induction false} NoCodeFound(s: string, from: nat)
    requires from <= |s| && CodeFree(s)
    ensures FindCode(s, from) == None
    decreases |s| - from
  {
    if from < |s| {
      NoCodeFound(s, from + 1);
    }
  }

  lemma {:induction false} NoCodeRemoved(s: string, code: string)
    requires |code| == 3 && IsUpper(code[0]) && CodeFree(s)
    ensures RemoveCode(s, code) == s
  {
    if |s| >= 3 {
      assert s[..3][0] == s[0];
      NoCodeRemoved(s[1..], code);
    }
  }

  lemma {:induction false} NumberTextOfPlain(s: string)
    requires Plain(s)
    ensures NumberText(s) == s
  {
    if s != "" {
      NumberTextOfPlain(s[1..]);
    }
  }

  predicate IsCode(code: string) {
    |code| == 3 && IsUpper(code[0]) && IsUpper(code[1]) && IsUpper(code[2])
  }

  /** An amount whose major units `int` can read: less than 10^4300 of them. */
  predicate Readable(n: nat) {
    |Decimal(n / 100)| <= MAX_INT_DIGITS
  }

  lemma MinorUnitsOfPrint(n: nat, group: char, point: char)
    requires IsSeparator(group) && IsSeparator(point)
    ensures MinorUnits(Print(n, group, point)) == if Readable(n) then Ok(n) else Raised
  {
    PrintedDigits(n, group, point);
    UnscaledMinorUnits(Print(n, group, point));
  }

  lemma UnscaledMinorUnits(s: string)
    requires Plain(s) && DigitsOf(s) != "" && Decimals(s) == 2
    ensures MinorUnits(s) == if |DigitsOf(s)| - 2 > MAX_INT_DIGITS then Raised else Ok(Value(DigitsOf(s)))
  {
    var pos := LastSeparator(s);
    DigitsBehindLast(s);
    DecimalOfPlain(s, pos);
  }

  lemma AmountOfPrint(n: nat, group: char, point: char)
    requires IsSeparator(group) && IsSeparator(point)
    ensures Plain(Print(n, group, point))
    ensures MinorUnits(NumberText(Print(n, group, point))) == if Readable(n) then Ok(n) else Raised
  {
    PrintIsPlain(n, group, point);
    NumberTextOfPlain(Print(n, group, point));
    MinorUnitsOfPrint(n, group, point);
  }

  lemma PrintEndsInDigit(n: nat, group: char, point: char)
    ensures var text := Print(n, group, point);
            text != "" && IsDigit(text[|text| - 1])
  {
    var text := Print(n, group, point);
    assert text[|text| - 1] == Digit(n % 10);
  }

  lemma SplitAfterCode(code: string, tail: string)
    requires IsCode(code) && CodeFree(tail) && tail != "" && !IsWord(tail[0])
    ensures SplitCurrency(code + tail) == (code, tail)
  {
    var value := code + tail;
    assert CodeAt(value, 0) && FindCode(value, 0) == Some(0);
    assert value[0..0 + 3] == code && value[..3] == code && value[3..] == tail;
    NoCodeRemoved(tail, code);
  }

  lemma EdgesKept(s: string)
    requires s != "" && !IsSpace(s[0]) && !IsSpace(s[|s| - 1])
    ensures Strip(s) == s
  {
    StripIsIdentity(s, IsSpace);
  }

  predicate IsSymbol(c: char) {
    c == '$' || c == '\U{20AC}' || c == '\U{A3}'
  }

  function SymbolCurrency(c: char): string {
    if c == '$' then "USD" else if c == '\U{A3}' then "GBP" else "EUR"
  }

  lemma SplitAfterSymbol(symbol: char, text: string)
    requires IsSymbol(symbol) && Plain(text)
    ensures SplitCurrency([symbol] + text) == (SymbolCurrency(symbol), [symbol] + text)
  {
    assert CodeFree([symbol] + text);
    NoCodeFound([symbol] + text, 0);
  }

  lemma FirstIsFiltered(c: char, text: string)
    requires !IsDigit(c) && !IsSeparator(c) && c != '-'
    ensures NumberText([c] + text) == NumberText(text)
  {
    assert ([c] + text)[1..] == text && "" + NumberText(text) == NumberText(text);
  }

  lemma ParseInParts(value: string, currency: string, text: string)
    requires value != "" && Strip(value) == value && SplitCurrency(value) == (currency, text)
    ensures ParseMoney(value) ==
            match MinorUnits(NumberText(text)) case Ok(n) => Ok((currency, n)) case Raised => Raised
  {
  }

  /** Printing any amount in US or European style behind its currency code and parsing it gives the currency
      and the amount back, up to the length that `int` takes, and raises beyond it. */
  lemma PrintThenParse(code: string, n: nat, group: char, point: char)
    requires IsCode(code) && IsSeparator(group) && IsSeparator(point)
    ensures ParseMoney(code + " " + Print(n, group, point)) == if Readable(n) then Ok((code, n)) else Raised
  {
    var text := Print(n, group, point);
    AmountOfPrint(n, group, point);
    PrintEndsInDigit(n, group, point);
    assert code + " " + text == code + (" " + text);
    EdgesKept(code + (" " + text));
    SplitAfterCode(code, " " + text);
    FirstIsFiltered(' ', text);
    ParseInParts(code + (" " + text), code, " " + text);
  }

  /** The same behind a currency symbol, `$` standing for USD. */
  lemma PrintSymbolThenParse(symbol: char, n: nat, group: char, point: char)
    requires IsSymbol(symbol) && IsSeparator(group) && IsSeparator(point)
    ensures ParseMoney([symbol] + Print(n, group, point)) ==
            if Readable(n) then Ok((SymbolCurrency(symbol), n)) else Raised
  {
    var text := Print(n, group, point);
    AmountOfPrint(n, group, point);
    PrintEndsInDigit(n, group, point);
    EdgesKept([symbol] + text);
    SplitAfterSymbol(symbol, text);
    FirstIsFiltered(symbol, text);
    ParseInParts([symbol] + text, SymbolCurrency(symbol), [symbol] + text);
  }

  // ----- The code behind the number, and no code at all -----

  /** Of several codes the leftmost one counts. */
  lemma {:induction false} FirstCodeIsFound(s: string, from: nat, i: nat)
    requires from <= i && CodeAt(s, i) && forall j :: from <= j < i ==> !CodeAt(s, j)
    ensures FindCode(s, from) == Some(i)
    decreases i - from
  {
    if from < i {
      FirstCodeIsFound(s, from + 1, i);
    }
  }

  lemma {:induction false} CodeBehindRemoved(front: string, code: string)
    requires IsCode(code) && CodeFree(front)
    ensures RemoveCode(front + code, code) == front
  {
    var s := front + code;
    if front == "" {
      assert s[..3] == code && s[3..] == "";
    } else {
      assert s[..3][0] == front[0] && s[1..] == front[1..] + code;
      CodeBehindRemoved(front[1..], code);
    }
  }

  lemma SplitBeforeCode(text: string, code: string)
    requires IsCode(code) && CodeFree(text)
    ensures SplitCurrency(text + " " + code) == (code, text + " ")
  {
    var front := text + " ";
    var s := front + code;
    assert CodeAt(s, |front|);
    FirstCodeIsFound(s, 0, |front|);
    assert s[|front|..|front| + 3] == code;
    CodeBehindRemoved(front, code);
  }

  lemma {:induction false} NumberTextAppend(a: string, b: string)
    ensures NumberText(a + b) == NumberText(a) + NumberText(b)
  {
    if a == "" {
      assert a + b == b && "" + NumberText(b) == NumberText(b);
    } else {
      NumberTextAppend(a[1..], b);
      assert (a + b)[0] == a[0] && (a + b)[1..] == a[1..] + b;
      var kept := if IsDigit(a[0]) || IsSeparator(a[0]) || a[0] == '-' then [a[0]] else "";
      Associative(kept, NumberText(a[1..]), NumberText(b));
    }
  }

  lemma Associative(a: string, b: string, c: string)
    ensures a + (b + c) == (a + b) + c
  {
  }

  lemma {:induction false} GroupStartsAlike(digits: string, group: char)
    requires digits != ""
    ensures Group(digits, group) != "" && Group(digits, group)[0] == digits[0]
  {
    if |digits| > 3 {
      GroupStartsAlike(digits[..|digits| - 3], group);
    }
  }

  lemma PrintStartsInDigit(n: nat, group: char, point: char)
    ensures Print(n, group, point) != "" && IsDigit(Print(n, group, point)[0])
  {
    GroupStartsAlike(Decimal(n / 100), group);
  }

  /** A code behind the number does as well. */
  lemma PrintBeforeCodeThenParse(code: string, n: nat, group: char, point: char)
    requires IsCode(code) && IsSeparator(group) && IsSeparator(point)
    ensures ParseMoney(Print(n, group, point) + " " + code) == if Readable(n) then Ok((code, n)) else Raised
  {
    var text := Print(n, group, point);
    AmountOfPrint(n, group, point);
    PrintStartsInDigit(n, group, point);
    EdgesKept(text + " " + code);
    SplitBeforeCode(text, code);
    NumberTextAppend(text, " ");
    assert NumberText(" ") == "" + "" && NumberText(text) + "" == NumberText(text);
    ParseInParts(text + " " + code, code, text + " ");
  }

  /** A bare number is in US dollars. */
  lemma PrintBareThenParse(n: nat, group: char, point: char)
    requires IsSeparator(group) && IsSeparator(point)
    ensures ParseMoney(Print(n, group, point)) == if Readable(n) then Ok(("USD", n)) else Raised
  {
    var text := Print(n, group, point);
    AmountOfPrint(n, group, point);
    PrintStartsInDigit(n, group, point);
    PrintEndsInDigit(n, group, point);
    EdgesKept(text);
    NoCodeFound(text, 0);
    ParseInParts(text, "USD", text);
  }

  // ----- Negative amounts -----

  lemma NegativeInt(digits: string)
    requires AllDigits(digits) && digits != ""
    ensures PyInt("-" + digits) == if |digits| > MAX_INT_DIGITS then None else Some(0 - Value(digits))
  {
    assert ("-" + digits)[1..] == digits;
    DigitCountOfDigits(digits);
    SignedNumeral('-', digits);
    assert "-" + digits == ['-'] + digits;
  }

  lemma MinusStays(s: string, c: char)
    requires c != '-'
    ensures Without("-" + s, c) == "-" + Without(s, c)
  {
    assert ("-" + s)[1..] == s;
  }

  lemma NegativeMajorAndMinor(digits: string, cents: string)
    requires AllDigits(digits) && digits != "" && AllDigits(cents) && 0 < |cents| <= 2
    ensures MajorAndMinor("-" + digits, cents) ==
            if |digits| > MAX_INT_DIGITS then Raised else Ok((0 - Value(digits)) * 100 + Value(cents))
  {
    NegativeInt(digits);
    CentsAreRead(cents);
  }

  lemma CentsAreRead(cents: string)
    requires AllDigits(cents) && 0 < |cents| <= 2
    ensures PyInt(cents) == Some(Value(cents))
  {
    PyIntOfDigits(cents);
  }

  lemma NegativeDecimal(whole: string, point: char, cents: string)
    requires Plain(whole) && DigitsOf(whole) != "" && IsSeparator(point) && AllDigits(cents) && |cents| == 2
    ensures MinorUnits("-" + whole + [point] + cents) == MajorAndMinor("-" + DigitsOf(whole), cents)
  {
    var s, pos := "-" + whole + [point] + cents, |whole| + 1;
    LastSeparatorIs(s, pos);
    assert s[..pos] == "-" + whole && s[pos + 1..] == cents && cents[..2] == cents;
    var other := if point == '.' then ',' else '.';
    MinusStays(whole, other);
    MinusStays(Without(whole, other), point);
    WithoutSeparators(whole, other, point);
  }

  /** The cents of a negative amount count upwards. */
  function Misread(n: nat): int {
    n % 100 - 100 * (n / 100)
  }

  lemma NegativeParts(whole: nat, cents: nat, group: char, point: char)
    requires cents < 100 && IsSeparator(group) && IsSeparator(point)
    ensures MinorUnits("-" + Group(Decimal(whole), group) + [point] + [Digit(cents / 10), Digit(cents % 10)]) ==
            if |Decimal(whole)| <= MAX_INT_DIGITS then Ok(cents - 100 * whole) else Raised
  {
    GroupKeepsDigits(Decimal(whole), group);
    CentsValue(cents);
    ValueOfDecimal(whole);
    NegativeDecimal(Group(Decimal(whole), group), point, [Digit(cents / 10), Digit(cents % 10)]);
    NegativeMajorAndMinor(Decimal(whole), [Digit(cents / 10), Digit(cents % 10)]);
  }

  lemma NegativeText(n: nat, group: char, point: char, whole: nat, cents: nat)
    requires whole == n / 100 && cents == n % 100
    ensures cents < 100
    ensures "-" + Print(n, group, point) ==
            "-" + Group(Decimal(whole), group) + [point] + [Digit(cents / 10), Digit(cents % 10)]
  {
    LastDigit(n);
    var front := Group(Decimal(whole), group);
    assert "-" + (front + [point] + [Digit(cents / 10), Digit(n % 10)]) ==
           "-" + front + [point] + [Digit(cents / 10), Digit(n % 10)];
  }

  lemma NegativePrint(n: nat, group: char, point: char, whole: nat, cents: nat)
    requires IsSeparator(group) && IsSeparator(point) && whole == n / 100 && cents == n % 100
    ensures MinorUnits("-" + Print(n, group, point)) ==
            if |Decimal(whole)| <= MAX_INT_DIGITS then Ok(cents - 100 * whole) else Raised
  {
    NegativeText(n, group, point, whole, cents);
    NegativeParts(whole, cents, group, point);
  }

  lemma MisreadIs(n: nat)
    ensures Misread(n) == 0 - n <==> n % 100 == 0
    ensures if n < 100 then Misread(n) == n else Misread(n) < 0
  {
  }

  lemma MinusIsFiltered(text: string)
    requires Plain(text)
    ensures NumberText(" -" + text) == "-" + text
  {
    NumberTextOfPlain(text);
    assert " -" + text == [' '] + ("-" + text);
    FirstIsFiltered(' ', "-" + text);
    assert ("-" + text)[1..] == text;
  }

  lemma ParseBehindCode(code: string, tail: string)
    requires IsCode(code) && CodeFree(tail) && tail != "" && !IsWord(tail[0]) && IsDigit(tail[|tail| - 1])
    ensures ParseMoney(code + tail) ==
            match MinorUnits(NumberText(tail)) case Ok(n) => Ok((code, n)) case Raised => Raised
  {
    EdgesKept(code + tail);
    SplitAfterCode(code, tail);
    ParseInParts(code + tail, code, tail);
  }

  lemma MinusIsCodeFree(text: string)
    requires Plain(text)
    ensures CodeFree(" -" + text)
  {
  }

  lemma NegativeParses(code: string, text: string, m: int)
    requires IsCode(code) && Plain(text) && text != "" && IsDigit(text[|text| - 1])
    requires MinorUnits("-" + text) == Ok(m)
    ensures ParseMoney(code + " -" + text) == Ok((code, m))
  {
    MinusIsFiltered(text);
    MinusIsCodeFree(text);
    ParseBehindCode(code, " -" + text);
    assert code + " -" + text == code + (" -" + text);
  }

  lemma NegativePrinted(code: string, n: nat, group: char, point: char, whole: nat, cents: nat)
    requires IsCode(code) && IsSeparator(group) && IsSeparator(point)
    requires whole == n / 100 && cents == n % 100 && |Decimal(whole)| <= MAX_INT_DIGITS
    ensures ParseMoney(code + " -" + Print(n, group, point)) == Ok((code, cents - 100 * whole))
  {
    PrintIsPlain(n, group, point);
    PrintEndsInDigit(n, group, point);
    NegativePrint(n, group, point, whole, cents);
    NegativeParses(code, Print(n, group, point), cents - 100 * whole);
  }

  /** A minus sign reaches the major units only: the cents are added to them. A negative amount reads as itself
      exactly when it has no cents, and one of less than a unit reads as positive. */
  lemma NegativeIsMisread(code: string, n: nat, group: char, point: char)
    requires IsCode(code) && IsSeparator(group) && IsSeparator(point) && Readable(n)
    ensures var r := ParseMoney(code + " -" + Print(n, group, point));
            && r == Ok((code, Misread(n)))
            && (r == Ok((code, 0 - n)) <==> n % 100 == 0)
            && (n < 100 ==> r == Ok((code, n)))
  {
    NegativePrinted(code, n, group, point, n / 100, n % 100);
    MisreadIs(n);
  }
}
