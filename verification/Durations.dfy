/** Durations in nanoseconds: printed with the largest unit that fits, and parsed from sums of numbers with units. */
module Durations {
  import opened Options

  const MIN_INT64: int := -0x8000_0000_0000_0000
  const MAX_INT64: int := 0x7fff_ffff_ffff_ffff
  const LIMIT: nat := 0x8000_0000_0000_0000

  datatype Unit = Hour | Minute | Second | Millisecond | Microsecond | Nanosecond

  /** In descending order. */
  const UNITS := [Hour, Minute, Second, Millisecond, Microsecond, Nanosecond]

  function Nanos(u: Unit): (n: nat)
    ensures n > 0
  {
    match u
    case Hour => 3_600_000_000_000
    case Minute => 60_000_000_000
    case Second => 1_000_000_000
    case Millisecond => 1_000_000
    case Microsecond => 1_000
    case Nanosecond => 1
  }

  function Suffix(u: Unit): string {
    match u
    case Hour => "h"
    case Minute => "m"
    case Second => "s"
    case Millisecond => "ms"
    case Microsecond => "\U{00B5}s"
    case Nanosecond => "ns"
  }

  /** The units that parsing knows; microseconds have three spellings. */
  function UnitOf(text: string): Option<Unit> {
    if text == "ns" then Some(Nanosecond)
    else if text == "us" || text == "\U{00B5}s" || text == "\U{03BC}s" then Some(Microsecond)
    else if text == "ms" then Some(Millisecond)
    else if text == "s" then Some(Second)
    else if text == "m" then Some(Minute)
    else if text == "h" then Some(Hour)
    else None
  }

  /******* Whole numbers *******/

  function Digits(n: nat): string {
    if n < 10 then ['0' + n as char] else Digits(n / 10) + ['0' + (n % 10) as char]
  }

  function Decimal(n: int): string {
    if n < 0 then "-" + Digits(-n) else Digits(n)
  }

  predicate IsDigit(c: char) {
    '0' <= c <= '9'
  }

  function Value(c: char): nat
    requires IsDigit(c)
  {
    c as int - '0' as int
  }

  predicate AllDigits(s: string) {
    forall c :: c in s ==> IsDigit(c)
  }

  function Fold(x: nat, digits: string): nat
    requires AllDigits(digits)
    decreases digits
  {
    if digits == [] then x else Fold(10 * x + Value(digits[0]), digits[1..])
  }

  datatype Leading = Leading(value: nat, rest: string)

  /** Reads digits from the left, and fails as soon as the number exceeds 2^63. */
  function LeadingInt(s: string, x: nat): Option<Leading> {
    if s == [] || !IsDigit(s[0]) then Some(Leading(x, s))
    else if x > LIMIT / 10 then None
    else
      var y := 10 * x + Value(s[0]);
      if y > LIMIT then None else LeadingInt(s[1..], y)
  }

  lemma {:induction false} DigitsAreDigits(n: nat)
    ensures AllDigits(Digits(n)) && Digits(n) != []
  {
    if n >= 10 { DigitsAreDigits(n / 10); }
  }

  lemma {:induction false} FoldAppend(x: nat, digits: string, c: char)
    requires AllDigits(digits) && IsDigit(c)
    ensures AllDigits(digits + [c])
    ensures Fold(x, digits + [c]) == 10 * Fold(x, digits) + Value(c)
    decreases digits
  {
    if digits == [] {
      assert [c][1..] == [];
    } else {
      assert (digits + [c])[1..] == digits[1..] + [c];
      FoldAppend(10 * x + Value(digits[0]), digits[1..], c);
    }
  }

  lemma {:induction false} FoldDigits(n: nat)
    ensures AllDigits(Digits(n)) && Fold(0, Digits(n)) == n
  {
    DigitsAreDigits(n);
    if n < 10 {
      assert Digits(n)[1..] == [];
    } else {
      DigitsAreDigits(n / 10);
      FoldDigits(n / 10);
      FoldAppend(0, Digits(n / 10), '0' + (n % 10) as char);
    }
  }

  lemma {:induction false} FoldGrows(x: nat, digits: string)
    requires AllDigits(digits)
    ensures x <= Fold(x, digits)
    ensures digits != [] ==> 10 * x <= Fold(x, digits)
    decreases digits
  {
    if digits != [] { FoldGrows(10 * x + Value(digits[0]), digits[1..]); }
  }

  /** The early overflow checks reject exactly the numbers above 2^63. */
  lemma {:induction false} LeadingIntReads(x: nat, digits: string, rest: string)
    requires AllDigits(digits) && x <= LIMIT && (rest == [] || !IsDigit(rest[0]))
    ensures LeadingInt(digits + rest, x) == if Fold(x, digits) > LIMIT then None else Some(Leading(Fold(x, digits), rest))
    decreases digits
  {
    if digits == [] {
      assert digits + rest == rest;
    } else {
      var y := 10 * x + Value(digits[0]);
      assert (digits + rest)[1..] == digits[1..] + rest;
      FoldGrows(x, digits);
      FoldGrows(y, digits[1..]);
      if x <= LIMIT / 10 && y <= LIMIT { LeadingIntReads(y, digits[1..], rest); }
    }
  }

  /******* Printing *******/

  /** The first of the units from position `i` on that divides the duration; nanoseconds always do. */
  function FirstUnit(d: int, i: nat): (u: Unit)
    requires i < |UNITS|
    decreases |UNITS| - i
  {
    if i == |UNITS| - 1 || d % Nanos(UNITS[i]) == 0 then UNITS[i] else FirstUnit(d, i + 1)
  }

  function Show(d: int): string {
    Decimal(d / Nanos(FirstUnit(d, 0))) + Suffix(FirstUnit(d, 0))
  }

  /** The program's remainder and quotient round towards zero. */
  function TruncatedDiv(a: int, b: nat): int
    requires b > 0
  {
    if a >= 0 then a / b else -(-a / b)
  }

  function TruncatedMod(a: int, b: nat): int
    requires b > 0
  {
    a - b * TruncatedDiv(a, b)
  }

  lemma MultipleGrows(b: nat, m: int)
    requires b > 0
    ensures m >= 1 ==> b * m >= b
    ensures m <= -1 ==> b * m <= -(b as int)
  {
    if m >= 1 {
      assert b * m == b + b * (m - 1);
    } else if m <= -1 {
      assert b * -m == b + b * (-m - 1);
    }
  }

  lemma MultipleDivides(b: nat, k: int)
    requires b > 0
    ensures (b * k) % b == 0
  {
    var x := b * k;
    assert b * (k - x / b) == x % b;
    MultipleGrows(b, k - x / b);
  }

  lemma RemaindersAgree(d: int, b: nat)
    requires b > 0
    ensures TruncatedMod(d, b) == 0 <==> d % b == 0
  {
    var q := -d / b;
    if d < 0 {
      assert TruncatedMod(d, b) == d + b * q;
      if d % b == 0 {
        assert -d == b * -(d / b);
        MultipleDivides(b, -(d / b));
      }
      if TruncatedMod(d, b) == 0 {
        assert d == b * -q;
        MultipleDivides(b, -q);
      }
    }
  }

  lemma QuotientsAgree(d: int, u: Unit)
    requires d % Nanos(u) == 0
    ensures TruncatedDiv(d, Nanos(u)) == d / Nanos(u) && Nanos(u) * (d / Nanos(u)) == d
  {
    match u
    case Hour =>
    case Minute =>
    case Second =>
    case Millisecond =>
    case Microsecond =>
    case Nanosecond =>
  }

  lemma {:induction false} FirstUnitDivides(d: int, i: nat)
    requires i < |UNITS|
    ensures d % Nanos(FirstUnit(d, i)) == 0
    ensures forall j :: i <= j < |UNITS| && Nanos(UNITS[j]) > Nanos(FirstUnit(d, i)) ==> d % Nanos(UNITS[j]) != 0
    decreases |UNITS| - i
  {
    if i < |UNITS| - 1 && d % Nanos(UNITS[i]) != 0 { FirstUnitDivides(d, i + 1); }
  }

  lemma NanosecondsDivide(d: int)
    ensures d % Nanos(Nanosecond) == 0
  {
  }

  /** The loop over the units; it always returns from inside, and the two kinds of rounding agree there. */
  method String(d: int) returns (text: string)
    requires MIN_INT64 <= d <= MAX_INT64
    ensures text == Show(d)
  {
    hide Digits, Decimal, Nanos;
    for i := 0 to |UNITS|
      invariant i < |UNITS| ==> FirstUnit(d, 0) == FirstUnit(d, i)
      invariant i == |UNITS| ==> false
    {
      NanosecondsDivide(d);
      RemaindersAgree(d, Nanos(UNITS[i]));
      if TruncatedMod(d, Nanos(UNITS[i])) == 0 {
        QuotientsAgree(d, UNITS[i]);
        return Decimal(TruncatedDiv(d, Nanos(UNITS[i]))) + Suffix(UNITS[i]);
      }
    }
    return Decimal(d) + "ns";
  }

  /******* Parsing *******/

  /** The unit text goes on to the next digit or point. */
  function UnitText(s: string): (text: string)
    ensures |text| <= |s|
  {
    if s == [] || IsDigit(s[0]) || s[0] == '.' then [] else [s[0]] + UnitText(s[1..])
  }

  function DigitRun(s: string): (digits: string)
    ensures |digits| <= |s|
  {
    if s == [] || !IsDigit(s[0]) then [] else [s[0]] + DigitRun(s[1..])
  }

  /**
    * What the digits after a decimal point add to a whole number of units. The library computes it with floating
    * point numbers; here it is an arbitrary function of the digits and the unit.
    */
  type Share = (string, Unit) -> nat

  /** A number as it is read: its whole part, the digits after the point, and the text behind it. */
  datatype Number = Number(whole: nat, fraction: string, rest: string)

  function ReadNumber(s: string): Option<Number> {
    var leading := LeadingInt(s, 0);
    if leading.None? then None else
    var rest := leading.value.rest;
    if rest == [] || rest[0] != '.' then Some(Number(leading.value.value, [], rest))
    else
      var digits := DigitRun(rest[1..]);
      if |rest| == |s| && digits == [] then None
      else Some(Number(leading.value.value, digits, rest[1 + |digits|..]))
  }

  predicate IsZero(digits: string) {
    forall c :: c in digits ==> c == '0'
  }

  const WRAP: nat := 0x1_0000_0000_0000_0000

  /** A sum of numbers with units, on top of `sum`; None is an error. The sum is kept in 64 bits. */
  function ParseTerms(s: string, sum: nat, share: Share): Option<nat>
    decreases |s|
  {
    if s == [] then Some(sum)
    else if !IsDigit(s[0]) && s[0] != '.' then None
    else
      var number := ReadNumber(s);
      if number.None? then None else
      var text := UnitText(number.value.rest);
      var unit := UnitOf(text);
      if unit.None? then None
      else if number.value.whole > LIMIT / Nanos(unit.value) then None
      else
        var extra := if IsZero(number.value.fraction) then 0 else share(number.value.fraction, unit.value);
        var term := number.value.whole * Nanos(unit.value) + extra;
        NumberIsShorter(s);
        if term > LIMIT then None else
        var total := (sum + term) % WRAP;
        if total > LIMIT then None else ParseTerms(number.value.rest[|text|..], total, share)
  }

  lemma NumberIsShorter(s: string)
    ensures ReadNumber(s).Some? && s != [] && (IsDigit(s[0]) || s[0] == '.') ==> |ReadNumber(s).value.rest| < |s|
  {
    RestIsShorter(s, 0);
  }

  lemma {:induction false} RestIsShorter(s: string, x: nat)
    ensures LeadingInt(s, x).Some? ==> |LeadingInt(s, x).value.rest| <= |s|
    ensures LeadingInt(s, x).Some? && s != [] && IsDigit(s[0]) ==> |LeadingInt(s, x).value.rest| < |s|
  {
    if s != [] && IsDigit(s[0]) && x <= LIMIT / 10 && 10 * x + Value(s[0]) <= LIMIT {
      RestIsShorter(s[1..], 10 * x + Value(s[0]));
    }
  }

  function ParseUnsigned(s: string, negative: bool, share: Share): Option<int> {
    if s == "0" then Some(0)
    else if s == "" then None
    else
      var magnitude := ParseTerms(s, 0, share);
      if magnitude.None? then None
      else
        var value: int := magnitude.value;
        if negative then Some(-value) else if value > MAX_INT64 then None else Some(value)
  }

  function Parse(s: string, share: Share): Option<int> {
    if s != "" && (s[0] == '-' || s[0] == '+') then ParseUnsigned(s[1..], s[0] == '-', share)
    else ParseUnsigned(s, false, share)
  }

  lemma {:induction false} TermsStayBelow(s: string, sum: nat, share: Share)
    requires sum <= LIMIT
    ensures ParseTerms(s, sum, share).Some? ==> ParseTerms(s, sum, share).value <= LIMIT
    decreases |s|
  {
    hide ReadNumber, UnitText, UnitOf, IsZero, Nanos;
    if s != [] && (IsDigit(s[0]) || s[0] == '.') && ReadNumber(s).Some? {
      var number := ReadNumber(s).value;
      var text := UnitText(number.rest);
      if UnitOf(text).Some? {
        var unit := UnitOf(text).value;
        var term := number.whole * Nanos(unit) + if IsZero(number.fraction) then 0 else share(number.fraction, unit);
        NumberIsShorter(s);
        if (sum + term) % WRAP <= LIMIT { TermsStayBelow(number.rest[|text|..], (sum + term) % WRAP, share); }
      }
    }
  }

  /** Whatever text is parsed, with or without decimal points, the result is a 64-bit duration. */
  lemma ParsedFits(s: string, share: Share)
    ensures Parse(s, share).Some? ==> MIN_INT64 <= Parse(s, share).value <= MAX_INT64
  {
    hide ParseTerms;
    TermsStayBelow(s, 0, share);
    if s != "" { TermsStayBelow(s[1..], 0, share); }
  }

  /******* The round trip *******/

  lemma SuffixReads(u: Unit)
    ensures Suffix(u) != [] && !IsDigit(Suffix(u)[0])
    ensures Suffix(u)[0] != '.' && UnitText(Suffix(u)) == Suffix(u) && UnitOf(Suffix(u)) == Some(u)
  {
    var text := Suffix(u);
    assert !IsDigit(text[0]) && text[0] != '.';
    if |text| == 1 {
      assert text[1..] == [];
      assert text == [text[0]];
    } else {
      assert text[1..][1..] == [];
      assert text[1..] == [text[1]];
      assert text == [text[0]] + [text[1]];
    }
  }

  lemma NumberReads(n: nat, rest: string)
    requires n <= LIMIT && (rest == [] || (!IsDigit(rest[0]) && rest[0] != '.'))
    ensures ReadNumber(Digits(n) + rest) == Some(Number(n, [], rest))
  {
    hide LeadingInt, Digits, Fold, DigitRun;
    DigitsAreDigits(n);
    FoldDigits(n);
    LeadingIntReads(0, Digits(n), rest);
  }

  /** Behind a unit comes the end, or the next number. */
  predicate StartsNumber(s: string) {
    s == [] || IsDigit(s[0])
  }

  lemma {:induction false} UnitTextStops(text: string, rest: string)
    requires UnitText(text) == text && StartsNumber(rest)
    ensures UnitText(text + rest) == text
  {
    if text == [] {
      assert text + rest == rest;
    } else {
      assert (text + rest)[1..] == text[1..] + rest;
      UnitTextStops(text[1..], rest);
    }
  }

  /** A number with a unit, in front of others, adds what it says to the sum. */
  lemma TermAdds(n: nat, u: Unit, rest: string, sum: nat, share: Share)
    requires StartsNumber(rest) && sum + n * Nanos(u) <= LIMIT
    ensures ParseTerms(Digits(n) + Suffix(u) + rest, sum, share) == ParseTerms(rest, sum + n * Nanos(u), share)
  {
    hide ReadNumber, Digits, UnitText, UnitOf, Suffix, Nanos;
    var behind := Suffix(u) + rest;
    var text := Digits(n) + behind;
    assert Digits(n) + Suffix(u) + rest == text;
    InRange(n, u);
    DigitsAreDigits(n);
    SuffixReads(u);
    UnitTextStops(Suffix(u), rest);
    NumberReads(n, behind);
    assert text[0] == Digits(n)[0];
    assert behind[|Suffix(u)|..] == rest;
    assert (sum + n * Nanos(u)) % WRAP == sum + n * Nanos(u);
  }

  /** One number with one unit is read back when it is in range. */
  lemma TermReads(n: nat, u: Unit, share: Share)
    requires n * Nanos(u) <= LIMIT
    ensures ParseTerms(Digits(n) + Suffix(u), 0, share) == Some(n * Nanos(u))
  {
    hide Digits, Suffix, Nanos;
    TermAdds(n, u, [], 0, share);
    assert Digits(n) + Suffix(u) + [] == Digits(n) + Suffix(u);
  }

  lemma InRange(n: nat, u: Unit)
    requires n * Nanos(u) <= LIMIT
    ensures n <= LIMIT / Nanos(u) && n <= LIMIT
  {
    match u
    case Hour =>
    case Minute =>
    case Second =>
    case Millisecond =>
    case Microsecond =>
    case Nanosecond =>
  }

  /** Printing and then parsing gives back every 64-bit duration. */
  lemma RoundTrip(d: int, share: Share)
    requires MIN_INT64 <= d <= MAX_INT64
    ensures Parse(Show(d), share) == Some(d)
  {
    hide ParseTerms, Digits, Suffix, Nanos, FirstUnit, Parse, UnitText, UnitOf;
    var u := FirstUnit(d, 0);
    FirstUnitDivides(d, 0);
    var n := d / Nanos(u);
    var text := Digits(Magnitude(n)) + Suffix(u);
    SignAgrees(d, u);
    TermReads(Magnitude(n), u, share);
    DigitsAreDigits(Magnitude(n));
    SuffixReads(u);
    assert text[0] == Digits(Magnitude(n))[0];
    SignReads(text, share);
    if n < 0 {
      assert "-" + Digits(-n) + Suffix(u) == "-" + text;
    }
  }

  lemma SignReads(text: string, share: Share)
    requires |text| >= 2 && IsDigit(text[0])
    ensures Parse(text, share) == ParseUnsigned(text, false, share)
    ensures Parse("-" + text, share) == ParseUnsigned(text, true, share)
    ensures text != "0" && text != ""
  {
    hide ParseUnsigned;
    assert ("-" + text)[1..] == text;
  }

  function Magnitude(n: int): nat {
    if n < 0 then -n else n
  }

  lemma SignAgrees(d: int, u: Unit)
    requires d % Nanos(u) == 0
    ensures d / Nanos(u) < 0 <==> d < 0
    ensures Magnitude(d / Nanos(u)) * Nanos(u) == Magnitude(d)
  {
    match u
    case Hour =>
    case Minute =>
    case Second =>
    case Millisecond =>
    case Microsecond =>
    case Nanosecond =>
  }

  /** The printed text is a whole number of a unit, and no larger unit would do. */
  lemma PrintsLargestUnit(d: int) returns (u: Unit)
    ensures Show(d) == Decimal(d / Nanos(u)) + Suffix(u) && Nanos(u) * (d / Nanos(u)) == d
    ensures forall v: Unit :: Nanos(v) > Nanos(u) ==> d % Nanos(v) != 0
  {
    u := FirstUnit(d, 0);
    FirstUnitDivides(d, 0);
    QuotientsAgree(d, u);
    forall v: Unit | Nanos(v) > Nanos(u) ensures d % Nanos(v) != 0 {
      var j := Index(v);
      assert UNITS[j] == v;
    }
  }

  function Index(u: Unit): nat {
    match u
    case Hour => 0
    case Minute => 1
    case Second => 2
    case Millisecond => 3
    case Microsecond => 4
    case Nanosecond => 5
  }

  /** Different durations print differently. */
  lemma PrintingIsInjective(d: int, e: int)
    requires MIN_INT64 <= d <= MAX_INT64 && MIN_INT64 <= e <= MAX_INT64 && Show(d) == Show(e)
    ensures d == e
  {
    hide Show, Parse;
    var share: Share := (digits, u) => 0;
    RoundTrip(d, share);
    RoundTrip(e, share);
  }

  /******* The units, spelled out *******/

  /** What a text of these units is worth, in nanoseconds. */
  function Worth(text: string): nat {
    if text == "h" then 3_600_000_000_000
    else if text == "m" then 60_000_000_000
    else if text == "s" then 1_000_000_000
    else if text == "ms" then 1_000_000
    else if text in {"us", "\U{00B5}s", "\U{03BC}s"} then 1_000
    else if text == "ns" then 1
    else 0
  }

  lemma UnitIsWorth(text: string)
    ensures UnitOf(text).Some? <==> Worth(text) > 0
    ensures UnitOf(text).Some? ==> Nanos(UnitOf(text).value) == Worth(text)
  {
  }

  /** The largest unit that divides the duration is printed; zero is zero hours. */
  lemma PrintsAs(d: int)
    ensures Show(d) ==
      if d % 3_600_000_000_000 == 0 then Decimal(d / 3_600_000_000_000) + "h"
      else if d % 60_000_000_000 == 0 then Decimal(d / 60_000_000_000) + "m"
      else if d % 1_000_000_000 == 0 then Decimal(d / 1_000_000_000) + "s"
      else if d % 1_000_000 == 0 then Decimal(d / 1_000_000) + "ms"
      else if d % 1_000 == 0 then Decimal(d / 1_000) + "\U{00B5}s"
      else Decimal(d) + "ns"
  {
    hide Decimal, FirstUnit;
    FirstUnitIs(d);
    var u := FirstUnit(d, 0);
    assert Show(d) == Decimal(d / Nanos(u)) + Suffix(u);
  }

  lemma FirstUnitIs(d: int)
    ensures FirstUnit(d, 0) ==
      if d % Nanos(Hour) == 0 then Hour
      else if d % Nanos(Minute) == 0 then Minute
      else if d % Nanos(Second) == 0 then Second
      else if d % Nanos(Millisecond) == 0 then Millisecond
      else if d % Nanos(Microsecond) == 0 then Microsecond
      else Nanosecond
  {
    hide Nanos;
    assert FirstUnit(d, 3) ==
      if d % Nanos(Millisecond) == 0 then Millisecond else if d % Nanos(Microsecond) == 0 then Microsecond else Nanosecond;
  }

  /** Numbers are printed without leading zeros, in decimal notation. */
  lemma {:induction false} DigitsAre(n: nat)
    ensures Digits(n) != [] && (n > 0 ==> Digits(n)[0] != '0') && AllDigits(Digits(n)) && Fold(0, Digits(n)) == n
  {
    DigitsAreDigits(n);
    FoldDigits(n);
    if n >= 10 { DigitsAre(n / 10); }
  }

  /** Any text with a known unit behind a number counts, a sum of such texts counts together, and a bare number is refused. */
  lemma {:induction false} SumsAreRead(numbers: seq<nat>, units: seq<Unit>, sum: nat, share: Share)
    requires |numbers| == |units| && sum + Total(numbers, units) <= LIMIT
    ensures ParseTerms(Sum(numbers, units), sum, share) == Some(sum + Total(numbers, units))
    decreases |numbers|
  {
    hide Digits, Suffix, Nanos, ParseTerms;
    if numbers == [] {
      NoTerms(sum, share);
    } else {
      SumStarts(numbers[1..], units[1..]);
      TermAdds(numbers[0], units[0], Sum(numbers[1..], units[1..]), sum, share);
      SumsAreRead(numbers[1..], units[1..], sum + numbers[0] * Nanos(units[0]), share);
    }
  }

  function Sum(numbers: seq<nat>, units: seq<Unit>): string
    requires |numbers| == |units|
  {
    if numbers == [] then [] else Digits(numbers[0]) + Suffix(units[0]) + Sum(numbers[1..], units[1..])
  }

  function Total(numbers: seq<nat>, units: seq<Unit>): nat
    requires |numbers| == |units|
  {
    if numbers == [] then 0 else numbers[0] * Nanos(units[0]) + Total(numbers[1..], units[1..])
  }

  lemma NoTerms(sum: nat, share: Share)
    ensures ParseTerms([], sum, share) == Some(sum)
  {
  }

  lemma SumStarts(numbers: seq<nat>, units: seq<Unit>)
    requires |numbers| == |units|
    ensures StartsNumber(Sum(numbers, units))
  {
    if numbers != [] {
      DigitsAreDigits(numbers[0]);
      assert Sum(numbers, units)[0] == Digits(numbers[0])[0];
    }
  }

  /** A number needs a unit; only zero may do without. */
  lemma BareNumberIsRefused(n: nat, sum: nat, share: Share)
    ensures ParseTerms(Digits(n), sum, share) == None
    ensures Parse("0", share) == Some(0) && Parse("", share) == None
    ensures n > 0 ==> Parse(Digits(n), share) == None
  {
    hide ParseTerms, Digits;
    BareTerms(n, sum, share);
    BareTerms(n, 0, share);
    SignlessReads(n, share);
  }

  lemma BareTerms(n: nat, sum: nat, share: Share)
    ensures ParseTerms(Digits(n), sum, share) == None
  {
    hide ReadNumber, Digits;
    DigitsAreDigits(n);
    FoldDigits(n);
    assert Digits(n) + [] == Digits(n);
    if n <= LIMIT {
      NumberReads(n, []);
    } else {
      LeadingIntReads(0, Digits(n), []);
      ReadsNothing(Digits(n));
    }
  }

  lemma ReadsNothing(s: string)
    requires LeadingInt(s, 0).None?
    ensures ReadNumber(s).None?
  {
  }

  lemma SignlessReads(n: nat, share: Share)
    ensures n > 0 ==> Parse(Digits(n), share) == ParseUnsigned(Digits(n), false, share) && Digits(n) != "0" && Digits(n) != ""
    ensures Parse("0", share) == Some(0) && Parse("", share) == None
  {
    hide ParseTerms, Digits;
    DigitsAre(n);
  }

  lemma {:induction false} DigitRunStops(digits: string, rest: string)
    requires AllDigits(digits) && (rest == [] || !IsDigit(rest[0]))
    ensures DigitRun(digits + rest) == digits
  {
    if digits == [] {
      assert digits + rest == rest;
    } else {
      assert (digits + rest)[1..] == digits[1..] + rest;
      DigitRunStops(digits[1..], rest);
    }
  }

  /** Digits behind a point add their share of the unit, and nothing when they are zeros. */
  lemma FractionAdds(n: nat, digits: string, u: Unit, share: Share)
    requires AllDigits(digits)
    requires n * Nanos(u) + (if IsZero(digits) then 0 else share(digits, u)) <= LIMIT
    ensures ParseTerms(Digits(n) + "." + digits + Suffix(u), 0, share) ==
            Some(n * Nanos(u) + if IsZero(digits) then 0 else share(digits, u))
  {
    hide ReadNumber, Digits, UnitText, UnitOf, Suffix, Nanos, IsZero;
    var text := Digits(n) + "." + digits + Suffix(u);
    InRange(n, u);
    DigitsAreDigits(n);
    SuffixReads(u);
    FractionReads(n, digits, Suffix(u));
    assert text[0] == Digits(n)[0];
    assert Suffix(u)[|Suffix(u)|..] == [];
  }

  lemma FractionReads(n: nat, digits: string, rest: string)
    requires n <= LIMIT && AllDigits(digits) && rest != [] && !IsDigit(rest[0])
    ensures ReadNumber(Digits(n) + "." + digits + rest) == Some(Number(n, digits, rest))
  {
    hide LeadingInt, Digits, Fold, DigitRun;
    var behind := "." + (digits + rest);
    assert Digits(n) + "." + digits + rest == Digits(n) + behind;
    DigitsAreDigits(n);
    FoldDigits(n);
    LeadingIntReads(0, Digits(n), behind);
    assert behind[1..] == digits + rest && behind[1 + |digits|..] == rest;
    DigitRunStops(digits, rest);
  }
}
