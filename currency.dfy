/** src/utils/currency.ts: cleaning of a typed currency amount and the blank case of
    the input formatter. `parseFloat` is modelled on exact reals: the longest prefix
    that reads as a decimal literal, or NaN when there is none. */
module Currency {
  import opened Common
  import opened Utils

  // ---------------------------------------------------------------
  // The cleaning steps of parseCurrencyInput
  // ---------------------------------------------------------------

  /** The characters the currency-symbol pattern can consume. */
  predicate SymbolChar(c: char) {
    c == 'R' || c == '$' || IsJsSpace(c)
  }

  predicate NotSymbolChar(c: char) {
    !SymbolChar(c)
  }

  /** `.replace(/R\$\s?/g, '')`: a left-to-right scan that drops each "R$" together
      with one whitespace character right after it. The scan does not look again at
      what it has produced, so "RR$$" becomes "R$". */
  function StripCurrencySymbol(s: string): (r: string)
    ensures |r| <= |s|
  {
    if s == [] then []
    else if |s| >= 2 && s[0] == 'R' && s[1] == '$' then
      if |s| >= 3 && IsJsSpace(s[2]) then StripCurrencySymbol(s[3..]) else StripCurrencySymbol(s[2..])
    else [s[0]] + StripCurrencySymbol(s[1..])
  }

  /** The scan only ever drops 'R', '$' and whitespace: every other character survives,
      in its order. */
  lemma {:induction false} StripKeepsOtherCharacters(s: string)
    ensures Filter(StripCurrencySymbol(s), NotSymbolChar) == Filter(s, NotSymbolChar)
  {
    if s == [] {
    } else if |s| >= 2 && s[0] == 'R' && s[1] == '$' {
      var k := if |s| >= 3 && IsJsSpace(s[2]) then 3 else 2;
      StripKeepsOtherCharacters(s[k..]);
      SymbolDropped(s, k);
      SymbolFilteredOut(s, k);
    } else {
      StripKeepsOtherCharacters(s[1..]);
      HeadKept(s);
    }
  }

  /** A leading "R$", with the blank after it, is what the scan drops. */
  lemma SymbolDropped(s: string, k: nat)
    requires 2 <= k <= |s| && k <= 3 && s[0] == 'R' && s[1] == '$'
    requires k == 3 ==> IsJsSpace(s[2])
    requires k == 2 ==> !(|s| >= 3 && IsJsSpace(s[2]))
    ensures StripCurrencySymbol(s) == StripCurrencySymbol(s[k..])
  {
  }

  /** The symbol and the blank after it hold nothing the filter keeps. */
  lemma SymbolFilteredOut(s: string, k: nat)
    requires 2 <= k <= |s| && k <= 3 && s[0] == 'R' && s[1] == '$'
    requires k == 3 ==> IsJsSpace(s[2])
    ensures Filter(s, NotSymbolChar) == Filter(s[k..], NotSymbolChar)
  {
    var head := s[..k];
    assert s == head + s[k..];
    FilterAppend(head, s[k..], NotSymbolChar);
    assert !NotSymbolChar(head[0]) && !NotSymbolChar(head[1]);
    assert k == 3 ==> !NotSymbolChar(head[2]);
    FilterNonePass(head, NotSymbolChar);
  }

  /** Any other first character is kept by the scan and passes the filter alike. */
  lemma HeadKept(s: string)
    requires s != [] && !(|s| >= 2 && s[0] == 'R' && s[1] == '$')
    ensures Filter(StripCurrencySymbol(s), NotSymbolChar)
      == Filter([s[0]], NotSymbolChar) + Filter(StripCurrencySymbol(s[1..]), NotSymbolChar)
    ensures Filter(s, NotSymbolChar) == Filter([s[0]], NotSymbolChar) + Filter(s[1..], NotSymbolChar)
  {
    assert s == [s[0]] + s[1..];
    FilterAppend([s[0]], s[1..], NotSymbolChar);
    FilterAppend([s[0]], StripCurrencySymbol(s[1..]), NotSymbolChar);
  }

  /** Text without an 'R' has no symbol to strip. */
  lemma {:induction false} StripWithoutSymbol(s: string)
    requires forall i :: 0 <= i < |s| ==> s[i] != 'R'
    ensures StripCurrencySymbol(s) == s
  {
    if s != [] {
      StripWithoutSymbol(s[1..]);
    }
  }

  predicate NotDot(c: char) {
    c != '.'
  }

  /** `.replace(/\./g, '')`: every '.' goes, everything else stays in order. */
  function RemoveDots(s: string): (r: string)
    ensures forall i :: 0 <= i < |r| ==> r[i] != '.'
  {
    Filter(s, NotDot)
  }

  /** `.replace(from, to)` with a string pattern: only the first occurrence is replaced. */
  function ReplaceFirst(s: string, from: char, to: char): (r: string)
    ensures |r| == |s|
    ensures forall i :: 0 <= i < |s| ==>
      r[i] == (if s[i] == from && from !in s[..i] then to else s[i])
  {
    if s == [] then []
    else if s[0] == from then
      ReplacedAtHead(s, from, to);
      [to] + s[1..]
    else
      var rest := ReplaceFirst(s[1..], from, to);
      ReplacedAfterHead(s, from, to, rest);
      [s[0]] + rest
  }

  /** When s starts with from, replacing its first character is replacing the first
      occurrence. */
  lemma ReplacedAtHead(s: string, from: char, to: char)
    requires s != [] && s[0] == from
    ensures forall i :: 0 <= i < |s| ==>
      ([to] + s[1..])[i] == (if s[i] == from && from !in s[..i] then to else s[i])
  {
    var r := [to] + s[1..];
    forall i | 1 <= i < |s|
      ensures r[i] == (if s[i] == from && from !in s[..i] then to else s[i])
    {
      assert s[..i][0] == from;
    }
  }

  /** When s does not start with from, its first occurrence is the tail's. */
  lemma ReplacedAfterHead(s: string, from: char, to: char, rest: string)
    requires s != [] && s[0] != from && |rest| == |s| - 1
    requires forall i :: 0 <= i < |s[1..]| ==>
      rest[i] == (if s[1..][i] == from && from !in s[1..][..i] then to else s[1..][i])
    ensures forall i :: 0 <= i < |s| ==>
      ([s[0]] + rest)[i] == (if s[i] == from && from !in s[..i] then to else s[i])
  {
    var r := [s[0]] + rest;
    forall i | 1 <= i < |s|
      ensures r[i] == (if s[i] == from && from !in s[..i] then to else s[i])
    {
      assert s[..i] == [s[0]] + s[1..][..i - 1];
      assert r[i] == rest[i - 1] && s[i] == s[1..][i - 1];
    }
  }

  /** A string without the character is left alone. */
  lemma ReplaceFirstAbsent(s: string, from: char, to: char)
    requires from !in s
    ensures ReplaceFirst(s, from, to) == s
  {
    assert forall i :: 0 <= i < |s| ==> s[i] != from;
  }

  /** What parseCurrencyInput hands to parseFloat. */
  function CleanCurrencyText(input: string): string {
    Trim(ReplaceFirst(RemoveDots(StripCurrencySymbol(input)), ',', '.'))
  }

  predicate AtMostOneDot(s: string) {
    forall i, j :: 0 <= i < j < |s| && s[i] == '.' ==> s[j] != '.'
  }

  /** With no '.' to begin with, replacing the first ',' leaves at most one '.'. */
  lemma ReplaceFirstCommaGivesOneDot(d: string)
    requires forall i :: 0 <= i < |d| ==> d[i] != '.'
    ensures AtMostOneDot(ReplaceFirst(d, ',', '.'))
  {
    var e := ReplaceFirst(d, ',', '.');
    forall i, j | 0 <= i < j < |e| && e[i] == '.'
      ensures e[j] != '.'
    {
      assert d[i] == ',';
      assert d[..j][i] == d[i];
    }
  }

  /** A slice keeps the property. */
  lemma AtMostOneDotSlice(s: string, lo: int, hi: int)
    requires 0 <= lo <= hi <= |s| && AtMostOneDot(s)
    ensures AtMostOneDot(s[lo..hi])
  {
    var t := s[lo..hi];
    forall i, j | 0 <= i < j < |t| && t[i] == '.'
      ensures t[j] != '.'
    {
      assert t[i] == s[lo + i] && t[j] == s[lo + j];
    }
  }

  /** Every thousands separator is gone and only the first ',' became a decimal point,
      so the cleaned text has at most one '.'. */
  lemma CleanedHasAtMostOneDot(input: string)
    ensures AtMostOneDot(CleanCurrencyText(input))
  {
    var e := ReplaceFirst(RemoveDots(StripCurrencySymbol(input)), ',', '.');
    ReplaceFirstCommaGivesOneDot(RemoveDots(StripCurrencySymbol(input)));
    var t := TrimStart(e);
    AtMostOneDotSlice(e, |e| - |t|, |e|);
    AtMostOneDotSlice(t, 0, |TrimEnd(t)|);
  }

  // ---------------------------------------------------------------
  // parseFloat
  // ---------------------------------------------------------------

  /** The length of the run of digits at the start of s. */
  function LeadingDigitCount(s: string): (n: nat)
    ensures n <= |s|
    ensures forall i :: 0 <= i < n ==> IsDigit(s[i])
    ensures n == |s| || !IsDigit(s[n])
  {
    if s != [] && IsDigit(s[0]) then 1 + LeadingDigitCount(s[1..]) else 0
  }

  /** The text after an optional leading sign. */
  function Unsigned(t: string): string {
    if |t| > 0 && (t[0] == '-' || t[0] == '+') then t[1..] else t
  }

  predicate Negative(t: string) {
    |t| > 0 && t[0] == '-'
  }

  /** 10^e for any integer exponent. */
  function Power10(e: int): (r: real)
    ensures r > 0.0
  {
    if e >= 0 then Pow10(e) as real else 1.0 / Pow10(-e) as real
  }

  /** The value of an exponent part "e±digits" at the start of t, 0 when there is none. */
  function ExponentOf(t: string): int {
    if |t| >= 1 && (t[0] == 'e' || t[0] == 'E') then
      var v := t[1..];
      var w := Unsigned(v);
      var m := LeadingDigitCount(w);
      var magnitude: int := if m == 0 then 0 else DigitsValue(w[..m]);
      if Negative(v) then -magnitude else magnitude
    else 0
  }

  predicate StartsWithInfinity(u: string) {
    |u| >= 8 && u[..8] == "Infinity"
  }

  /** Whether an unsigned decimal starts u: a digit, or a '.' followed by a digit. */
  predicate StartsDecimal(u: string) {
    (|u| > 0 && IsDigit(u[0])) || (|u| > 1 && u[0] == '.' && IsDigit(u[1]))
  }

  /** Whether a decimal literal starts s, after leading whitespace and a sign. */
  predicate StartsNumber(s: string) {
    var u := Unsigned(TrimStart(s));
    StartsWithInfinity(u) || StartsDecimal(u)
  }

  /** The magnitude of an unsigned literal. */
  datatype Magnitude = Infinite | Exactly(value: real)

  /** Integer digits a and fraction digits b read as a + b / 10^|b|. */
  function Mantissa(a: string, b: string): real
    requires AllDigitChars(a) && AllDigitChars(b)
  {
    DigitsValue(a) as real + DigitsValue(b) as real / Pow10(|b|) as real
  }

  /** The value of the unsigned decimal at the start of u: digits, an optional '.' and
      fraction digits, and an optional exponent; None when no digit is there. */
  function ReadDecimal(u: string): (r: Option<real>)
    ensures r.None? <==> !StartsDecimal(u)
  {
    var n := LeadingDigitCount(u);
    DecimalAfterDigits(u[..n], u[n..])
  }

  /** The rest of a decimal once its integer digits are read. */
  function DecimalAfterDigits(digits: string, rest: string): (r: Option<real>)
    requires AllDigitChars(digits)
    ensures r.None? <==> digits == [] && !(|rest| > 1 && rest[0] == '.' && IsDigit(rest[1]))
  {
    var point := |rest| > 0 && rest[0] == '.';
    var f := if point then LeadingDigitCount(rest[1..]) else 0;
    if |digits| == 0 && f == 0 then None
    else
      var fraction := if point then rest[1..1 + f] else "";
      var afterFraction := if point then rest[1 + f..] else rest;
      Some(Mantissa(digits, fraction) * Power10(ExponentOf(afterFraction)))
  }

  function ReadMagnitude(u: string): (r: Option<Magnitude>)
    ensures r.None? <==> !StartsWithInfinity(u) && !StartsDecimal(u)
    ensures r == Some(Infinite) <==> StartsWithInfinity(u)
  {
    if StartsWithInfinity(u) then Some(Infinite)
    else
      match ReadDecimal(u)
      case None => None
      case Some(v) => Some(Exactly(v))
  }

  /** `parseFloat`: the value of the longest decimal-literal prefix, NaN when there is
      none. */
  function ParseFloat(s: string): (r: JsNumber)
    ensures r.NaN? <==> !StartsNumber(s)
    ensures (r.PosInf? || r.NegInf?) <==> StartsWithInfinity(Unsigned(TrimStart(s)))
  {
    var t := TrimStart(s);
    match ReadMagnitude(Unsigned(t))
    case None => NaN
    case Some(Infinite) => if Negative(t) then NegInf else PosInf
    case Some(Exactly(v)) => Finite(if Negative(t) then -v else v)
  }

  predicate AllDigitChars(s: string) {
    forall i :: 0 <= i < |s| ==> IsDigit(s[i])
  }

  /** A plain decimal "a.b" reads as a + b / 10^|b| when it has a digit. */
  lemma ReadPlainDecimal(a: string, b: string)
    requires AllDigitChars(a) && AllDigitChars(b) && |a| + |b| > 0
    ensures ReadDecimal(a + "." + b) == Some(Mantissa(a, b))
  {
    var s := a + "." + b;
    var n := LeadingDigitCount(s);
    assert s[|a|] == '.';
    assert n == |a|;
    assert s[..n] == a && s[n..] == "." + b;
    var rest := "." + b;
    assert rest[1..] == b;
    assert LeadingDigitCount(b) == |b|;
    assert rest[1..1 + |b|] == b && rest[1 + |b|..] == "";
    assert ExponentOf("") == 0;
    assert DecimalAfterDigits(a, rest) == Some(Mantissa(a, b) * Power10(0));
  }

  lemma NotInfinity(u: string)
    requires u != [] && u[0] != 'I'
    ensures !StartsWithInfinity(u)
  {
    if |u| >= 8 {
      assert u[..8][0] == u[0];
    }
  }

  lemma TrimStartUnchanged(s: string)
    requires s == [] || !IsJsSpace(s[0])
    ensures TrimStart(s) == s
  {
  }

  lemma ParseDecimal(a: string, b: string)
    requires AllDigitChars(a) && AllDigitChars(b) && |a| + |b| > 0
    ensures ParseFloat(a + "." + b) == Finite(Mantissa(a, b))
  {
    var s := a + "." + b;
    assert s[0] == '.' || IsDigit(s[0]);
    TrimStartUnchanged(s);
    assert Unsigned(s) == s && !Negative(s);
    NotInfinity(s);
    ReadPlainDecimal(a, b);
    assert ReadMagnitude(s) == Some(Exactly(Mantissa(a, b)));
  }

  /** An empty number: "." reads as NaN. */
  lemma ParseLonePoint()
    ensures ParseFloat(".").NaN?
  {
    assert TrimStart(".") == ".";
    assert !StartsNumber(".");
  }

  // ---------------------------------------------------------------
  // parseCurrencyInput and formatCurrencyInput
  // ---------------------------------------------------------------

  /** `parseCurrencyInput`: parseFloat of the cleaned text, 0 when that is NaN. */
  function ParseCurrencyInput(input: string): (r: JsNumber)
    ensures !r.NaN?
    ensures !StartsNumber(CleanCurrencyText(input)) ==> r == Finite(0.0)
    ensures StartsNumber(CleanCurrencyText(input)) ==> r == ParseFloat(CleanCurrencyText(input))
  {
    var value := ParseFloat(CleanCurrencyText(input));
    if value.NaN? then Finite(0.0) else value
  }

  predicate DigitOrDot(c: char) {
    IsDigit(c) || c == '.'
  }

  /** A leading "R$ " is dropped as a whole. */
  lemma StripLeadingSymbol(x: string)
    ensures StripCurrencySymbol("R$ " + x) == StripCurrencySymbol(x)
  {
    var s := "R$ " + x;
    assert s[0] == 'R' && s[1] == '$' && s[2] == ' ' && s[3..] == x;
  }

  /** Removing the separators of "<digits and dots>,<digits>" keeps the digits and the
      comma. */
  lemma RemoveSeparators(whole: string, cents: string)
    requires forall i :: 0 <= i < |whole| ==> DigitOrDot(whole[i])
    requires AllDigitChars(cents)
    ensures RemoveDots(whole + "," + cents) == DigitsOnly(whole) + "," + cents
  {
    FilterAppend(whole + ",", cents, NotDot);
    FilterAppend(whole, ",", NotDot);
    FilterCongruent(whole, NotDot, IsDigit);
    FilterAllPass(cents, NotDot);
    FilterAllPass(",", NotDot);
  }

  /** Cleaning "R$ <digits and dots>,<digits>" leaves the digits with the comma turned
      into a decimal point. */
  lemma CleanFormattedAmount(whole: string, cents: string)
    requires forall i :: 0 <= i < |whole| ==> DigitOrDot(whole[i])
    requires AllDigitChars(cents)
    ensures CleanCurrencyText("R$ " + whole + "," + cents) == DigitsOnly(whole) + "." + cents
  {
    var input := "R$ " + whole + "," + cents;
    var d := DigitsOnly(whole);
    StripFormatted(whole, cents);
    assert StripCurrencySymbol(input) == whole + "," + cents;
    RemoveSeparators(whole, cents);
    assert RemoveDots(StripCurrencySymbol(input)) == d + "," + cents;
    assert ',' !in d;
    ReplaceFirstAt(d, cents, ',', '.');
    assert ReplaceFirst(d + "," + cents, ',', '.') == d + "." + cents;
    TrimOfAmount(d, cents);
  }

  /** Stripping "R$ " in front of digits, dots and a comma leaves the rest as it is. */
  lemma StripFormatted(whole: string, cents: string)
    requires forall i :: 0 <= i < |whole| ==> DigitOrDot(whole[i])
    requires AllDigitChars(cents)
    ensures StripCurrencySymbol("R$ " + whole + "," + cents) == whole + "," + cents
  {
    var x := whole + "," + cents;
    assert "R$ " + whole + "," + cents == "R$ " + x;
    StripLeadingSymbol(x);
    assert forall i :: 0 <= i < |x| ==> x[i] != 'R' by {
      forall i | 0 <= i < |x|
        ensures x[i] != 'R'
      {
        if i < |whole| {
          assert x[i] == whole[i];
        } else if i > |whole| {
          assert x[i] == cents[i - |whole| - 1];
        }
      }
    }
    StripWithoutSymbol(x);
  }

  /** An amount of digits around a point has nothing to trim. */
  lemma TrimOfAmount(d: string, cents: string)
    requires AllDigitChars(d) && AllDigitChars(cents)
    ensures Trim(d + "." + cents) == d + "." + cents
  {
    var e := d + "." + cents;
    assert e[0] == '.' || IsDigit(e[0]);
    assert e[|e| - 1] == '.' || IsDigit(e[|e| - 1]);
    TrimUnchanged(e);
  }

  /** A typed amount "R$ <digits with '.' separators>,<cents>" reads as the integer
      digits plus the cents, whatever the grouping (an empty amount reads as 0). */
  lemma ParseFormattedAmount(input: string, whole: string, cents: string)
    requires input == "R$ " + whole + "," + cents
    requires forall i :: 0 <= i < |whole| ==> DigitOrDot(whole[i])
    requires AllDigitChars(cents)
    ensures ParseCurrencyInput(input) == Finite(Mantissa(DigitsOnly(whole), cents))
  {
    var d := DigitsOnly(whole);
    var e := d + "." + cents;
    CleanFormattedAmount(whole, cents);
    if |d| + |cents| > 0 {
      ParseOfCleaned(input, e);
      ParseDecimal(d, cents);
    } else {
      assert e == ".";
      EmptyAmount(input);
      EmptyMantissa(d, cents);
    }
  }

  /** Text that cleans to a lone "." reads as 0. */
  lemma EmptyAmount(input: string)
    requires CleanCurrencyText(input) == "."
    ensures ParseCurrencyInput(input) == Finite(0.0)
  {
    ParseLonePoint();
  }

  lemma EmptyMantissa(d: string, cents: string)
    requires d == [] && cents == []
    ensures Mantissa(d, cents) == 0.0
  {
  }

  lemma ParseOfCleaned(input: string, cleaned: string)
    requires CleanCurrencyText(input) == cleaned
    ensures ParseCurrencyInput(input) == if ParseFloat(cleaned).NaN? then Finite(0.0) else ParseFloat(cleaned)
  {
  }

  lemma {:induction false} ReplaceFirstAt(d: string, rest: string, from: char, to: char)
    requires from !in d
    ensures ReplaceFirst(d + [from] + rest, from, to) == d + [to] + rest
  {
    if d != [] {
      assert (d + [from] + rest)[1..] == d[1..] + [from] + rest;
      ReplaceFirstAt(d[1..], rest, from, to);
    }
  }

  /** Digits around a single point: the point is the only character dropped. */
  lemma DigitsAroundPoint(x: string, y: string)
    requires forall i :: 0 <= i < |x| ==> IsDigit(x[i])
    requires forall i :: 0 <= i < |y| ==> IsDigit(y[i])
    ensures DigitsOnly(x + "." + y) == x + y
  {
    DigitsOnlyAppend(x + ".", y);
    DigitsOnlyAppend(x, ".");
    DigitsOnlyOfDigits(x);
    DigitsOnlyOfDigits(y);
    assert DigitsOnly(".") == [];
  }

  lemma ValueOfDigits()
    ensures DigitsValue("1234") == 1234 && DigitsValue("56") == 56
  {
    assert "1234"[..3] == "123" && "123"[..2] == "12" && "12"[..1] == "1";
    assert "56"[..1] == "5";
  }

  /** The example of the documentation: "R$ 1.234,56" reads as 1234.56. */
  lemma DocumentedExample(input: string)
    requires input == "R$ 1.234,56"
    ensures ParseCurrencyInput(input) == Finite(1234.56)
  {
    ExampleParts(input, "1.234", "56");
  }

  lemma ExampleParts(input: string, whole: string, cents: string)
    requires input == "R$ 1.234,56" && whole == "1.234" && cents == "56"
    ensures ParseCurrencyInput(input) == Finite(1234.56)
  {
    assert input == "R$ " + whole + "," + cents;
    assert forall i :: 0 <= i < |whole| ==> DigitOrDot(whole[i]);
    ParseFormattedAmount(input, whole, cents);
    GroupedDigits(whole);
    ExampleMantissa(DigitsOnly(whole), cents);
  }

  lemma GroupedDigits(whole: string)
    requires whole == "1.234"
    ensures DigitsOnly(whole) == "1234"
  {
    var x, y := whole[..1], whole[2..];
    assert whole == x + "." + y;
    DigitsAroundPoint(x, y);
    assert x + y == "1234";
  }

  lemma ExampleMantissa(a: string, b: string)
    requires a == "1234" && b == "56"
    ensures Mantissa(a, b) == 1234.56
  {
    ValueOfDigits();
    assert Pow10(|b|) == 100;
  }

  /** `formatCurrencyInput`: '' for 0 and for NaN (`!value`), otherwise the locale
      text of value / 100, which is given. */
  function FormatCurrencyInput(value: JsNumber, localeText: string): (r: string)
    requires localeText != ""
    ensures r == "" <==> value == Finite(0.0) || value.NaN?
  {
    if value == Finite(0.0) || value.NaN? then "" else localeText
  }
}
