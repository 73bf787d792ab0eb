/** The number parsing the three forms (src/components/modals/NewTransactionModal.tsx,
    AddCardModal.tsx and AddMemberModal.tsx) apply to their text fields: `parseInt`
    and `parseFloat` on strings their inputs have already reduced to digits. */
module FormInput {
  import opened Common
  import opened Currency

  /** `parseInt(s)` in base 10: optional leading white space and sign, then the
      longest run of digits; NaN when there is no digit. */
  function ParseInt(s: string): (r: JsNumber)
    ensures !r.PosInf? && !r.NegInf?
    ensures r.NaN? <==> LeadingDigitCount(Unsigned(TrimStart(s))) == 0
    ensures r.Finite? ==> r.value.Floor as real == r.value
  {
    var t := TrimStart(s);
    var u := Unsigned(t);
    var n := LeadingDigitCount(u);
    if n == 0 then NaN
    else
      var v: int := DigitsValue(u[..n]);
      Finite((if Negative(t) then -v else v) as real)
  }

  /** On a non-empty digit string, `parseInt` reads the whole string. */
  lemma ParseIntOfDigits(s: string)
    requires s != [] && AllDigitChars(s)
    ensures ParseInt(s) == Finite(DigitsValue(s) as real)
  {
    assert IsDigit(s[0]);
    TrimStartUnchanged(s);
    assert LeadingDigitCount(s) == |s|;
    assert s[..|s|] == s;
  }

  /** On a non-empty digit string, `parseFloat` agrees with `parseInt`. */
  lemma ParseFloatOfDigits(s: string)
    requires s != [] && AllDigitChars(s)
    ensures ParseFloat(s) == ParseInt(s)
  {
    ParseIntOfDigits(s);
    assert IsDigit(s[0]);
    TrimStartUnchanged(s);
    NotInfinity(s);
    assert LeadingDigitCount(s) == |s|;
    assert s[..|s|] == s && s[|s|..] == "";
    assert ReadDecimal(s) == Some(Mantissa(s, ""));
  }

  /** A leading '.' has no digit before it: `parseInt` of ".5", or of any string
      starting with a point, is NaN. */
  lemma ParseIntOfLeadingPoint(s: string)
    requires |s| > 0 && s[0] == '.'
    ensures ParseInt(s).NaN?
  {
    TrimStartUnchanged(s);
    assert Unsigned(s) == s;
    assert !IsDigit(s[0]);
  }

  /** `parseFloat(s.replace(/\D/g, '')) / 100`: the digits of s read as cents; NaN
      when s holds no digit. */
  function CentsAmount(s: string): (r: JsNumber)
    ensures r.NaN? <==> DigitsOnly(s) == ""
    ensures r.Finite? ==> r.value >= 0.0 && r.value * 100.0 == DigitsValue(DigitsOnly(s)) as real
  {
    var digits := DigitsOnly(s);
    match ParseFloatDigits(digits)
    case Finite(v) => Finite(v / 100.0)
    case _ => NaN
  }

  /** `parseFloat` on a string of digits only. */
  function ParseFloatDigits(digits: string): (r: JsNumber)
    requires AllDigitChars(digits)
    ensures r.NaN? <==> digits == ""
    ensures r.Finite? ==> r.value == DigitsValue(digits) as real
  {
    if digits == "" then NaN
    else
      ParseFloatOfDigits(digits);
      ParseIntOfDigits(digits);
      ParseFloat(digits)
  }

  /** `parseFloat(s.replace(/\D/g, '')) / 100` on a non-empty digit string. */
  function CentsValue(s: string): (r: real)
    requires AllDigitChars(s) && s != ""
    ensures r >= 0.0 && r * 100.0 == DigitsValue(s) as real
    ensures CentsAmount(s) == Finite(r)
  {
    DigitsOnlyOfDigits(s);
    CentsAmount(s).value
  }
}
