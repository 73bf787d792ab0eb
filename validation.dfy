/** src/utils/validation.ts: the Brazilian taxpayer number (CPF) check, the e-mail
    shape check and the small predicates the forms use. */
module Validation {
  import opened Common
  import opened Calendar

  // ---------------------------------------------------------------
  // isValidCPF
  // ---------------------------------------------------------------

  predicate AllDigits(s: string) {
    forall i :: 0 <= i < |s| ==> IsDigit(s[i])
  }

  /** Sum of the first n digits, the k-th (from 0) weighted by top - k. */
  function WeightedSum(ds: string, n: nat, top: int): int
    requires n <= |ds| && AllDigits(ds)
  {
    if n == 0 then 0 else WeightedSum(ds, n - 1, top) + DigitValue(ds[n - 1]) * (top - (n - 1))
  }

  /** The check digit over the first n digits: ten times the sum weighted from n + 1
      down to 2, modulo 11, with 10 read as 0. */
  function CheckDigit(ds: string, n: nat): (r: nat)
    requires n <= |ds| && AllDigits(ds)
    ensures r <= 9
  {
    var rem := (WeightedSum(ds, n, n + 1) * 10) % 11;
    if rem == 10 then 0 else rem
  }

  /** Every character equals the first one. */
  predicate AllSame(s: string) {
    forall i :: 0 <= i < |s| ==> s[i] == s[0]
  }

  /** What a valid CPF is: eleven digits once everything else is dropped, not all the
      same, and both check digits right. */
  predicate CpfValid(cpf: string) {
    var c := DigitsOnly(cpf);
    |c| == 11 && !AllSame(c)
    && CheckDigit(c, 9) == DigitValue(c[9])
    && CheckDigit(c, 10) == DigitValue(c[10])
  }

  /** `isValidCPF`: the two weighted sums are accumulated in loops. */
  method IsValidCPF(cpf: string) returns (ok: bool)
    ensures ok == CpfValid(cpf)
  {
    var cleaned := DigitsOnly(cpf);
    if |cleaned| != 11 {
      return false;
    }
    if AllSame(cleaned) {
      return false;
    }
    var sum := 0;
    var i := 0;
    while i < 9
      invariant 0 <= i <= 9
      invariant sum == WeightedSum(cleaned, i, 10)
    {
      sum := sum + DigitValue(cleaned[i]) * (10 - i);
      i := i + 1;
    }
    var remainder := (sum * 10) % 11;
    if remainder == 10 || remainder == 11 {
      remainder := 0;
    }
    if remainder != DigitValue(cleaned[9]) {
      return false;
    }
    sum := 0;
    i := 0;
    while i < 10
      invariant 0 <= i <= 10
      invariant sum == WeightedSum(cleaned, i, 11)
    {
      sum := sum + DigitValue(cleaned[i]) * (11 - i);
      i := i + 1;
    }
    remainder := (sum * 10) % 11;
    if remainder == 10 || remainder == 11 {
      remainder := 0;
    }
    if remainder != DigitValue(cleaned[10]) {
      return false;
    }
    return true;
  }

  /** Only the digits matter: punctuation and any other character are ignored. */
  lemma CpfOnlyDigitsMatter(cpf: string)
    ensures CpfValid(cpf) == CpfValid(DigitsOnly(cpf))
  {
    DigitsOnlyIdempotent(cpf);
  }

  lemma {:induction false} WeightedSumPrefix(ds: string, m: nat, n: nat, top: int)
    requires n <= m <= |ds| && AllDigits(ds)
    ensures AllDigits(ds[..m]) && WeightedSum(ds[..m], n, top) == WeightedSum(ds, n, top)
  {
    if n > 0 {
      WeightedSumPrefix(ds, m, n - 1, top);
    }
  }

  function DigitChar(d: nat): (c: char)
    requires d <= 9
    ensures IsDigit(c) && DigitValue(c) == d
  {
    ('0' as int + d) as char
  }

  /** The eleven-digit number whose first nine digits are `base`, with its two check
      digits computed. */
  function CompleteCpf(base: string): (r: string)
    requires |base| == 9 && AllDigits(base)
    ensures |r| == 11 && AllDigits(r) && r[..9] == base
  {
    var d10 := DigitChar(CheckDigit(base, 9));
    var ten := base + [d10];
    ten + [DigitChar(CheckDigit(ten, 10))]
  }

  /** An eleven-digit string is a valid CPF exactly when its digits are not all the
      same and it is the completion of its first nine digits. */
  lemma CpfIsCompletion(s: string)
    requires |s| == 11 && AllDigits(s)
    ensures CpfValid(s) <==> !AllSame(s) && s == CompleteCpf(s[..9])
  {
    FilterAllPass(s, IsDigit);
    assert DigitsOnly(s) == s;
    WeightedSumPrefix(s, 9, 9, 10);
    WeightedSumPrefix(s, 10, 10, 11);
    assert s[..10][..9] == s[..9];
    var c := CompleteCpf(s[..9]);
    if CheckDigit(s, 9) == DigitValue(s[9]) {
      assert s[..10] == s[..9] + [DigitChar(CheckDigit(s[..9], 9))];
    }
    if s == c {
      assert s[..10] == s[..9] + [DigitChar(CheckDigit(s[..9], 9))];
    }
  }

  /** The first weighted sum of 111.111.111-11. */
  lemma OnesFirstSum()
    ensures AllDigits("11111111111") && WeightedSum("11111111111", 9, 10) == 54
    ensures CheckDigit("11111111111", 9) == 1
  {
    var s := "11111111111";
    assert AllDigits(s);
    assert WeightedSum(s, 1, 10) == 10;
    assert WeightedSum(s, 2, 10) == 19;
    assert WeightedSum(s, 3, 10) == 27;
    assert WeightedSum(s, 4, 10) == 34;
    assert WeightedSum(s, 5, 10) == 40;
    assert WeightedSum(s, 6, 10) == 45;
    assert WeightedSum(s, 7, 10) == 49;
    assert WeightedSum(s, 8, 10) == 52;
  }

  /** The second weighted sum of 111.111.111-11. */
  lemma OnesSecondSum()
    ensures AllDigits("11111111111") && WeightedSum("11111111111", 10, 11) == 65
    ensures CheckDigit("11111111111", 10) == 1
  {
    var s := "11111111111";
    assert AllDigits(s);
    assert WeightedSum(s, 1, 11) == 11;
    assert WeightedSum(s, 2, 11) == 21;
    assert WeightedSum(s, 3, 11) == 30;
    assert WeightedSum(s, 4, 11) == 38;
    assert WeightedSum(s, 5, 11) == 45;
    assert WeightedSum(s, 6, 11) == 51;
    assert WeightedSum(s, 7, 11) == 56;
    assert WeightedSum(s, 8, 11) == 60;
    assert WeightedSum(s, 9, 11) == 63;
  }

  /** 111.111.111-11 written without punctuation keeps all its characters. */
  lemma OnesAreDigitsOnly()
    ensures DigitsOnly("11111111111") == "11111111111"
  {
    DigitsOnlyOfDigits("11111111111");
  }

  /** 111.111.111-11 repeats one digit. */
  lemma OnesAllSame()
    ensures AllSame("11111111111")
  {
    var s := "11111111111";
    forall i | 0 <= i < |s|
      ensures s[i] == s[0]
    {
    }
  }

  /** 111.111.111-11 has both check digits right; only the repeated-digit rule
      rejects it. */
  lemma RepeatedDigitsNeedTheirOwnRule()
    ensures AllDigits("11111111111")
    ensures CheckDigit("11111111111", 9) == 1 && CheckDigit("11111111111", 10) == 1
    ensures !CpfValid("11111111111")
  {
    OnesAreDigitsOnly();
    OnesAllSame();
    OnesFirstSum();
    OnesSecondSum();
  }

  /** The first weighted sum of 529.982.247-25. */
  lemma SampleFirstSum()
    ensures AllDigits("52998224725") && WeightedSum("52998224725", 9, 10) == 295
    ensures CheckDigit("52998224725", 9) == 2
  {
    var s := "52998224725";
    assert AllDigits(s);
    assert WeightedSum(s, 1, 10) == 50;
    assert WeightedSum(s, 2, 10) == 68;
    assert WeightedSum(s, 3, 10) == 140;
    assert WeightedSum(s, 4, 10) == 203;
    assert WeightedSum(s, 5, 10) == 251;
    assert WeightedSum(s, 6, 10) == 261;
    assert WeightedSum(s, 7, 10) == 269;
    assert WeightedSum(s, 8, 10) == 281;
  }

  /** The second weighted sum of 529.982.247-25. */
  lemma SampleSecondSum()
    ensures AllDigits("52998224725") && WeightedSum("52998224725", 10, 11) == 347
    ensures CheckDigit("52998224725", 10) == 5
  {
    var s := "52998224725";
    assert AllDigits(s);
    assert WeightedSum(s, 1, 11) == 55;
    assert WeightedSum(s, 2, 11) == 75;
    assert WeightedSum(s, 3, 11) == 156;
    assert WeightedSum(s, 4, 11) == 228;
    assert WeightedSum(s, 5, 11) == 284;
    assert WeightedSum(s, 6, 11) == 296;
    assert WeightedSum(s, 7, 11) == 306;
    assert WeightedSum(s, 8, 11) == 322;
    assert WeightedSum(s, 9, 11) == 343;
  }

  /** 529.982.247-25 written without punctuation keeps all its characters. */
  lemma SampleIsDigitsOnly()
    ensures DigitsOnly("52998224725") == "52998224725"
  {
    DigitsOnlyOfDigits("52998224725");
  }

  /** The digits of 529.982.247-25 are not all the same, and its check digits are 2
      and 5. */
  lemma SampleDigits()
    ensures !AllSame("52998224725")
    ensures DigitValue("52998224725"[9]) == 2 && DigitValue("52998224725"[10]) == 5
  {
    var s := "52998224725";
    assert s[1] != s[0];
  }

  /** 529.982.247-25 (digits only) is a valid CPF. */
  lemma SampleCpfIsValid()
    ensures CpfValid("52998224725")
  {
    SampleIsDigitsOnly();
    SampleDigits();
    SampleFirstSum();
    SampleSecondSum();
  }

  // ---------------------------------------------------------------
  // isValidEmail
  // ---------------------------------------------------------------

  /** A character of the class `[^\s@]`. */
  predicate PlainChar(c: char) {
    !IsJsSpace(c) && c != '@'
  }

  predicate AllPlain(s: string) {
    forall k :: 0 <= k < |s| ==> PlainChar(s[k])
  }

  /** The pattern /^[^\s@]+@[^\s@]+\.[^\s@]+$/ matches with its '@' at i and its '.'
      at j. */
  predicate EmailSplitAt(s: string, i: int, j: int) {
    0 < i && i + 1 < j && j + 1 < |s| && s[i] == '@' && s[j] == '.'
    && AllPlain(s[..i]) && AllPlain(s[i + 1..j]) && AllPlain(s[j + 1..])
  }

  predicate MatchesEmailPattern(s: string) {
    exists i, j :: 0 <= i < |s| && 0 <= j < |s| && EmailSplitAt(s, i, j)
  }

  /** Index of the first occurrence of c, or -1. */
  function IndexOf(s: string, c: char): (r: int)
    ensures -1 <= r < |s|
    ensures r >= 0 ==> s[r] == c && c !in s[..r]
    ensures r == -1 ==> c !in s
  {
    if s == [] then -1
    else if s[0] == c then 0
    else
      var r := IndexOf(s[1..], c);
      assert s == [s[0]] + s[1..];
      if r == -1 then -1
      else
        assert s[..r + 1] == [s[0]] + s[1..][..r];
        r + 1
  }

  /** The first c in a + [c] + b is the one after a, when a holds none. */
  lemma IndexOfAfterPrefix(a: string, c: char, b: string)
    requires c !in a
    ensures IndexOf(a + [c] + b, c) == |a|
  {
    var s := a + [c] + b;
    assert s[|a|] == c;
  }

  /** `isValidEmail`, read plainly: no whitespace, exactly one '@' with text before
      it, and after it a '.' with text on both sides. */
  predicate IsValidEmail(s: string) {
    var at := IndexOf(s, '@');
    var domain := s[at + 1..];
    && (forall k :: 0 <= k < |s| ==> !IsJsSpace(s[k]))
    && at > 0
    && '@' !in domain
    && |domain| >= 3 && '.' in domain[1..|domain| - 1]
  }

  /** A string the plain reading accepts matches the regular expression. */
  lemma ValidEmailMatchesPattern(s: string)
    requires IsValidEmail(s)
    ensures MatchesEmailPattern(s)
  {
    var i := IndexOf(s, '@');
    var d := s[i + 1..];
    var m := d[1..|d| - 1];
    var k :| 0 <= k < |m| && m[k] == '.';
    var j := i + 2 + k;
    assert s[j] == '.';
    assert forall t :: 0 <= t < |d| ==> d[t] != '@';
    assert AllPlain(s[..i]);
    assert AllPlain(s[i + 1..j]);
    assert AllPlain(s[j + 1..]);
    assert EmailSplitAt(s, i, j);
  }

  /** A string the regular expression matches passes the plain reading. */
  lemma PatternMatchIsValidEmail(s: string)
    requires MatchesEmailPattern(s)
    ensures IsValidEmail(s)
  {
    var i, j :| 0 <= i < |s| && 0 <= j < |s| && EmailSplitAt(s, i, j);
    assert '@' !in s[..i];
    assert IndexOf(s, '@') == i;
    SplitHasNoSpace(s, i, j);
    SplitDomainHasNoAt(s, i, j);
    var d := s[i + 1..];
    assert |d| >= 3;
    var inner := d[1..|d| - 1];
    assert inner[j - i - 2] == s[j];
    assert '.' in inner;
  }

  /** Around a split, every character is plain or one of the '@' and '.' between the
      parts: none is white space. */
  lemma SplitHasNoSpace(s: string, i: int, j: int)
    requires EmailSplitAt(s, i, j)
    ensures forall t :: 0 <= t < |s| ==> !IsJsSpace(s[t])
  {
    forall t | 0 <= t < |s|
      ensures !IsJsSpace(s[t])
    {
      if t < i {
        assert s[t] == s[..i][t];
      } else if i < t < j {
        assert s[t] == s[i + 1..j][t - i - 1];
      } else if t > j {
        assert s[t] == s[j + 1..][t - j - 1];
      }
    }
  }

  /** After the split's '@' there is no other '@'. */
  lemma SplitDomainHasNoAt(s: string, i: int, j: int)
    requires EmailSplitAt(s, i, j)
    ensures '@' !in s[i + 1..]
  {
    var d := s[i + 1..];
    forall t | 0 <= t < |d|
      ensures d[t] != '@'
    {
      if i + 1 + t < j {
        assert d[t] == s[i + 1..j][t];
      } else if i + 1 + t > j {
        assert d[t] == s[j + 1..][t - (j - i)];
      }
    }
  }

  /** The plain reading agrees with the regular expression, in both directions. */
  lemma EmailCheckIsThePattern(s: string)
    ensures IsValidEmail(s) <==> MatchesEmailPattern(s)
  {
    if IsValidEmail(s) {
      ValidEmailMatchesPattern(s);
    }
    if MatchesEmailPattern(s) {
      PatternMatchIsValidEmail(s);
    }
  }

  // ---------------------------------------------------------------
  // isValidDate, isPositiveNumber, hasMinLength, isInRange
  // ---------------------------------------------------------------

  /** `isValidDate`: `date` None stands for an invalid date (NaN time). A valid date is
      accepted unless it lies after `now` and future dates are not allowed. */
  function IsValidDate(date: Option<Date>, allowFuture: bool, now: Date): (r: bool)
    ensures date.None? ==> !r
    ensures date.Some? && !allowFuture ==> (r <==> Millis(date.value) <= Millis(now))
    ensures date.Some? && allowFuture ==> r
  {
    match date
    case None => false
    case Some(d) => allowFuture || !(Millis(d) > Millis(now))
  }

  /** A date in the past is accepted whether or not the future is allowed; today's
      date (up to now) too. */
  lemma PastDatesAlwaysValid(d: Date, now: Date, allowFuture: bool)
    requires Before(d, now) || d == now
    ensures IsValidDate(Some(d), allowFuture, now)
  {
    MillisOrderIsCalendarOrder(d, now);
  }

  /** A value of any type: a number (possibly NaN or infinite) or anything else. */
  datatype JsValue = Number(n: JsNumber) | NotANumberType

  /** `isPositiveNumber`: numbers above zero, positive infinity included. */
  function IsPositiveNumber(value: JsValue): (r: bool)
    ensures r <==> value == Number(PosInf) || (value.Number? && value.n.Finite? && value.n.value > 0.0)
  {
    match value
    case NotANumberType => false
    case Number(n) => n != NaN && n.Above(0.0)
  }

  /** `hasMinLength`: the trimmed length is compared. */
  function HasMinLength(value: string, minLength: int): (r: bool)
    ensures r ==> |value| >= minLength
    ensures r <==> |Trim(value)| >= minLength
  {
    |Trim(value)| >= minLength
  }

  /** A string of whitespace only never has a positive minimum length. */
  lemma {:induction false} BlankHasNoLength(value: string, minLength: int)
    requires forall k :: 0 <= k < |value| ==> IsJsSpace(value[k])
    requires minLength >= 1
    ensures !HasMinLength(value, minLength)
  {
    BlankTrimsToEmpty(value);
  }

  lemma {:induction false} BlankTrimsToEmpty(s: string)
    requires forall k :: 0 <= k < |s| ==> IsJsSpace(s[k])
    ensures TrimStart(s) == []
  {
    if s != [] {
      BlankTrimsToEmpty(s[1..]);
    }
  }

  /** `isInRange`: both bounds inclusive. */
  predicate IsInRange(value: real, min: real, max: real) {
    value >= min && value <= max
  }
}
