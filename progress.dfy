/** The percentage gauges of the cards page (src/pages/Cartoes.tsx), the card details
    window (src/components/modals/CardDetailsModal.tsx) and the goals page
    (src/pages/Objetivos.tsx): `Math.round((part / whole) * 100)`, the colour chosen
    from it, and the bar width capped at 100. */
module Progress {
  import opened Common

  /** `Math.round((part / whole) * 100)`. A non-zero whole gives the percentage rounded
      half up; dividing by zero gives an infinity of the part's sign, or NaN for 0/0,
      and `Math.round` passes those through. */
  function RoundedPercent(part: real, whole: real): (r: JsNumber)
    ensures whole != 0.0 ==> r.Finite? && r.value == r.value.Floor as real
    ensures whole != 0.0 ==> part / whole * 100.0 - 0.5 < r.value <= part / whole * 100.0 + 0.5
    ensures whole == 0.0 ==> (r.PosInf? <==> part > 0.0) && (r.NegInf? <==> part < 0.0)
                             && (r.NaN? <==> part == 0.0)
  {
    if whole != 0.0 then Finite(RoundHalfUp(part / whole * 100.0) as real)
    else if part > 0.0 then PosInf
    else if part < 0.0 then NegInf
    else NaN
  }

  /** Multiplying by a positive factor keeps the order. */
  lemma MulKeepsOrder(a: real, b: real, c: real)
    requires c > 0.0
    ensures a <= b <==> a * c <= b * c
  {
  }

  /** Dividing by a positive divisor keeps the order. */
  lemma DivKeepsOrder(a: real, b: real, w: real)
    requires w > 0.0
    ensures a <= b <==> a / w <= b / w
  {
    assert a / w * w == a && b / w * w == b;
    MulKeepsOrder(a / w, b / w, w);
  }

  /** For a positive whole, the rounded percentage exceeds n exactly when the part is at
      least n + 0.5 percent of the whole. */
  lemma RoundedPercentAbove(part: real, whole: real, n: int)
    requires whole > 0.0
    ensures RoundedPercent(part, whole).Above(n as real) <==> part * 100.0 >= (n as real + 0.5) * whole
  {
    var x := part / whole * 100.0;
    var bound := n as real + 0.5;
    assert RoundHalfUp(x) > n <==> x >= bound;
    DivKeepsOrder(bound * whole, part * 100.0, whole);
    assert bound * whole / whole == bound;
    assert part * 100.0 / whole == x;
  }

  /** For a positive whole, a larger part never shows a smaller percentage. */
  lemma RoundedPercentMonotone(part1: real, part2: real, whole: real)
    requires whole > 0.0 && part1 <= part2
    ensures RoundedPercent(part1, whole).value <= RoundedPercent(part2, whole).value
  {
    DivKeepsOrder(part1, part2, whole);
    var x1 := part1 / whole * 100.0;
    var x2 := part2 / whole * 100.0;
    assert x1 <= x2;
    assert (x1 + 0.5).Floor <= (x2 + 0.5).Floor;
  }

  /** A part between nothing and the whole shows between 0 and 100 percent. */
  lemma RoundedPercentBetween(part: real, whole: real)
    requires whole > 0.0 && 0.0 <= part <= whole
    ensures 0.0 <= RoundedPercent(part, whole).value <= 100.0
  {
    DivKeepsOrder(0.0, part, whole);
    DivKeepsOrder(part, whole, whole);
    assert whole / whole == 1.0;
  }

  /** The whole of itself is 100 percent. */
  lemma WholeIsHundredPercent(whole: real)
    requires whole != 0.0
    ensures RoundedPercent(whole, whole) == Finite(100.0)
  {
    assert whole / whole == 1.0;
  }

  /** The bar colours: red, the primary lime, or green. */
  datatype BarColor = Red | Primary | Green

  /** `usage > 80 ? red : usage > 50 ? primary : green`; NaN fails both comparisons. */
  function UsageColor(usage: JsNumber): BarColor {
    if usage.Above(80.0) then Red
    else if usage.Above(50.0) then Primary
    else Green
  }

  /** For a positive whole, the bar is red from 80.5% of the whole on, lime from 50.5%
      and green below that. */
  lemma UsageColorOfShare(part: real, whole: real)
    requires whole > 0.0
    ensures UsageColor(RoundedPercent(part, whole)) == Red <==> part * 100.0 >= 80.5 * whole
    ensures UsageColor(RoundedPercent(part, whole)) == Primary <==>
              50.5 * whole <= part * 100.0 < 80.5 * whole
    ensures UsageColor(RoundedPercent(part, whole)) == Green <==> part * 100.0 < 50.5 * whole
  {
    RoundedPercentAbove(part, whole, 80);
    RoundedPercentAbove(part, whole, 50);
  }

  /** With a zero whole the bar is red for any positive part (+Infinity) and green
      otherwise (NaN or -Infinity). */
  lemma UsageColorOfZeroWhole(part: real)
    ensures UsageColor(RoundedPercent(part, 0.0)) == if part > 0.0 then Red else Green
  {
  }

  /** `Math.min(percent, 100)`. */
  function BarWidth(percent: JsNumber): (r: JsNumber)
    ensures !r.PosInf? && (r.Finite? ==> r.value <= 100.0)
    ensures percent.AtMost(100.0) ==> r == percent
    ensures percent.Above(100.0) ==> r == Finite(100.0)
    ensures percent.NaN? ==> r.NaN?
  {
    percent.MinWith(100.0)
  }

  /** For a positive whole and a part that is not negative the bar is a finite width
      between 0 and 100: the percentage itself up to the whole, full from the whole on. */
  lemma BarWidthOfShare(part: real, whole: real)
    requires whole > 0.0 && part >= 0.0
    ensures var w := BarWidth(RoundedPercent(part, whole));
      && w.Finite? && 0.0 <= w.value <= 100.0
      && (part <= whole ==> w == RoundedPercent(part, whole))
      && (part >= whole ==> w == Finite(100.0))
  {
    DivKeepsOrder(0.0, part, whole);
    if part <= whole {
      RoundedPercentBetween(part, whole);
    }
    if part >= whole {
      DivKeepsOrder(whole, part, whole);
      assert whole / whole == 1.0;
    }
  }
}
