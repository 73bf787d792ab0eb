/** src/utils/index.ts: percentages with a divide-by-zero guard, instalment values,
    grouping and date sorting, and `clamp`. */
module Utils {
  import opened Common
  import opened Calendar
  import opened Sorting
  import opened Validation

  function Pow10(n: nat): (r: nat)
    ensures r >= 1
  {
    if n == 0 then 1 else 10 * Pow10(n - 1)
  }

  lemma Scale(n: int, p: real)
    requires p > 0.0
    ensures (n as real / p) * p == n as real
  {
  }

  /** The nearest integer, ties away from zero (the rounding `toFixed` performs on
      the exact value). */
  function RoundHalfAway(y: real): (n: int)
    ensures y - 0.5 <= n as real <= y + 0.5
    ensures y >= 0.0 ==> n >= 0
    ensures n as real == y + 0.5 ==> y >= 0.0
    ensures n as real == y - 0.5 ==> y < 0.0
  {
    if y >= 0.0 then (y + 0.5).Floor else -((-y) + 0.5).Floor
  }

  lemma RoundWhole(n: int)
    ensures RoundHalfAway(n as real) == n
  {
  }

  lemma RoundHalfAwayOdd(y: real)
    ensures RoundHalfAway(-y) == -RoundHalfAway(y)
  {
  }

  /** How many units of 10^-digits `x.toFixed(digits)` keeps. */
  function Units(x: real, digits: nat): int {
    RoundHalfAway(x * Pow10(digits) as real)
  }

  /** `Number(x.toFixed(digits))` on an exact value: the nearest multiple of
      10^-digits, ties rounded away from zero. */
  function ToFixed(x: real, digits: nat): (r: real)
    ensures var p := Pow10(digits) as real; x * p - 0.5 <= r * p <= x * p + 0.5
    ensures var p := Pow10(digits) as real; r * p == Units(x, digits) as real
  {
    var p := Pow10(digits) as real;
    Scale(Units(x, digits), p);
    Units(x, digits) as real / p
  }

  /** A multiple of 10^-digits rounds to itself. */
  lemma ToFixedOfMultiple(n: int, digits: nat)
    ensures ToFixed(n as real / Pow10(digits) as real, digits) == n as real / Pow10(digits) as real
  {
    UnitsOfMultiple(n, digits);
  }

  lemma UnitsOfMultiple(n: int, digits: nat)
    ensures Units(n as real / Pow10(digits) as real, digits) == n
  {
    var p := Pow10(digits) as real;
    var y := n as real / p;
    Scale(n, p);
    assert y * p == n as real;
    RoundWhole(n);
  }

  /** A value that is already rounded stays as it is. */
  lemma ToFixedIdempotent(x: real, digits: nat)
    ensures ToFixed(ToFixed(x, digits), digits) == ToFixed(x, digits)
  {
    ToFixedOfMultiple(Units(x, digits), digits);
  }

  /** Rounding is symmetric about zero. */
  lemma ToFixedSymmetric(x: real, digits: nat)
    ensures ToFixed(-x, digits) == -ToFixed(x, digits)
  {
    var p := Pow10(digits) as real;
    assert (-x) * p == -(x * p);
    RoundHalfAwayOdd(x * p);
    assert Units(-x, digits) == -Units(x, digits);
    assert (-Units(x, digits)) as real / p == -(Units(x, digits) as real / p);
  }

  /** `calculatePercentage`: 0 for a zero total, else the percentage to one decimal. */
  function CalculatePercentage(partial: real, total: real): (r: real)
    ensures total == 0.0 ==> r == 0.0
    ensures total != 0.0 ==>
      var exact := partial / total * 100.0;
      exact - 0.05 <= r <= exact + 0.05 && (r * 10.0).Floor as real == r * 10.0
  {
    if total == 0.0 then 0.0 else ToFixed(partial / total * 100.0, 1)
  }

  datatype Difference = Difference(absolute: real, percentage: real)

  /** `calculateDifference`: the change, and the change as a percentage of the previous
      value to one decimal (0 when the previous value is 0). */
  function CalculateDifference(current: real, previous: real): (r: Difference)
    ensures r.absolute == current - previous
    ensures previous == 0.0 ==> r.percentage == 0.0
    ensures previous != 0.0 ==>
      var exact := (current - previous) / previous * 100.0;
      exact - 0.05 <= r.percentage <= exact + 0.05
  {
    var absolute := current - previous;
    var percentage := if previous == 0.0 then 0.0 else (current - previous) / previous * 100.0;
    Difference(absolute, ToFixed(percentage, 1))
  }

  /** The relative change is the change as a percentage of the previous value. */
  lemma DifferenceIsPercentageOfChange(current: real, previous: real)
    ensures CalculateDifference(current, previous).percentage
         == CalculatePercentage(current - previous, previous)
  {
    if previous == 0.0 {
      assert ToFixed(0.0, 1) == 0.0;
    }
  }

  /** `calculateInstallmentValue`: the total itself for a non-positive count, else the
      share per instalment rounded to the cent. */
  function CalculateInstallmentValue(total: real, installments: real): (r: real)
    ensures installments <= 0.0 ==> r == total
    ensures installments > 0.0 ==>
      var share := total / installments;
      share - 0.005 <= r <= share + 0.005 && (r * 100.0).Floor as real == r * 100.0
  {
    if installments <= 0.0 then total else ToFixed(total / installments, 2)
  }

  // ---------------------------------------------------------------
  // groupBy
  // ---------------------------------------------------------------

  /** The items with the given key, in input order. */
  function Group<T>(xs: seq<T>, key: T -> string, k: string): seq<T> {
    Filter(xs, x => key(x) == k)
  }

  lemma GroupSnoc<T>(xs: seq<T>, x: T, key: T -> string, k: string)
    ensures Group(xs + [x], key, k) == Group(xs, key, k) + (if key(x) == k then [x] else [])
  {
    FilterAppend(xs, [x], y => key(y) == k);
  }

  lemma GroupAbsent<T>(xs: seq<T>, key: T -> string, k: string)
    requires forall j :: 0 <= j < |xs| ==> key(xs[j]) != k
    ensures Group(xs, key, k) == []
  {
    FilterAllPass(xs, y => key(y) != k);
    if Group(xs, key, k) != [] {
      FilterMembership(xs, y => key(y) == k, Group(xs, key, k)[0]);
    }
  }

  /** `groupBy`: one group per key (`String(item[key])`, here `key(item)`) that some
      item has, holding that key's items in input order. */
  method GroupBy<T>(xs: seq<T>, key: T -> string) returns (groups: map<string, seq<T>>)
    ensures forall k :: k in groups <==> exists i :: 0 <= i < |xs| && key(xs[i]) == k
    ensures forall k :: k in groups ==> groups[k] == Group(xs, key, k)
  {
    groups := map[];
    var i := 0;
    while i < |xs|
      invariant 0 <= i <= |xs|
      invariant forall k :: k in groups <==> exists j :: 0 <= j < i && key(xs[j]) == k
      invariant forall k :: k in groups ==> groups[k] == Group(xs[..i], key, k)
    {
      var item := xs[i];
      var groupKey := key(item);
      if groupKey !in groups {
        GroupAbsent(xs[..i], key, groupKey);
        groups := groups[groupKey := []];
      }
      groups := groups[groupKey := groups[groupKey] + [item]];
      assert xs[..i + 1] == xs[..i] + [item];
      forall k | k in groups
        ensures groups[k] == Group(xs[..i + 1], key, k)
      {
        GroupSnoc(xs[..i], item, key, k);
      }
      i := i + 1;
    }
    assert xs[..i] == xs;
  }

  /** The groups partition the input: each item sits in its own key's group as often
      as it occurs in the input, and in no other group. */
  lemma GroupsPartition<T>(xs: seq<T>, key: T -> string, x: T, k: string)
    ensures multiset(Group(xs, key, key(x)))[x] == multiset(xs)[x]
    ensures k != key(x) ==> x !in Group(xs, key, k)
  {
    FilterMultiset(xs, y => key(y) == key(x), x);
    FilterMultiset(xs, y => key(y) == k, x);
    assert x in Group(xs, key, k) <==> x in multiset(Group(xs, key, k));
  }

  /** Groups keep input order: the group of a concatenation is the concatenation of
      the groups. */
  lemma GroupKeepsOrder<T>(xs: seq<T>, ys: seq<T>, key: T -> string, k: string)
    ensures Group(xs + ys, key, k) == Group(xs, key, k) + Group(ys, key, k)
  {
    FilterAppend(xs, ys, y => key(y) == k);
  }

  // ---------------------------------------------------------------
  // sortByDate
  // ---------------------------------------------------------------

  datatype SortOrder = Asc | Desc

  /** `sortByDate`: a sorted copy (the input is a value and stays as it is), newest
      first for `Desc`, oldest first for `Asc`. */
  function SortByDate<T>(xs: seq<T>, dateOf: T -> Date, order: SortOrder): (r: seq<T>)
    ensures multiset(r) == multiset(xs)
    ensures order == Desc ==>
      forall i, j :: 0 <= i < j < |r| ==> Millis(dateOf(r[i])) >= Millis(dateOf(r[j]))
    ensures order == Asc ==>
      forall i, j :: 0 <= i < j < |r| ==> Millis(dateOf(r[i])) <= Millis(dateOf(r[j]))
  {
    var key := if order == Desc then (x: T) => -(Millis(dateOf(x)) as real)
               else (x: T) => Millis(dateOf(x)) as real;
    var r := SortBy(xs, key);
    assert forall i, j :: 0 <= i < j < |r| ==> key(r[i]) <= key(r[j]);
    r
  }

  // ---------------------------------------------------------------
  // clamp
  // ---------------------------------------------------------------

  /** `clamp`: `Math.min(Math.max(value, min), max)`. */
  function Clamp(value: real, min: real, max: real): (r: real)
    ensures r <= max
    ensures min <= max ==> min <= r
    ensures min > max ==> r == max
    ensures IsInRange(value, min, max) ==> r == value
    ensures r == value || r == min || r == max
  {
    var atLeast := if value >= min then value else min;
    if atLeast <= max then atLeast else max
  }

  /** With ordered bounds, a clamped value is in range, and clamping twice is
      clamping once. */
  /** With ordered bounds, `isInRange` holds exactly when `clamp` leaves the value as
      it is. */
  lemma InRangeIffClampFixes(value: real, min: real, max: real)
    requires min <= max
    ensures IsInRange(value, min, max) <==> Clamp(value, min, max) == value
  {
  }

  lemma ClampInRange(value: real, min: real, max: real)
    requires min <= max
    ensures IsInRange(Clamp(value, min, max), min, max)
    ensures Clamp(Clamp(value, min, max), min, max) == Clamp(value, min, max)
  {
  }
}
