/** Calendar dates as the application's JavaScript `Date` objects hold them in
    local time, the millisecond clock that orders them (`getTime`), month
    arithmetic with explicit year rollover (what `new Date(y, m + k, 1)`
    normalises to), and the helpers of src/utils/date.ts. */
module Calendar {
  import opened Common

  /** Milliseconds in a day. */
  const DayMs: int := 86_400_000

  /** A local date and time: month 1..12, day of month, milliseconds since midnight. */
  datatype CalendarDate = CalendarDate(year: int, month: int, day: int, msOfDay: int) {
    predicate Valid() {
      1 <= month <= 12 && 1 <= day <= DaysInMonth(year, month) && 0 <= msOfDay < DayMs
    }
  }

  /** The dates a JavaScript `Date` can denote once normalised. */
  type Date = d: CalendarDate | d.Valid() witness CalendarDate(1970, 1, 1, 0)

  predicate IsLeapYear(y: int) {
    (y % 4 == 0 && y % 100 != 0) || y % 400 == 0
  }

  function DaysInMonth(y: int, m: int): (r: int)
    requires 1 <= m <= 12
    ensures 28 <= r <= 31
    ensures m == 2 ==> (r == 29 <==> IsLeapYear(y))
  {
    if m == 2 then (if IsLeapYear(y) then 29 else 28)
    else if m == 4 || m == 6 || m == 9 || m == 11 then 30
    else 31
  }

  /** Days from 1 January of year 1 to 1 January of year y (proleptic Gregorian). */
  function DaysBeforeYear(y: int): int {
    365 * (y - 1) + (y - 1) / 4 - (y - 1) / 100 + (y - 1) / 400
  }

  /** Days from 1 January of year y to the first of month m (m = 13 gives the year's length). */
  function DaysBeforeMonth(y: int, m: int): int
    requires 1 <= m <= 13
  {
    var common := [0, 31, 59, 90, 120, 151, 181, 212, 243, 273, 304, 334, 365][m - 1];
    if m > 2 && IsLeapYear(y) then common + 1 else common
  }

  /** Days from 1 January of year 1 to the given day. */
  function DayNumber(y: int, m: int, d: int): int
    requires 1 <= m <= 12
  {
    DaysBeforeYear(y) + DaysBeforeMonth(y, m) + d - 1
  }

  /** The day number of 1 January 1970. */
  const EpochDay: int := 719_162

  /** `date.getTime()`: milliseconds since 1970-01-01 00:00 local time. */
  function Millis(d: Date): int {
    (DayNumber(d.year, d.month, d.day) - EpochDay) * DayMs + d.msOfDay
  }

  lemma EpochDayIsFirstOf1970()
    ensures DayNumber(1970, 1, 1) == EpochDay
  {
  }

  /** Lexicographic order on (year, month, day, time of day). */
  predicate Before(a: Date, b: Date) {
    a.year < b.year
    || (a.year == b.year && a.month < b.month)
    || (a.year == b.year && a.month == b.month && a.day < b.day)
    || (a.year == b.year && a.month == b.month && a.day == b.day && a.msOfDay < b.msOfDay)
  }

  // ---------------------------------------------------------------
  // The day count is a faithful calendar
  // ---------------------------------------------------------------

  /** A month's days are exactly the gap between its first day and the next month's. */
  lemma MonthLength(y: int, m: int)
    requires 1 <= m <= 12
    ensures DaysBeforeMonth(y, m + 1) == DaysBeforeMonth(y, m) + DaysInMonth(y, m)
  {
  }

  /** Counting multiples of 4, 100 and 400: passing y adds one exactly when y is one. */
  lemma QuotientStep4(y: int)
    ensures y / 4 == (y - 1) / 4 + (if y % 4 == 0 then 1 else 0)
  {
  }

  lemma QuotientStep100(y: int)
    ensures y / 100 == (y - 1) / 100 + (if y % 100 == 0 then 1 else 0)
  {
  }

  lemma QuotientStep400(y: int)
    ensures y / 400 == (y - 1) / 400 + (if y % 400 == 0 then 1 else 0)
  {
  }

  /** A multiple of 400 is one of 100, and a multiple of 100 one of 4. */
  lemma Multiples(y: int)
    ensures y % 400 == 0 ==> y % 100 == 0
    ensures y % 100 == 0 ==> y % 4 == 0
  {
    if y % 400 == 0 {
      var k := y / 400;
      assert y / 100 == 4 * k;
    }
    if y % 100 == 0 {
      var k := y / 100;
      assert y / 4 == 25 * k;
    }
  }

  /** A year has 366 days when it is a leap year and 365 otherwise. */
  lemma YearLength(y: int)
    ensures DaysBeforeYear(y + 1) == DaysBeforeYear(y) + DaysBeforeMonth(y, 13)
  {
    QuotientStep4(y);
    QuotientStep100(y);
    QuotientStep400(y);
    Multiples(y);
  }

  /** Every day of year y comes before 1 January of any later year. */
  lemma {:induction false} YearsAreOrdered(y1: int, y2: int)
    requires y1 < y2
    ensures DaysBeforeYear(y1 + 1) <= DaysBeforeYear(y2)
    decreases y2 - y1
  {
    if y1 + 1 < y2 {
      YearsAreOrdered(y1 + 1, y2);
      YearLength(y1 + 1);
    }
  }

  /** Every day of month m comes before the first of any later month of the same year. */
  lemma MonthsAreOrdered(y: int, m1: int, m2: int)
    requires 1 <= m1 < m2 <= 13
    ensures DaysBeforeMonth(y, m1) + DaysInMonth(y, m1) <= DaysBeforeMonth(y, m2)
  {
  }

  /** The day number of a valid date lies inside its year. */
  lemma DayNumberInYear(d: Date)
    ensures DaysBeforeYear(d.year) <= DayNumber(d.year, d.month, d.day) < DaysBeforeYear(d.year + 1)
  {
    YearLength(d.year);
    MonthsAreOrdered(d.year, d.month, 13);
  }

  /** On valid dates, the millisecond clock orders dates lexicographically. */
  lemma BeforeMeansEarlier(a: Date, b: Date)
    requires Before(a, b)
    ensures Millis(a) < Millis(b)
  {
    var da, db := DayNumber(a.year, a.month, a.day), DayNumber(b.year, b.month, b.day);
    if a.year < b.year {
      DayNumberInYear(a);
      DayNumberInYear(b);
      YearsAreOrdered(a.year, b.year);
      assert da < db;
    } else if a.month < b.month {
      MonthsAreOrdered(a.year, a.month, b.month);
      assert da < db;
    }
  }

  /** `getTime` comparison and calendar comparison agree, in both directions. */
  lemma MillisOrderIsCalendarOrder(a: Date, b: Date)
    ensures Millis(a) < Millis(b) <==> Before(a, b)
  {
    if Before(a, b) {
      BeforeMeansEarlier(a, b);
    } else if Before(b, a) {
      BeforeMeansEarlier(b, a);
    } else {
      assert a == b;
    }
  }

  // ---------------------------------------------------------------
  // Month arithmetic with explicit rollover
  // ---------------------------------------------------------------

  /** A calendar month. */
  datatype YearMonth = YearMonth(year: int, month: int) {
    predicate Valid() { 1 <= month <= 12 }
    /** Months since January of year 0. */
    function Index(): int { year * 12 + month - 1 }
  }

  /** The month a date falls in. */
  function MonthOf(d: Date): (r: YearMonth)
    ensures r.Valid()
  {
    YearMonth(d.year, d.month)
  }

  /** `new Date(y, m - 1 + k, 1)`: the month k months after (y, m), rolling the year over. */
  function AddMonths(ym: YearMonth, k: int): (r: YearMonth)
    ensures r.Valid()
    ensures r.Index() == ym.Index() + k
  {
    var i := ym.Index() + k;
    YearMonth(i / 12, i % 12 + 1)
  }

  /** A month is determined by its index. */
  lemma IndexDeterminesMonth(a: YearMonth, b: YearMonth)
    requires a.Valid() && b.Valid() && a.Index() == b.Index()
    ensures a == b
  {
  }

  /** Going back one month from January lands in December of the previous year. */
  lemma PreviousOfJanuary(y: int)
    ensures AddMonths(YearMonth(y, 1), -1) == YearMonth(y - 1, 12)
  {
  }

  /** Month shifts compose. */
  lemma AddMonthsCompose(ym: YearMonth, j: int, k: int)
    ensures AddMonths(AddMonths(ym, j), k) == AddMonths(ym, j + k)
  {
    IndexDeterminesMonth(AddMonths(AddMonths(ym, j), k), AddMonths(ym, j + k));
  }

  /** Midnight of the first day of a month. */
  function FirstDay(ym: YearMonth): (r: Date)
    requires ym.Valid()
    ensures r.year == ym.year && r.month == ym.month && r.day == 1 && r.msOfDay == 0
  {
    CalendarDate(ym.year, ym.month, 1, 0)
  }

  /** `new Date(y, m, 0)`: midnight (00:00) of the last day of a month. */
  function LastDay(ym: YearMonth): (r: Date)
    requires ym.Valid()
    ensures r.year == ym.year && r.month == ym.month && r.msOfDay == 0
    ensures r.day == DaysInMonth(ym.year, ym.month)
  {
    CalendarDate(ym.year, ym.month, DaysInMonth(ym.year, ym.month), 0)
  }

  /** One day after the last day of a month is the first day of the next month. */
  lemma LastDayThenNextMonth(ym: YearMonth)
    requires ym.Valid()
    ensures Millis(LastDay(ym)) + DayMs == Millis(FirstDay(AddMonths(ym, 1)))
  {
    var next := AddMonths(ym, 1);
    var y, m := ym.year, ym.month;
    MonthLength(y, m);
    if m == 12 {
      IndexDeterminesMonth(next, YearMonth(y + 1, 1));
      YearLength(y);
      assert DayNumber(y + 1, 1, 1) == DayNumber(y, 12, 31) + 1;
    } else {
      IndexDeterminesMonth(next, YearMonth(y, m + 1));
      assert DayNumber(y, m + 1, 1) == DayNumber(y, m, DaysInMonth(y, m)) + 1;
    }
  }

  /** A valid date lies between midnight of a month's first day and midnight of its
      last day exactly when it falls in that month and is not later than 00:00 on
      the last day: the rest of the last day lies outside. */
  lemma WithinMonthBounds(d: Date, ym: YearMonth)
    requires ym.Valid()
    ensures Millis(FirstDay(ym)) <= Millis(d) <= Millis(LastDay(ym))
        <==> d.year == ym.year && d.month == ym.month
             && (d.day < DaysInMonth(ym.year, ym.month) || d.msOfDay == 0)
  {
    MillisOrderIsCalendarOrder(d, FirstDay(ym));
    MillisOrderIsCalendarOrder(LastDay(ym), d);
  }

  // ---------------------------------------------------------------
  // src/utils/date.ts
  // ---------------------------------------------------------------

  /** `isDateInRange`: both ends inclusive. */
  predicate IsDateInRange(d: Date, start: Date, end: Date) {
    Millis(start) <= Millis(d) <= Millis(end)
  }

  /** Both end points of a non-empty range are inside it. */
  lemma DateRangeIsInclusive(start: Date, end: Date)
    requires Millis(start) <= Millis(end)
    ensures IsDateInRange(start, start, end) && IsDateInRange(end, start, end)
  {
  }

  /** `getFirstDayOfMonth`: day 1 of the same month, not after the given date. */
  function GetFirstDayOfMonth(d: Date): (r: Date)
    ensures r.year == d.year && r.month == d.month && r.day == 1 && r.msOfDay == 0
    ensures Millis(r) <= Millis(d)
  {
    var r := FirstDay(YearMonth(d.year, d.month));
    MillisOrderIsCalendarOrder(d, r);
    r
  }

  /** `getLastDayOfMonth`: 00:00 on the last day of the same month; the given date lies
      before the end of that day. */
  function GetLastDayOfMonth(d: Date): (r: Date)
    ensures r.year == d.year && r.month == d.month && r.msOfDay == 0
    ensures r.day == DaysInMonth(d.year, d.month)
    ensures Millis(d) < Millis(r) + DayMs
  {
    var r := LastDay(YearMonth(d.year, d.month));
    var next := CalendarDate(d.year, d.month, r.day, DayMs - 1);
    MillisOrderIsCalendarOrder(d, next);
    r
  }

  /** The last day of February is the 29th exactly in leap years. */
  lemma FebruaryLastDay(y: int)
    ensures GetLastDayOfMonth(CalendarDate(y, 2, 1, 0)).day == 29 <==> IsLeapYear(y)
  {
  }

  /** Whole days elapsed from `past` to `now`: `Math.floor(diff / 86400000)`. */
  function DiffDays(now: Date, past: Date): (r: int)
    ensures r * DayMs <= Millis(now) - Millis(past) < (r + 1) * DayMs
  {
    (Millis(now) - Millis(past)) / DayMs
  }

  /** The label `formatRelativeDate` shows. */
  datatype RelativeDate =
    | Today
    | Yesterday
    | DaysAgo(days: int)
    | OneWeekAgo
    | WeeksAgo(weeks: int)
    | OneMonthAgo
    | MonthsAgo(months: int)
  {
    function Text(): string {
      match this
      case Today => "Hoje"
      case Yesterday => "Ontem"
      case DaysAgo(n) => "Há " + IntToString(n) + " dias"
      case OneWeekAgo => "Há 1 semana"
      case WeeksAgo(n) => "Há " + IntToString(n) + " semanas"
      case OneMonthAgo => "Há 1 mês"
      case MonthsAgo(n) => "Há " + IntToString(n) + " meses"
    }

    /** Position on the scale from most to least recent. */
    function Rank(): nat {
      match this
      case Today => 0
      case Yesterday => 1
      case DaysAgo(_) => 2
      case OneWeekAgo => 3
      case WeeksAgo(_) => 4
      case OneMonthAgo => 5
      case MonthsAgo(_) => 6
    }
  }

  /** `formatRelativeDate`: the count shown is the whole number of days, weeks (7 days)
      or months (30 days) elapsed. A date in the future gives a negative day count. */
  function RelativeLabel(diffDays: int): (r: RelativeDate)
    ensures r == Today <==> diffDays == 0
    ensures r == Yesterday <==> diffDays == 1
    ensures r.DaysAgo? <==> diffDays < 0 || 2 <= diffDays < 7
    ensures r.DaysAgo? ==> r.days == diffDays
    ensures r == OneWeekAgo <==> 7 <= diffDays < 14
    ensures r.WeeksAgo? <==> 14 <= diffDays < 30
    ensures r.WeeksAgo? ==> 2 <= r.weeks <= 4 && 7 * r.weeks <= diffDays < 7 * (r.weeks + 1)
    ensures r == OneMonthAgo <==> 30 <= diffDays < 60
    ensures r.MonthsAgo? <==> 60 <= diffDays
    ensures r.MonthsAgo? ==> 2 <= r.months && 30 * r.months <= diffDays < 30 * (r.months + 1)
  {
    if diffDays == 0 then Today
    else if diffDays == 1 then Yesterday
    else if diffDays < 7 then DaysAgo(diffDays)
    else if diffDays < 14 then OneWeekAgo
    else if diffDays < 30 then WeeksAgo(diffDays / 7)
    else if diffDays < 60 then OneMonthAgo
    else MonthsAgo(diffDays / 30)
  }

  function FormatRelativeDate(now: Date, target: Date): RelativeDate {
    RelativeLabel(DiffDays(now, target))
  }

  /** An older date never gets a more recent label. */
  lemma RelativeLabelMonotone(d1: int, d2: int)
    requires 0 <= d1 <= d2
    ensures RelativeLabel(d1).Rank() <= RelativeLabel(d2).Rank()
  {
  }
}
