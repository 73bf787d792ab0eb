/** The quick date ranges offered by the dashboard header's date picker
    (src/components/dashboard/DashboardHeader.tsx) and by the mobile filter panel
    (src/components/modals/FiltersMobileModal.tsx). Both build the same four ranges from
    the current time with `new Date(year, month, day)`; the current time is a
    parameter. */
module QuickPeriods {
  import opened Common
  import opened Calendar
  import opened Types
  import opened FinanceStore

  datatype QuickPeriod = ThisMonth | LastMonth | Last3Months | ThisYear

  /** A month with a smaller index comes earlier in the calendar. */
  lemma EarlierIndexEarlierMonth(a: YearMonth, b: YearMonth)
    requires a.Valid() && b.Valid() && a.Index() < b.Index()
    ensures a.year < b.year || (a.year == b.year && a.month < b.month)
  {
  }

  /** Midnight of the first day of month a is not after midnight of the last day of
      month b when a is not after b. */
  lemma FirstDayNotAfterLastDay(a: YearMonth, b: YearMonth)
    requires a.Valid() && b.Valid() && a.Index() <= b.Index()
    ensures Millis(FirstDay(a)) <= Millis(LastDay(b))
  {
    if a.Index() < b.Index() {
      EarlierIndexEarlierMonth(a, b);
    } else {
      IndexDeterminesMonth(a, b);
    }
    MillisOrderIsCalendarOrder(LastDay(b), FirstDay(a));
  }

  /** How many months before the current one the range starts. */
  function StartOffset(period: QuickPeriod): int {
    match period
    case ThisMonth => 0
    case LastMonth => 1
    case Last3Months => 2
    case ThisYear => 0
  }

  /** The range a quick period selects: from 00:00 on the first day of its first month
      to 00:00 on the last day of its last month. */
  function QuickRange(period: QuickPeriod, now: Date): (r: DateRange)
    ensures r.startDate.day == 1 && r.startDate.msOfDay == 0 && r.endDate.msOfDay == 0
    ensures r.endDate.day == DaysInMonth(r.endDate.year, r.endDate.month)
    ensures Millis(r.startDate) <= Millis(r.endDate)
    ensures period.ThisYear? ==>
      r.startDate == CalendarDate(now.year, 1, 1, 0) && r.endDate == CalendarDate(now.year, 12, 31, 0)
    ensures !period.ThisYear? ==>
      MonthOf(r.startDate).Index() == MonthOf(now).Index() - StartOffset(period)
    ensures !period.ThisYear? ==>
      MonthOf(r.endDate).Index() == MonthOf(now).Index() - (if period.LastMonth? then 1 else 0)
  {
    var m := MonthOf(now);
    match period
    case ThisMonth =>
      FirstDayNotAfterLastDay(m, m);
      DateRange(FirstDay(m), LastDay(m))
    case LastMonth =>
      var prev := AddMonths(m, -1);
      FirstDayNotAfterLastDay(prev, prev);
      DateRange(FirstDay(prev), LastDay(prev))
    case Last3Months =>
      var first := AddMonths(m, -2);
      FirstDayNotAfterLastDay(first, m);
      DateRange(FirstDay(first), LastDay(m))
    case ThisYear =>
      FirstDayNotAfterLastDay(YearMonth(now.year, 1), YearMonth(now.year, 12));
      DateRange(FirstDay(YearMonth(now.year, 1)), LastDay(YearMonth(now.year, 12)))
  }

  /** "Este mês" selects the same range the store starts with. */
  lemma ThisMonthIsDefaultRange(now: Date)
    ensures QuickRange(ThisMonth, now) == DefaultFilters(now).dateRange
  {
  }

  /** Every period but the last month contains the current time, up to the end of the
      range's last day. */
  lemma QuickRangeCoversNow(period: QuickPeriod, now: Date)
    requires !period.LastMonth?
    ensures var r := QuickRange(period, now);
      Millis(r.startDate) <= Millis(now) < Millis(r.endDate) + DayMs
  {
    if period.ThisYear? {
      ThisYearCoversNow(now);
    } else {
      MonthRangeCoversNow(period, now);
    }
  }

  lemma ThisYearCoversNow(now: Date)
    ensures var r := QuickRange(ThisYear, now);
      Millis(r.startDate) <= Millis(now) < Millis(r.endDate) + DayMs
  {
    var r := QuickRange(ThisYear, now);
    MillisOrderIsCalendarOrder(now, r.startDate);
    MillisOrderIsCalendarOrder(CalendarDate(now.year, 12, 31, DayMs - 1), now);
    assert Millis(CalendarDate(now.year, 12, 31, DayMs - 1)) == Millis(r.endDate) + DayMs - 1;
  }

  lemma MonthRangeCoversNow(period: QuickPeriod, now: Date)
    requires period.ThisMonth? || period.Last3Months?
    ensures var r := QuickRange(period, now);
      Millis(r.startDate) <= Millis(now) < Millis(r.endDate) + DayMs
  {
    MonthRangeStartsByNow(period, now);
    MonthRangeEndsAfterNow(period, now);
  }

  lemma MonthRangeStartsByNow(period: QuickPeriod, now: Date)
    requires period.ThisMonth? || period.Last3Months?
    ensures Millis(QuickRange(period, now).startDate) <= Millis(now)
  {
    var r := QuickRange(period, now);
    var m := MonthOf(now);
    var first := AddMonths(m, -StartOffset(period));
    IndexDeterminesMonth(MonthOf(r.startDate), first);
    if period.Last3Months? {
      EarlierIndexEarlierMonth(first, m);
    }
    MillisOrderIsCalendarOrder(now, r.startDate);
  }

  lemma MonthRangeEndsAfterNow(period: QuickPeriod, now: Date)
    requires period.ThisMonth? || period.Last3Months?
    ensures Millis(now) < Millis(QuickRange(period, now).endDate) + DayMs
  {
    var r := QuickRange(period, now);
    IndexDeterminesMonth(MonthOf(r.endDate), MonthOf(now));
    var lastMoment := CalendarDate(now.year, now.month, r.endDate.day, DayMs - 1);
    MillisOrderIsCalendarOrder(lastMoment, now);
  }

  /** "Mês passado" ends where "Este mês" begins: one day after 00:00 on its last day. */
  lemma LastMonthEndsWhereThisMonthStarts(now: Date)
    ensures Millis(QuickRange(LastMonth, now).endDate) + DayMs == Millis(QuickRange(ThisMonth, now).startDate)
    ensures Millis(QuickRange(LastMonth, now).endDate) + DayMs <= Millis(now)
  {
    var m := MonthOf(now);
    var prev := AddMonths(m, -1);
    LastDayThenNextMonth(prev);
    AddMonthsCompose(m, -1, 1);
    IndexDeterminesMonth(AddMonths(m, 0), m);
    QuickRangeCoversNow(ThisMonth, now);
  }

  /** "Últimos 3 meses" ends with this month and starts before last month starts. */
  lemma LastThreeMonthsSpansLastMonth(now: Date)
    ensures QuickRange(Last3Months, now).endDate == QuickRange(ThisMonth, now).endDate
    ensures Millis(QuickRange(Last3Months, now).startDate) < Millis(QuickRange(LastMonth, now).startDate)
  {
    var a := MonthOf(QuickRange(Last3Months, now).startDate);
    var b := MonthOf(QuickRange(LastMonth, now).startDate);
    EarlierIndexEarlierMonth(a, b);
    MillisOrderIsCalendarOrder(QuickRange(Last3Months, now).startDate, QuickRange(LastMonth, now).startDate);
  }
}
