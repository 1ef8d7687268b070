/**
 * The proleptic Gregorian calendar behind the generator's date table: day
 * arithmetic, the YYYYMMDD `date_id` and YYYYMM `month_id` keys, the daily
 * date range from START_DATE to END_DATE and the monthly periods between them.
 */
module Calendar {

  datatype Date = Date(year: int, month: int, day: int)

  predicate IsLeapYear(y: int) {
    y % 4 == 0 && (y % 100 != 0 || y % 400 == 0)
  }

  function DaysInMonth(y: int, m: int): int {
    if m == 2 then (if IsLeapYear(y) then 29 else 28)
    else if m == 4 || m == 6 || m == 9 || m == 11 then 30
    else 31
  }

  function YearLength(y: int): int {
    if IsLeapYear(y) then 366 else 365
  }

  predicate ValidDate(d: Date) {
    1 <= d.year && 1 <= d.month <= 12 && 1 <= d.day <= DaysInMonth(d.year, d.month)
  }

  /** Days in the years 1 .. y-1. */
  function DaysBeforeYear(y: int): int
    requires 1 <= y
  {
    var p := y - 1;
    365 * p + p / 4 - p / 100 + p / 400
  }

  /** Days in the months 1 .. m-1 of year y. */
  function DaysBeforeMonth(y: int, m: int): int
    requires 1 <= m <= 12
  {
    var common := [0, 31, 59, 90, 120, 151, 181, 212, 243, 273, 304, 334][m - 1];
    if m > 2 && IsLeapYear(y) then common + 1 else common
  }

  /** Days elapsed since 0001-01-01 (which is day 0). */
  function DayNumber(d: Date): int
    requires ValidDate(d)
  {
    DaysBeforeYear(d.year) + DaysBeforeMonth(d.year, d.month) + d.day - 1
  }

  /** The day after d. */
  function NextDay(d: Date): (r: Date)
    requires ValidDate(d)
    ensures ValidDate(r)
    ensures DayNumber(r) == DayNumber(d) + 1
  {
    if d.day < DaysInMonth(d.year, d.month) then
      Date(d.year, d.month, d.day + 1)
    else if d.month < 12 then
      MonthStep(d.year, d.month);
      Date(d.year, d.month + 1, 1)
    else
      YearStep(d.year);
      Date(d.year + 1, 1, 1)
  }

  lemma MonthStep(y: int, m: int)
    requires 1 <= m < 12
    ensures DaysBeforeMonth(y, m + 1) == DaysBeforeMonth(y, m) + DaysInMonth(y, m)
  {
  }

  lemma YearStep(y: int)
    requires 1 <= y
    ensures DaysBeforeYear(y + 1) == DaysBeforeYear(y) + YearLength(y)
  {
    var p := y - 1;
    assert (p + 1) / 4 == p / 4 + (if y % 4 == 0 then 1 else 0);
    assert (p + 1) / 100 == p / 100 + (if y % 100 == 0 then 1 else 0);
    assert (p + 1) / 400 == p / 400 + (if y % 400 == 0 then 1 else 0);
  }

  /** A day lies strictly inside its own year's span of day numbers. */
  lemma DayNumberWithinYear(d: Date)
    requires ValidDate(d)
    ensures DaysBeforeYear(d.year) <= DayNumber(d) < DaysBeforeYear(d.year + 1)
  {
    YearStep(d.year);
  }

  lemma {:induction false} DaysBeforeYearMonotone(y1: int, y2: int)
    requires 1 <= y1 <= y2
    ensures DaysBeforeYear(y1) + 365 * (y2 - y1) <= DaysBeforeYear(y2)
    decreases y2 - y1
  {
    if y1 < y2 {
      YearStep(y1);
      DaysBeforeYearMonotone(y1 + 1, y2);
    }
  }

  /** The YYYYMMDD integer key (strftime("%Y%m%d") read back as an int). */
  function DateId(d: Date): int {
    d.year * 10000 + d.month * 100 + d.day
  }

  /** The YYYYMM integer key (strftime("%Y%m") read back as an int). */
  function MonthId(d: Date): int {
    d.year * 100 + d.month
  }

  /** month_id is date_id with its two day digits dropped. */
  lemma MonthIdIsDateIdDiv100(d: Date)
    requires ValidDate(d)
    ensures MonthId(d) == DateId(d) / 100
    ensures DateId(d) % 100 == d.day
  {
    assert DateId(d) == MonthId(d) * 100 + d.day;
  }

  predicate Before(a: Date, b: Date) {
    a.year < b.year || (a.year == b.year && (a.month < b.month || (a.month == b.month && a.day < b.day)))
  }

  /** Day numbers follow calendar order. */
  lemma DayNumberOrder(a: Date, b: Date)
    requires ValidDate(a) && ValidDate(b)
    ensures Before(a, b) <==> DayNumber(a) < DayNumber(b)
    ensures a == b <==> DayNumber(a) == DayNumber(b)
  {
    if a.year < b.year {
      DayNumberWithinYear(a);
      DaysBeforeYearMonotone(a.year + 1, b.year);
      DayNumberWithinYear(b);
    } else if b.year < a.year {
      DayNumberWithinYear(b);
      DaysBeforeYearMonotone(b.year + 1, a.year);
      DayNumberWithinYear(a);
    } else if a.month < b.month {
      MonthsBeforeMonotone(a.year, a.month, b.month);
    } else if b.month < a.month {
      MonthsBeforeMonotone(a.year, b.month, a.month);
    }
  }

  lemma MonthsBeforeMonotone(y: int, m1: int, m2: int)
    requires 1 <= m1 < m2 <= 12
    ensures DaysBeforeMonth(y, m1) + DaysInMonth(y, m1) <= DaysBeforeMonth(y, m2)
  {
  }

  /** date_id order is calendar order, so sorting by date_id sorts by date. */
  lemma DateIdOrder(a: Date, b: Date)
    requires ValidDate(a) && ValidDate(b)
    ensures DateId(a) < DateId(b) <==> DayNumber(a) < DayNumber(b)
    ensures DateId(a) == DateId(b) <==> a == b
  {
    DayNumberOrder(a, b);
    DateIdLex(a, b);
  }

  lemma DateIdLex(a: Date, b: Date)
    requires ValidDate(a) && ValidDate(b)
    ensures DateId(a) < DateId(b) <==> Before(a, b)
    ensures DateId(a) == DateId(b) <==> a == b
  {
    var ra := a.month * 100 + a.day;
    var rb := b.month * 100 + b.day;
    assert 0 <= ra < 10000 && 0 <= rb < 10000;
    assert DateId(a) == a.year * 10000 + ra;
    assert DateId(b) == b.year * 10000 + rb;
  }

  /** d shifted by k days (pd.Timestamp + to_timedelta(k, unit="D")). */
  function AddDays(d: Date, k: nat): (r: Date)
    requires ValidDate(d)
    ensures ValidDate(r)
    ensures DayNumber(r) == DayNumber(d) + k
    decreases k
  {
    if k == 0 then d else AddDays(NextDay(d), k - 1)
  }

  /** pd.date_range(start, end, freq="D"): every day from start to end, in order. */
  function DateRange(start: Date, end: Date): (r: seq<Date>)
    requires ValidDate(start) && ValidDate(end)
    ensures |r| == if DayNumber(end) < DayNumber(start) then 0 else DayNumber(end) - DayNumber(start) + 1
    ensures forall i :: 0 <= i < |r| ==> ValidDate(r[i]) && DayNumber(r[i]) == DayNumber(start) + i
    decreases DayNumber(end) - DayNumber(start)
  {
    if DayNumber(end) < DayNumber(start) then []
    else if DayNumber(end) == DayNumber(start) then [start]
    else [start] + DateRange(NextDay(start), end)
  }

  /** One row of the date dimension table. */
  datatype CalendarDay = CalendarDay(date: Date, dateId: int, monthId: int)

  /** Days given in strictly increasing order carry month_id == date_id div 100 and strictly increasing date_ids. */
  lemma DateKeysOrdered(days: seq<Date>)
    requires forall i :: 0 <= i < |days| ==> ValidDate(days[i])
    requires forall i, j :: 0 <= i < j < |days| ==> DayNumber(days[i]) < DayNumber(days[j])
    ensures forall i :: 0 <= i < |days| ==> MonthId(days[i]) == DateId(days[i]) / 100
    ensures forall i, j :: 0 <= i < j < |days| ==> DateId(days[i]) < DateId(days[j])
  {
    forall i | 0 <= i < |days| ensures MonthId(days[i]) == DateId(days[i]) / 100 {
      MonthIdIsDateIdDiv100(days[i]);
    }
    forall i, j | 0 <= i < j < |days| ensures DateId(days[i]) < DateId(days[j]) {
      DateIdOrder(days[i], days[j]);
    }
  }

  /**
   * date_df: one row per day of [start, end] in order, each with its YYYYMMDD
   * key, month_id equal to date_id div 100, and date_id strictly increasing.
   */
  function BuildCalendar(start: Date, end: Date): (r: seq<CalendarDay>)
    requires ValidDate(start) && ValidDate(end)
    ensures |r| == if DayNumber(end) < DayNumber(start) then 0 else DayNumber(end) - DayNumber(start) + 1
    ensures forall i :: 0 <= i < |r| ==> ValidDate(r[i].date) && DayNumber(r[i].date) == DayNumber(start) + i
    ensures forall i :: 0 <= i < |r| ==> r[i].dateId == DateId(r[i].date) && r[i].monthId == r[i].dateId / 100
    ensures forall i, j :: 0 <= i < j < |r| ==> r[i].dateId < r[j].dateId
  {
    var days := DateRange(start, end);
    DateKeysOrdered(days);
    seq(|days|, i requires 0 <= i < |days| => CalendarDay(days[i], DateId(days[i]), MonthId(days[i])))
  }

  /**
   * The date table has exactly one row per day of [start, end], the days run
   * consecutively, every date_id is the YYYYMMDD key of its day, month_id is
   * date_id div 100, and date_id strictly increases down the table.
   */
  lemma CalendarProperties(start: Date, end: Date)
    requires ValidDate(start) && ValidDate(end) && DayNumber(start) <= DayNumber(end)
    ensures var cal := BuildCalendar(start, end);
      && |cal| == DayNumber(end) - DayNumber(start) + 1
      && cal[0].date == start && cal[|cal| - 1].date == end
      && (forall i :: 0 <= i < |cal| ==> ValidDate(cal[i].date) && cal[i].monthId == cal[i].dateId / 100)
      && (forall i :: 0 <= i < |cal| - 1 ==> cal[i + 1].date == NextDay(cal[i].date))
      && (forall i, j :: 0 <= i < j < |cal| ==> cal[i].dateId < cal[j].dateId)
  {
    var cal := BuildCalendar(start, end);
    DayNumberOrder(cal[0].date, start);
    DayNumberOrder(cal[|cal| - 1].date, end);
    forall i | 0 <= i < |cal| - 1
      ensures cal[i + 1].date == NextDay(cal[i].date)
    {
      DayNumberOrder(cal[i + 1].date, NextDay(cal[i].date));
    }
  }

  /** A calendar month, as pandas' Period with freq="M". */
  datatype Month = Month(year: int, month: int)

  predicate ValidMonth(m: Month) {
    1 <= m.year && 1 <= m.month <= 12
  }

  function MonthOf(d: Date): Month {
    Month(d.year, d.month)
  }

  /** Months counted from January of year 0. */
  function MonthIndex(m: Month): int {
    m.year * 12 + m.month - 1
  }

  function NextMonth(m: Month): (r: Month)
    requires ValidMonth(m)
    ensures ValidMonth(r) && MonthIndex(r) == MonthIndex(m) + 1
  {
    if m.month < 12 then Month(m.year, m.month + 1) else Month(m.year + 1, 1)
  }

  /** The months from `first` to `last` inclusive, in order. */
  function MonthsFrom(first: Month, last: Month): (r: seq<Month>)
    requires ValidMonth(first) && ValidMonth(last)
    ensures |r| == if MonthIndex(last) < MonthIndex(first) then 0 else MonthIndex(last) - MonthIndex(first) + 1
    ensures forall i :: 0 <= i < |r| ==> ValidMonth(r[i]) && MonthIndex(r[i]) == MonthIndex(first) + i
    decreases MonthIndex(last) - MonthIndex(first)
  {
    if MonthIndex(last) < MonthIndex(first) then []
    else if MonthIndex(last) == MonthIndex(first) then [first]
    else [first] + MonthsFrom(NextMonth(first), last)
  }

  /** pd.period_range(START_DATE, END_DATE, freq="M"). */
  function MonthRange(start: Date, end: Date): (r: seq<Month>)
    requires ValidDate(start) && ValidDate(end)
  {
    MonthsFrom(MonthOf(start), MonthOf(end))
  }

  /**
   * The number of days of month m that are eligible for an exposure:
   * pd.date_range(m_start, min(m_end, END_DATE)). The range starts on the 1st
   * of the month even when START_DATE falls later in that month.
   */
  function MonthDayCount(m: Month, end: Date): int
  {
    if m.year == end.year && m.month == end.month then end.day else DaysInMonth(m.year, m.month)
  }

  /**
   * Every month of the horizon has at least one eligible day, so the
   * np.random.choice over its days always has something to choose from.
   */
  lemma MonthsHaveEligibleDay(start: Date, end: Date, i: int)
    requires ValidDate(start) && ValidDate(end)
    requires 0 <= i < |MonthRange(start, end)|
    ensures 1 <= MonthDayCount(MonthRange(start, end)[i], end)
  {
    var m := MonthRange(start, end)[i];
    assert MonthIndex(m) <= MonthIndex(MonthOf(end));
  }

  /** Each eligible day of a horizon month is a real day of that month on or before END_DATE. */
  lemma MonthDaysWithinHorizon(start: Date, end: Date, i: int, k: int)
    requires ValidDate(start) && ValidDate(end)
    requires 0 <= i < |MonthRange(start, end)|
    requires 0 <= k < MonthDayCount(MonthRange(start, end)[i], end)
    ensures var m := MonthRange(start, end)[i];
      var d := Date(m.year, m.month, k + 1);
      && 1 <= MonthDayCount(m, end)
      && ValidDate(d) && MonthOf(d) == m && DayNumber(d) <= DayNumber(end)
  {
    var m := MonthRange(start, end)[i];
    var d := Date(m.year, m.month, k + 1);
    assert MonthIndex(m) <= MonthIndex(MonthOf(end));
    DayNumberOrder(d, end);
  }
}
