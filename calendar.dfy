/** java.time.LocalDate arithmetic on day numbers (day 0 is 1970-01-01, proleptic Gregorian
    calendar), enough to compute what `from.until(to).getDays()` returns: the DAYS COMPONENT
    of the years/months/days Period between two dates, which is not the number of days
    between them once the dates lie in different months. */
module Calendar {

  datatype Date = Date(year: int, month: int, day: int)

  predicate IsLeapYear(y: int)
  {
    y % 4 == 0 && (y % 100 != 0 || y % 400 == 0)
  }

  /** LocalDate.lengthOfMonth. */
  function LengthOfMonth(y: int, m: int): (n: int)
    ensures 28 <= n <= 31
  {
    if m == 2 then (if IsLeapYear(y) then 29 else 28)
    else if m == 4 || m == 6 || m == 9 || m == 11 then 30
    else 31
  }

  /** LocalDate.ofEpochDay: the civil date of a day number. */
  function FromEpochDay(n: int): Date
  {
    var z := n + 719468;
    var era := z / 146097;
    var doe := z - era * 146097;
    var yoe := (doe - doe / 1460 + doe / 36524 - doe / 146096) / 365;
    var doy := doe - (365 * yoe + yoe / 4 - yoe / 100);
    var mp := (5 * doy + 2) / 153;
    var d := doy - (153 * mp + 2) / 5 + 1;
    var m := if mp < 10 then mp + 3 else mp - 9;
    Date(yoe + era * 400 + (if m <= 2 then 1 else 0), m, d)
  }

  /** LocalDate.toEpochDay: the day number of a civil date. */
  function ToEpochDay(date: Date): int
  {
    var y := if date.month <= 2 then date.year - 1 else date.year;
    var era := y / 400;
    var yoe := y - era * 400;
    var doy := (153 * (if date.month > 2 then date.month - 3 else date.month + 9) + 2) / 5 + date.day - 1;
    var doe := yoe * 365 + yoe / 4 - yoe / 100 + doy;
    era * 146097 + doe - 719468
  }

  /** The month count year * 12 + (month - 1) that LocalDate.until compares. */
  function ProlepticMonth(date: Date): int
  {
    date.year * 12 + date.month - 1
  }

  /** LocalDate.plusMonths: shift the month, clamping the day to the target month's length. */
  function PlusMonths(date: Date, months: int): Date
  {
    var count := ProlepticMonth(date) + months;
    var y := count / 12;
    var m := count % 12 + 1;
    var len := LengthOfMonth(y, m);
    Date(y, m, if date.day <= len then date.day else len)
  }

  /** from.until(to).getDays(): the days component of the Period from `from` to `to`. */
  function DaysPart(from: int, to: int): int
  {
    PeriodDays(FromEpochDay(from), FromEpochDay(to))
  }

  /** The days component of the Period between two civil dates (LocalDate.until). */
  function PeriodDays(start: Date, end: Date): int
  {
    var totalMonths := ProlepticMonth(end) - ProlepticMonth(start);
    var days := end.day - start.day;
    if totalMonths > 0 && days < 0 then
      ToEpochDay(end) - ToEpochDay(PlusMonths(start, totalMonths - 1))
    else if totalMonths < 0 && days > 0 then
      days - LengthOfMonth(end.year, end.month)
    else days
  }

  /** Within one month of one year the days component is the number of days between the
      two dates, counted on the day numbers, and it is negative when the end comes first. */
  lemma SameMonthPeriodDays(start: Date, end: Date)
    requires start.year == end.year && start.month == end.month
    ensures PeriodDays(start, end) == end.day - start.day
    ensures PeriodDays(start, end) == ToEpochDay(end) - ToEpochDay(start)
  {
  }

  /** The same for two day numbers whose dates share a month. */
  lemma SameMonthDaysPart(from: int, to: int)
    requires FromEpochDay(from).year == FromEpochDay(to).year
    requires FromEpochDay(from).month == FromEpochDay(to).month
    ensures DaysPart(from, to) == ToEpochDay(FromEpochDay(to)) - ToEpochDay(FromEpochDay(from))
  {
    SameMonthPeriodDays(FromEpochDay(from), FromEpochDay(to));
  }

  /** Day numbers of the dates used in the examples below. */
  lemma KnownDays()
    ensures ToEpochDay(Date(1970, 1, 1)) == 0
    ensures ToEpochDay(Date(2024, 12, 31)) == 20088
    ensures ToEpochDay(Date(2025, 1, 10)) == 20098
    ensures ToEpochDay(Date(2025, 1, 13)) == 20101
    ensures ToEpochDay(Date(2025, 2, 10)) == 20129
  {
  }

  lemma NewYearsEve2024()
    ensures FromEpochDay(20088) == Date(2024, 12, 31)
  {
    var z := 20088 + 719468;
    assert z == 739556;
    var era := z / 146097;
    assert era == 5;
    var doe := z - era * 146097;
    assert doe == 9071;
    var yoe := (doe - doe / 1460 + doe / 36524 - doe / 146096) / 365;
    assert yoe == 24;
    var doy := doe - (365 * yoe + yoe / 4 - yoe / 100);
    assert doy == 305;
    var mp := (5 * doy + 2) / 153;
    assert mp == 9;
    assert doy - (153 * mp + 2) / 5 + 1 == 31;
  }

  lemma January10th2025()
    ensures FromEpochDay(20098) == Date(2025, 1, 10)
  {
    var z := 20098 + 719468;
    assert z == 739566;
    var era := z / 146097;
    assert era == 5;
    var doe := z - era * 146097;
    assert doe == 9081;
    var yoe := (doe - doe / 1460 + doe / 36524 - doe / 146096) / 365;
    assert yoe == 24;
    var doy := doe - (365 * yoe + yoe / 4 - yoe / 100);
    assert doy == 315;
    var mp := (5 * doy + 2) / 153;
    assert mp == 10;
    assert doy - (153 * mp + 2) / 5 + 1 == 10;
  }

  lemma January13th2025()
    ensures FromEpochDay(20101) == Date(2025, 1, 13)
  {
    var z := 20101 + 719468;
    assert z == 739569;
    var era := z / 146097;
    assert era == 5;
    var doe := z - era * 146097;
    assert doe == 9084;
    var yoe := (doe - doe / 1460 + doe / 36524 - doe / 146096) / 365;
    assert yoe == 24;
    var doy := doe - (365 * yoe + yoe / 4 - yoe / 100);
    assert doy == 318;
    var mp := (5 * doy + 2) / 153;
    assert mp == 10;
    assert doy - (153 * mp + 2) / 5 + 1 == 13;
  }

  lemma February10th2025()
    ensures FromEpochDay(20129) == Date(2025, 2, 10)
  {
    var z := 20129 + 719468;
    assert z == 739597;
    var era := z / 146097;
    assert era == 5;
    var doe := z - era * 146097;
    assert doe == 9112;
    var yoe := (doe - doe / 1460 + doe / 36524 - doe / 146096) / 365;
    assert yoe == 24;
    var doy := doe - (365 * yoe + yoe / 4 - yoe / 100);
    assert doy == 346;
    var mp := (5 * doy + 2) / 153;
    assert mp == 11;
    assert doy - (153 * mp + 2) / 5 + 1 == 10;
  }

  /** Within one month the days component is the number of days: 2025-01-10 to 2025-01-13
      gives 3. */
  lemma ThreeNightsInJanuary()
    ensures DaysPart(20098, 20101) == 3
  {
    January10th2025();
    January13th2025();
    assert PeriodDays(Date(2025, 1, 10), Date(2025, 1, 13)) == 3;
  }

  /** Across a month boundary with the end day equal to the start day the components are
      1 month and 0 days: 2025-01-10 to 2025-02-10 gives 0, not 31. */
  lemma OneMonthHasNoDaysPart()
    ensures DaysPart(20098, 20129) == 0
    ensures 20129 - 20098 == 31
  {
    January10th2025();
    February10th2025();
    assert PeriodDays(Date(2025, 1, 10), Date(2025, 2, 10)) == 0;
  }

  /** Across a month boundary with the end day before the start day the days are counted from
      the start date moved by whole months: 2024-12-31 to 2025-01-10 gives 10. */
  lemma TenDaysAcrossNewYear()
    ensures DaysPart(20088, 20098) == 10
  {
    NewYearsEve2024();
    January10th2025();
    assert PlusMonths(Date(2024, 12, 31), 0) == Date(2024, 12, 31);
    KnownDays();
    assert PeriodDays(Date(2024, 12, 31), Date(2025, 1, 10)) == 10;
  }
}
