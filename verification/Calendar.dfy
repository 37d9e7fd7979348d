/** UTC years and months of a time value, as sections 21.4.1.3 to 21.4.1.12 of ECMA-262
    define them, and the metering period named after them. */
module Calendar {
  import opened Common
  import opened Text

  const MINUTES_PER_DAY: int := 1440

  predicate LeapYear(y: int) {
    y % 4 == 0 && (y % 100 != 0 || y % 400 == 0)
  }

  function DaysInYear(y: int): int {
    if LeapYear(y) then 366 else 365
  }

  /** The first day of a year, counted in days from 1970-01-01. */
  function DayFromYear(y: int): int
    decreases if y < 1970 then 1970 - y else y - 1970
  {
    if y == 1970 then 0
    else if y > 1970 then DayFromYear(y - 1) + DaysInYear(y - 1)
    else DayFromYear(y + 1) - DaysInYear(y)
  }

  lemma YearLength(y: int)
    ensures DayFromYear(y + 1) == DayFromYear(y) + DaysInYear(y)
  {
  }

  // ---- The standard's closed form of the same count ----

  function One(b: bool): int {
    if b then 1 else 0
  }

  lemma Fourth(y: int)
    ensures (y - 1968) / 4 == (y - 1969) / 4 + One(y % 4 == 0)
  {
  }

  lemma Hundredth(y: int)
    ensures (y - 1900) / 100 == (y - 1901) / 100 + One(y % 100 == 0)
  {
  }

  lemma FourHundredth(y: int)
    ensures (y - 1600) / 400 == (y - 1601) / 400 + One(y % 400 == 0)
  {
  }

  lemma HundredthIsFourth(y: int)
    ensures y % 100 == 0 ==> y % 4 == 0
  {
    assert y % 100 == 0 ==> y == 4 * (25 * (y / 100));
  }

  lemma FourHundredthIsHundredth(y: int)
    ensures y % 400 == 0 ==> y % 100 == 0
  {
    assert y % 400 == 0 ==> y == 100 * (4 * (y / 400));
  }

  lemma LeapRule(y: int)
    ensures DaysInYear(y) == 365 + One(y % 4 == 0) - One(y % 100 == 0) + One(y % 400 == 0)
  {
    HundredthIsFourth(y);
    FourHundredthIsHundredth(y);
  }

  /** Adding up year lengths gives the formula of section 21.4.1.5. */
  lemma {:induction false} DayFromYearFormula(y: int)
    ensures DayFromYear(y) == 365 * (y - 1970) + (y - 1969) / 4 - (y - 1901) / 100 + (y - 1601) / 400
    decreases if y < 1970 then 1970 - y else y - 1970
  {
    if y > 1970 {
      DayFromYearFormula(y - 1);
      YearLength(y - 1);
      FormulaStep(y - 1);
    } else if y < 1970 {
      DayFromYearFormula(y + 1);
      YearLength(y);
      FormulaStep(y);
    }
  }

  lemma FormulaStep(y: int)
    ensures (y - 1968) / 4 - (y - 1900) / 100 + (y - 1600) / 400
            == (y - 1969) / 4 - (y - 1901) / 100 + (y - 1601) / 400 + DaysInYear(y) - 365
  {
    Fourth(y);
    Hundredth(y);
    FourHundredth(y);
    LeapRule(y);
  }

  // ---- Years and months of a day ----

  /** The year a day falls in, searched for from `y`. */
  function YearNear(day: int, y: int): (year: int)
    ensures DayFromYear(year) <= day < DayFromYear(year + 1)
    decreases if day < DayFromYear(y) then 1 else 0, if day < DayFromYear(y) then DayFromYear(y) - day
        else day - DayFromYear(y)
  {
    YearLength(y);
    YearLength(y - 1);
    if day < DayFromYear(y) then YearNear(day, y - 1)
    else if day >= DayFromYear(y + 1) then YearNear(day, y + 1)
    else y
  }

  function YearOfDay(day: int): int {
    YearNear(day, 1970)
  }

  /** Days of the year before month `m` (0 for January); `m == 12` is the whole year. */
  function DaysBefore(m: int, leap: bool): int
    requires 0 <= m <= 12
  {
    var l := if leap then 1 else 0;
    if m == 0 then 0
    else if m == 1 then 31
    else if m == 2 then 59 + l
    else if m == 3 then 90 + l
    else if m == 4 then 120 + l
    else if m == 5 then 151 + l
    else if m == 6 then 181 + l
    else if m == 7 then 212 + l
    else if m == 8 then 243 + l
    else if m == 9 then 273 + l
    else if m == 10 then 304 + l
    else if m == 11 then 334 + l
    else 365 + l
  }

  function MonthInYear(dayInYear: int, leap: bool): (m: int)
    requires 0 <= dayInYear < DaysBefore(12, leap)
    ensures 0 <= m < 12
    ensures DaysBefore(m, leap) <= dayInYear < DaysBefore(m + 1, leap)
  {
    var l := if leap then 1 else 0;
    if dayInYear < 31 then 0
    else if dayInYear < 59 + l then 1
    else if dayInYear < 90 + l then 2
    else if dayInYear < 120 + l then 3
    else if dayInYear < 151 + l then 4
    else if dayInYear < 181 + l then 5
    else if dayInYear < 212 + l then 6
    else if dayInYear < 243 + l then 7
    else if dayInYear < 273 + l then 8
    else if dayInYear < 304 + l then 9
    else if dayInYear < 334 + l then 10
    else 11
  }

  /** Months counted from year 0: month `m` of year `y` is `12 * y + m`. */
  function MonthOfDay(day: int): int {
    var y := YearOfDay(day);
    YearLength(y);
    12 * y + MonthInYear(day - DayFromYear(y), LeapYear(y))
  }

  /** The first day of month `m` of a year; month 12 is the next January. */
  function FirstDayIn(y: int, m: int): int
    requires 0 <= m <= 12
  {
    DayFromYear(y) + DaysBefore(m, LeapYear(y))
  }

  function FirstDay(month: int): int {
    FirstDayIn(month / 12, month % 12)
  }

  lemma YearAndMonth(month: int, y: int, m: int)
    requires 0 <= m < 12 && month == 12 * y + m
    ensures month / 12 == y && month % 12 == m
  {
  }

  lemma FirstDayIs(month: int, y: int, m: int)
    requires 0 <= m < 12 && month == 12 * y + m
    ensures FirstDay(month) == FirstDayIn(y, m)
  {
    YearAndMonth(month, y, m);
  }

  lemma YearIsTwelveMonths(y: int)
    ensures FirstDayIn(y + 1, 0) == FirstDayIn(y, 12)
  {
    YearLength(y);
  }

  /** The first day of the month after, by this month's year. */
  lemma NextFirstDayIs(month: int, y: int, m: int)
    requires 0 <= m < 12 && month == 12 * y + m
    ensures FirstDay(month + 1) == FirstDayIn(y, m + 1)
  {
    if m == 11 {
      FirstDayIs(month + 1, y + 1, 0);
      YearIsTwelveMonths(y);
    } else {
      FirstDayIs(month + 1, y, m + 1);
    }
  }

  /** Thirty days have April, June, September and November, February has 28 or 29, and all the
      rest 31. */
  function DaysInMonth(y: int, m: int): int {
    if m == 1 then 28 + One(y % 4 == 0) - One(y % 100 == 0) + One(y % 400 == 0)
    else if m in {3, 5, 8, 10} then 30
    else 31
  }

  lemma MonthHasItsDays(y: int, m: int)
    requires 0 <= m < 12
    ensures FirstDay(12 * y + m + 1) == FirstDay(12 * y + m) + DaysInMonth(y, m)
  {
    FirstDayIs(12 * y + m, y, m);
    NextFirstDayIs(12 * y + m, y, m);
    HundredthIsFourth(y);
    FourHundredthIsHundredth(y);
  }

  lemma MonthLength(month: int)
    ensures FirstDay(month) + 28 <= FirstDay(month + 1) <= FirstDay(month) + 31
  {
    FirstDayIs(month, month / 12, month % 12);
    NextFirstDayIs(month, month / 12, month % 12);
  }

  lemma {:induction false} MonthsAreOrdered(a: int, b: int)
    requires a <= b
    ensures FirstDay(a) + 28 * (b - a) <= FirstDay(b)
    decreases b - a
  {
    if a < b {
      MonthsAreOrdered(a, b - 1);
      MonthLength(b - 1);
    }
  }

  lemma MonthHoldsDay(day: int)
    ensures FirstDay(MonthOfDay(day)) <= day < FirstDay(MonthOfDay(day) + 1)
  {
    var y := YearOfDay(day);
    YearLength(y);
    var m := MonthInYear(day - DayFromYear(y), LeapYear(y));
    FirstDayIs(12 * y + m, y, m);
    NextFirstDayIs(12 * y + m, y, m);
  }

  lemma OneMonthHoldsDay(day: int, own: int, month: int)
    requires FirstDay(own) <= day < FirstDay(own + 1)
    ensures own == month <==> FirstDay(month) <= day < FirstDay(month + 1)
  {
    if month < own {
      MonthsAreOrdered(month + 1, own);
    } else if own < month {
      MonthsAreOrdered(own + 1, month);
    }
  }

  lemma MonthIsItsDays(day: int, month: int)
    ensures MonthOfDay(day) == month <==> FirstDay(month) <= day < FirstDay(month + 1)
  {
    MonthHoldsDay(day);
    OneMonthHoldsDay(day, MonthOfDay(day), month);
  }

  /** A minute counted from the epoch, and the first minute of a month. */
  function MonthOf(minute: int): int {
    MonthOfDay(minute / MINUTES_PER_DAY)
  }

  function FirstMinute(month: int): int {
    MINUTES_PER_DAY * FirstDay(month)
  }

  /** The months cut the minutes into consecutive ranges: a minute is in month `m`
      exactly when it is between that month's first minute and the next one's. */
  lemma MonthIsItsRange(minute: int, month: int)
    ensures MonthOf(minute) == month <==> FirstMinute(month) <= minute < FirstMinute(month + 1)
  {
    var day := minute / MINUTES_PER_DAY;
    MonthIsItsDays(day, month);
    MinutesOfDays(minute, FirstDay(month));
    MinutesOfDays(minute, FirstDay(month + 1));
  }

  /** The first minutes of all months follow from the lengths of months and from the month 1 of
      1970 starting at minute 0. */
  lemma MonthHasItsMinutes(y: int, m: int)
    requires 0 <= m < 12
    ensures FirstMinute(12 * y + m + 1) == FirstMinute(12 * y + m) + 24 * 60 * DaysInMonth(y, m)
    ensures FirstMinute(12 * 1970) == 0
  {
    MonthHasItsDays(y, m);
    FirstDayIs(12 * 1970, 1970, 0);
  }

  lemma MinutesOfDays(minute: int, day: int)
    ensures day <= minute / MINUTES_PER_DAY <==> MINUTES_PER_DAY * day <= minute
  {
  }

  lemma {:induction false} MonthsRise(a: int, b: int)
    requires a <= b
    ensures FirstMinute(a) <= FirstMinute(b)
    ensures a < b ==> FirstMinute(a) < FirstMinute(b)
  {
    MonthsAreOrdered(a, b);
  }

  /** `YYYY-MM-01`, as `periodOf` spells it. */
  function PeriodName(month: int): string {
    Decimal(month / 12) + "-" + Pad2(month % 12 + 1) + "-01"
  }

  /** How a period is read: a year, a dash, two digits from 01 for the month, and `-01`. */
  function ReadPeriod(s: string): Option<(int, int)> {
    var n := |s| - 6;
    if n < 0 || s[n] != '-' || s[n + 3..] != "-01" then None
    else Some((ParseInt(s[..n]), ParseNat(s[n + 1..n + 3])))
  }

  lemma PeriodText(y: int, m: int)
    requires 0 <= m < 12
    ensures ReadPeriod(Decimal(y) + "-" + Pad2(m + 1) + "-01") == Some((y, m + 1))
  {
    var s := Decimal(y) + "-" + Pad2(m + 1) + "-01";
    var n := |s| - 6;
    assert s[..n] == Decimal(y) && s[n] == '-' && s[n + 1..n + 3] == Pad2(m + 1) && s[n + 3..] == "-01";
    ParseDecimal(y);
    ParsePad2(m + 1);
  }

  /** Month `m` of year `y`, counted from 0, is spelled with its year and `m + 1`. */
  lemma PeriodReadsBack(month: int, y: int, m: int)
    requires 0 <= m < 12 && month == 12 * y + m
    ensures ReadPeriod(PeriodName(month)) == Some((y, m + 1))
  {
    YearAndMonth(month, y, m);
    PeriodText(y, m);
  }

  lemma PeriodSaysMonth(month: int, y: int, n: int)
    requires 1 <= n <= 12
    ensures ReadPeriod(PeriodName(month)) == Some((y, n)) <==> month == 12 * y + n - 1
  {
    PeriodReadsBack(month, month / 12, month % 12);
    if month == 12 * y + n - 1 {
      PeriodReadsBack(month, y, n - 1);
    }
  }

  /** No two months share a period, in any year. */
  lemma PeriodNamesMonth(a: int, b: int)
    ensures PeriodName(a) == PeriodName(b) <==> a == b
  {
    var y, m := b / 12, b % 12;
    PeriodReadsBack(b, y, m);
    PeriodSaysMonth(a, y, m + 1);
  }

  /** The period of a minute says year `y` and month `n` exactly if the minute lies in that
      month of that year. */
  lemma PeriodSaysWhen(minute: int, y: int, n: int)
    requires 1 <= n <= 12
    ensures ReadPeriod(PeriodName(MonthOf(minute))) == Some((y, n)) <==>
            FirstMinute(12 * y + n - 1) <= minute < FirstMinute(12 * y + n)
  {
    PeriodSaysMonth(MonthOf(minute), y, n);
    MonthIsItsRange(minute, 12 * y + n - 1);
  }
}
