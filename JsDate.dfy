/** The arithmetic behind the JavaScript `Date` constructor
    `new Date(year, monthIndex, day, hours, minutes, seconds, ms)`, following
    the abstract operations DayFromYear, MakeDay, MakeTime and MakeDate of
    ECMA-262 (section 21.4.1). Times are whole milliseconds since the epoch,
    taken as local time with a zero offset. Dafny's `/` and `%` with a positive
    divisor are floor division and a non-negative remainder, which is what
    the standard's `floor` and `modulo` are. */
module JsDate {

  /** Milliseconds in `days` whole days (ms per day is 86400000). */
  function DaysToMs(days: int): int { days * 86400000 }

  predicate IsLeapYear(y: int)
  {
    y % 4 == 0 && (y % 100 != 0 || y % 400 == 0)
  }

  function DaysInYear(y: int): int
  {
    if IsLeapYear(y) then 366 else 365
  }

  /** Number of days from 1 January 1970 to 1 January of year y. */
  function DayFromYear(y: int): int
  {
    365 * (y - 1970) + (y - 1969) / 4 - (y - 1901) / 100 + (y - 1601) / 400
  }

  /** Days of month m (0 = January) of year y. */
  function DaysInMonth(y: int, m: int): (n: int)
    requires 0 <= m < 12
    ensures 28 <= n <= 31
    ensures m == 1 ==> (n == 29 <==> IsLeapYear(y))
  {
    if m == 1 then (if IsLeapYear(y) then 29 else 28)
    else if m == 3 || m == 5 || m == 8 || m == 10 then 30
    else 31
  }

  /** Days of year y before the first day of month m. */
  function DaysBeforeMonth(y: int, m: int): int
    requires 0 <= m <= 12
  {
    if m == 0 then 0 else DaysBeforeMonth(y, m - 1) + DaysInMonth(y, m - 1)
  }

  lemma MonthsFillYear(y: int)
    ensures DaysBeforeMonth(y, 12) == DaysInYear(y)
  {
    var feb := DaysInMonth(y, 1);
    assert DaysBeforeMonth(y, 1) == 31;
    assert DaysBeforeMonth(y, 2) == 31 + feb;
    assert DaysBeforeMonth(y, 3) == 62 + feb;
    assert DaysBeforeMonth(y, 4) == 92 + feb;
    assert DaysBeforeMonth(y, 5) == 123 + feb;
    assert DaysBeforeMonth(y, 6) == 153 + feb;
    assert DaysBeforeMonth(y, 7) == 184 + feb;
    assert DaysBeforeMonth(y, 8) == 215 + feb;
    assert DaysBeforeMonth(y, 9) == 245 + feb;
    assert DaysBeforeMonth(y, 10) == 276 + feb;
    assert DaysBeforeMonth(y, 11) == 306 + feb;
  }

  /** Successive years start DaysInYear apart: this is where the leap-year
      rule (every 4th year, except centuries, except every 400th) meets the
      closed formula of DayFromYear. */
  lemma NextYearStart(y: int)
    ensures DayFromYear(y + 1) == DayFromYear(y) + DaysInYear(y)
  {
    FourYearStep(y);
    CenturyStep(y);
    QuadCenturyStep(y);
    if y % 400 == 0 {
      CenturyOfQuadCentury(y);
    }
    if y % 100 == 0 {
      LeapCandidateOfCentury(y);
    }
  }

  /** A year divisible by 400 is divisible by 100... */
  lemma CenturyOfQuadCentury(y: int)
    requires y % 400 == 0
    ensures y % 100 == 0
  {
    var k := y / 400;
    assert y == 100 * (4 * k);
  }

  /** ...and one divisible by 100 is divisible by 4. */
  lemma LeapCandidateOfCentury(y: int)
    requires y % 100 == 0
    ensures y % 4 == 0
  {
    var k := y / 100;
    assert y == 4 * (25 * k);
  }

  // Each of the three divisions in DayFromYear counts the years of one
  // kind before y; stepping to y + 1 adds y itself when it is of that kind.

  lemma FourYearStep(y: int)
    ensures (y + 1 - 1969) / 4 == (y - 1969) / 4 + (if y % 4 == 0 then 1 else 0)
  {
  }

  lemma CenturyStep(y: int)
    ensures (y + 1 - 1901) / 100 == (y - 1901) / 100 + (if y % 100 == 0 then 1 else 0)
  {
  }

  lemma QuadCenturyStep(y: int)
    ensures (y + 1 - 1601) / 400 == (y - 1601) / 400 + (if y % 400 == 0 then 1 else 0)
  {
  }

  /** MakeDay(year, month, date): the month index may lie outside 0..11 and
      is carried into the year; date 1 is the first day of the month and
      date 0 the day before it. */
  function MakeDay(year: int, month: int, date: int): int
  {
    var ym := year + month / 12;
    var mn := month % 12;
    DayFromYear(ym) + DaysBeforeMonth(ym, mn) + date - 1
  }

  /** MakeTime: milliseconds since midnight, h * 3600000 + min * 60000 +
      s * 1000 + ms, written in nested form. */
  function MakeTime(hour: int, minute: int, second: int, ms: int): int
  {
    ((hour * 60 + minute) * 60 + second) * 1000 + ms
  }

  function MakeDate(day: int, time: int): int
  {
    DaysToMs(day) + time
  }

  /** The constructor reads a year in 0..99 as 1900 + year. */
  function ConstructorYear(y: int): (r: int)
    ensures 0 <= y <= 99 ==> r == 1900 + y
    ensures !(0 <= y <= 99) ==> r == y
  {
    if 0 <= y <= 99 then 1900 + y else y
  }

  /** The calendar year and month (0..11) that a month index counted from
      January of `year` lands in. */
  function CarryYear(year: int, month: int): int { year + month / 12 }
  function CarryMonth(month: int): (m: int) ensures 0 <= m < 12 { month % 12 }

  /** Day 0 of month index `month` is the last day of the month before it,
      whatever the index and in leap years too. */
  lemma DayZeroIsLastDay(year: int, month: int)
    ensures MakeDay(year, month, 0)
         == MakeDay(year, month - 1, DaysInMonth(CarryYear(year, month - 1), CarryMonth(month - 1)))
  {
    var ym, mn := CarryYear(year, month - 1), CarryMonth(month - 1);
    if mn == 11 {
      assert month / 12 == (month - 1) / 12 + 1 && month % 12 == 0;
      NextYearStart(ym);
      MonthsFillYear(ym);
    } else {
      assert month / 12 == (month - 1) / 12 && month % 12 == mn + 1;
    }
  }

  /** Index 12 of a year is January of the next: day 0 of it is 31 December. */
  lemma DayZeroOfMonthTwelve(year: int)
    ensures MakeDay(year, 12, 0) == MakeDay(year, 0, 1) + DaysInYear(year) - 1
  {
    assert 12 / 12 == 1 && 12 % 12 == 0;
    NextYearStart(year);
  }
}
