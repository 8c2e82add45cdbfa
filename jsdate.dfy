/**
 * The part of the JavaScript `Date` object that the screens use, on integer
 * Gregorian dates: day numbers counted from 1 January 1970 (section 21.4.1 of
 * ECMA-262), the constructor `new Date(year, month, day)` with its overflow
 * rule (day 0 is the last day of the previous month, month 12 is January of
 * the next year), `getDate`, `getDay`, and the calendar day of a timestamp.
 * Local time is taken to be UTC.
 */
module JsDate {

  /** Milliseconds in a day (msPerDay). */
  const MS_PER_DAY: int := 86_400_000

  /** A date as `getFullYear()`, `getMonth()` (0 = January) and `getDate()` report it. */
  datatype CivilDate = CivilDate(year: int, month: int, day: int)

  /** DaysInYear (section 21.4.1.3): the Gregorian leap-year rule. */
  function DaysInYear(y: int): (n: int)
    ensures n == 365 || n == 366
    ensures n == 366 <==> (y % 4 == 0 && (y % 100 != 0 || y % 400 == 0))
  {
    if y % 4 != 0 then 365
    else if y % 100 != 0 then 366
    else if y % 400 != 0 then 365
    else 366
  }

  /** DayFromYear (section 21.4.1.3): the day number of 1 January of year `y`. */
  function DayFromYear(y: int): int
  {
    365 * (y - 1970) + (y - 1969) / 4 - (y - 1901) / 100 + (y - 1601) / 400
  }

  /** The length of month `m` (0 = January) of year `y`. */
  function DaysInMonth(y: int, m: int): (n: int)
    requires 0 <= m < 12
    ensures 28 <= n <= 31
    ensures m == 1 ==> (n == 29 <==> DaysInYear(y) == 366)
  {
    if m == 1 then DaysInYear(y) - 337
    else if m == 3 || m == 5 || m == 8 || m == 10 then 30
    else 31
  }

  /** The number of days of year `y` before the first of month `m`. */
  function MonthStart(y: int, m: int): int
    requires 0 <= m <= 12
  {
    if m == 0 then 0 else MonthStart(y, m - 1) + DaysInMonth(y, m - 1)
  }

  predicate IsValid(d: CivilDate)
  {
    0 <= d.month < 12 && 1 <= d.day <= DaysInMonth(d.year, d.month)
  }

  /** The day number (days since 1 January 1970) of a date, day 0 and day 32 included. */
  function DayNumber(y: int, m: int, d: int): int
    requires 0 <= m < 12
  {
    DayFromYear(y) + MonthStart(y, m) + d - 1
  }

  function DayOf(c: CivilDate): int
    requires 0 <= c.month < 12
  {
    DayNumber(c.year, c.month, c.day)
  }

  /** MakeDay (section 21.4.1.28): the month is first brought into 0..11, carrying into the year. */
  function MakeDay(year: int, month: int, date: int): int
  {
    DayNumber(year + month / 12, month % 12, date)
  }

  /** WeekDay (section 21.4.1.10): 0 is Sunday; day 0 was a Thursday. */
  function WeekDay(dayNumber: int): (w: int)
    ensures 0 <= w < 7
  {
    (dayNumber + 4) % 7
  }

  /** Day (section 21.4.1.3): the calendar day a timestamp in milliseconds falls on. */
  function CalendarDay(ms: int): int
  {
    ms / MS_PER_DAY
  }

  /**
   * `new Date(year, month, date)` read back through `getFullYear`, `getMonth`
   * and `getDate`: the valid date whose day number is MakeDay(year, month, date).
   */
  function MakeDate(year: int, month: int, date: int): (r: CivilDate)
    ensures IsValid(r) && DayOf(r) == MakeDay(year, month, date)
  {
    Normalize(year + month / 12, month % 12, date)
  }

  /** Moves an out-of-range day into the previous or following months, one month at a time. */
  function Normalize(y: int, m: int, d: int): (r: CivilDate)
    requires 0 <= m < 12
    ensures IsValid(r) && DayOf(r) == DayNumber(y, m, d)
    decreases if d < 1 then 1 - d else 0, if d > 0 then d else 0
  {
    if d < 1 then
      var py, pm := if m == 0 then y - 1 else y, if m == 0 then 11 else m - 1;
      NextMonthStart(py, pm);
      Normalize(py, pm, d + DaysInMonth(py, pm))
    else if d > DaysInMonth(y, m) then
      var ny, nm := if m == 11 then y + 1 else y, if m == 11 then 0 else m + 1;
      NextMonthStart(y, m);
      Normalize(ny, nm, d - DaysInMonth(y, m))
    else CivilDate(y, m, d)
  }

  /** Consecutive years: 1 January of `y + 1` is DaysInYear(y) days after 1 January of `y`. */
  lemma {:induction false} YearStep(y: int)
    ensures DayFromYear(y + 1) == DayFromYear(y) + DaysInYear(y)
  {
    LeapCountStep(y);
    CenturyCountStep(y);
    QuadCenturyCountStep(y);
    DivisorsNest(y);
  }

  /** Each term of DayFromYear counts one more leap rule at the years the rule names. */
  lemma LeapCountStep(y: int)
    ensures (y - 1968) / 4 - (y - 1969) / 4 == if y % 4 == 0 then 1 else 0
  {
  }

  lemma CenturyCountStep(y: int)
    ensures (y - 1900) / 100 - (y - 1901) / 100 == if y % 100 == 0 then 1 else 0
  {
  }

  lemma QuadCenturyCountStep(y: int)
    ensures (y - 1600) / 400 - (y - 1601) / 400 == if y % 400 == 0 then 1 else 0
  {
  }

  lemma DivisorsNest(y: int)
    ensures y % 400 == 0 ==> y % 100 == 0
    ensures y % 100 == 0 ==> y % 4 == 0
  {
  }

  /** The twelve months of a year make up the whole year. */
  lemma YearLength(y: int)
    ensures MonthStart(y, 12) == DaysInYear(y)
  {
    var leap := DaysInYear(y) - 365;
    assert MonthStart(y, 1) == 31;
    assert MonthStart(y, 2) == 59 + leap;
    assert MonthStart(y, 3) == 90 + leap;
    assert MonthStart(y, 4) == 120 + leap;
    assert MonthStart(y, 5) == 151 + leap;
    assert MonthStart(y, 6) == 181 + leap;
    assert MonthStart(y, 7) == 212 + leap;
    assert MonthStart(y, 8) == 243 + leap;
    assert MonthStart(y, 9) == 273 + leap;
    assert MonthStart(y, 10) == 304 + leap;
    assert MonthStart(y, 11) == 334 + leap;
  }

  lemma {:induction false} MonthStartNonNegative(y: int, m: int)
    requires 0 <= m <= 12
    ensures MonthStart(y, m) >= 0
  {
    if m > 0 {
      MonthStartNonNegative(y, m - 1);
    }
  }

  /** The first of the month after (y, m) is DaysInMonth(y, m) days after the first of (y, m). */
  lemma NextMonthStart(y: int, m: int)
    requires 0 <= m < 12
    ensures m < 11 ==> DayNumber(y, m + 1, 1) == DayNumber(y, m, 1) + DaysInMonth(y, m)
    ensures m == 11 ==> DayNumber(y + 1, 0, 1) == DayNumber(y, m, 1) + DaysInMonth(y, m)
  {
    if m == 11 {
      YearStep(y);
      YearLength(y);
    }
  }

  /** Later years start later: the whole of year y1 comes before year y2 > y1. */
  lemma {:induction false} YearsOrdered(y1: int, y2: int)
    requires y1 < y2
    ensures DayFromYear(y1 + 1) <= DayFromYear(y2)
    decreases y2 - y1
  {
    if y1 + 1 < y2 {
      YearsOrdered(y1 + 1, y2);
      YearStep(y1 + 1);
    }
  }

  /** Later months of a year start later. */
  lemma {:induction false} MonthsOrdered(y: int, m1: int, m2: int)
    requires 0 <= m1 < m2 <= 12
    ensures MonthStart(y, m1 + 1) <= MonthStart(y, m2)
    decreases m2 - m1
  {
    if m1 + 1 < m2 {
      MonthsOrdered(y, m1 + 1, m2);
    }
  }

  /** A valid date lies inside its year. */
  lemma InsideYear(c: CivilDate)
    requires IsValid(c)
    ensures DayFromYear(c.year) <= DayOf(c) < DayFromYear(c.year + 1)
  {
    YearStep(c.year);
    YearLength(c.year);
    MonthStartNonNegative(c.year, c.month);
    MonthsOrdered(c.year, c.month, 12);
  }

  /** Distinct valid dates have distinct day numbers, so `getDate` and `getMonth` are well defined. */
  lemma DayOfInjective(a: CivilDate, b: CivilDate)
    requires IsValid(a) && IsValid(b) && DayOf(a) == DayOf(b)
    ensures a == b
  {
    InsideYear(a);
    InsideYear(b);
    if a.year < b.year {
      YearsOrdered(a.year, b.year);
    } else if b.year < a.year {
      YearsOrdered(b.year, a.year);
    }
    assert a.year == b.year;
    if a.month < b.month {
      MonthsOrdered(a.year, a.month, b.month);
    } else if b.month < a.month {
      MonthsOrdered(a.year, b.month, a.month);
    }
  }

  /** `new Date(y, m, d)` is the one valid date whose day number is MakeDay(y, m, d). */
  lemma MakeDateUnique(year: int, month: int, date: int, c: CivilDate)
    requires IsValid(c) && DayOf(c) == MakeDay(year, month, date)
    ensures MakeDate(year, month, date) == c
  {
    DayOfInjective(MakeDate(year, month, date), c);
  }

  /** Day 0 of the month after `m` is the last day of `m` (the rule `getDaysInMonth` relies on). */
  lemma DayZero(y: int, m: int)
    requires 0 <= m < 12
    ensures MakeDate(y, m + 1, 0) == CivilDate(y, m, DaysInMonth(y, m))
  {
    NextMonthStart(y, m);
    if m == 11 {
      assert MakeDay(y, 12, 0) == DayNumber(y + 1, 0, 0);
    } else {
      assert MakeDay(y, m + 1, 0) == DayNumber(y, m + 1, 0);
    }
    MakeDateUnique(y, m + 1, 0, CivilDate(y, m, DaysInMonth(y, m)));
  }

  /** A valid date is its own normal form. */
  lemma MakeDateValid(c: CivilDate)
    requires IsValid(c)
    ensures MakeDate(c.year, c.month, c.day) == c
  {
    MakeDateUnique(c.year, c.month, c.day, c);
  }
}
