/** Day numbers and calendar dates of the proleptic Gregorian calendar, as section 21.4.1 of ECMA-262
    defines them for `Date`. Times are whole milliseconds since 1970-01-01T00:00Z; the bound of
    8.64e15 ms that `TimeClip` sets is not modelled. */
module Calendar {

  const MS_PER_MINUTE := 60000
  const MS_PER_DAY := 86400000

  /** A calendar date; months count from 1. */
  datatype Civil = Civil(year: int, month: int, day: int)

  /** `Day(t)`: Dafny's division by a positive number rounds down, as the standard asks. */
  function Day(t: int): int { t / MS_PER_DAY }

  predicate IsLeap(y: int) { y % 4 == 0 && (y % 100 != 0 || y % 400 == 0) }

  function DaysInYear(y: int): int { if IsLeap(y) then 366 else 365 }

  /** `DayFromYear(y)`, the day number of 1 January. */
  function DayFromYear(y: int): int {
    365 * (y - 1970) + (y - 1969) / 4 - (y - 1901) / 100 + (y - 1601) / 400
  }

  lemma NextYear(y: int)
    ensures DayFromYear(y + 1) == DayFromYear(y) + DaysInYear(y)
  {
    NextQuotient(y - 1969, 4);
    NextQuotient(y - 1901, 100);
    NextQuotient(y - 1601, 400);
    assert (y - 1968) % 4 == y % 4 && (y - 1900) % 100 == y % 100 && (y - 1600) % 400 == y % 400;
    CenturiesAreLeapCandidates(y);
  }

  lemma CenturiesAreLeapCandidates(y: int)
    ensures y % 400 == 0 ==> y % 100 == 0
    ensures y % 100 == 0 ==> y % 4 == 0
  {
  }

  lemma NextQuotient(a: int, n: int)
    requires n in {4, 100, 400}
    ensures (a + 1) / n - a / n == if (a + 1) % n == 0 then 1 else 0
  {
  }

  lemma {:induction false} YearsIncrease(y: int, z: int)
    requires y < z
    ensures DayFromYear(y) + 365 <= DayFromYear(z)
    decreases z - y
  {
    NextYear(y);
    if y + 1 < z {
      YearsIncrease(y + 1, z);
    }
  }

  /** `YearFromTime` on a day number: the year whose days include it. The standard only says which
      year it is; this estimates it from the mean length of a year and corrects by at most one. */
  function YearFromDay(d: int): (y: int)
    ensures DayFromYear(y) <= d < DayFromYear(y + 1)
  {
    var guess := 1970 + 400 * d / 146097;
    if d < DayFromYear(guess) then guess - 1
    else if DayFromYear(guess + 1) <= d then guess + 1
    else guess
  }

  /** The number of days of a year before month `m` (0 for January). */
  function DaysBefore(m: int, leap: bool): int
    requires 0 <= m <= 12
  {
    var extra := if leap && m > 1 then 1 else 0;
    [0, 31, 59, 90, 120, 151, 181, 212, 243, 273, 304, 334, 365][m] + extra
  }

  /** `MonthFromTime` on the day within a year. */
  function MonthOf(k: int, leap: bool): (m: int)
    requires 0 <= k < DaysBefore(12, leap)
    ensures 0 <= m < 12 && DaysBefore(m, leap) <= k < DaysBefore(m + 1, leap)
  {
    if k < DaysBefore(6, leap) then
      if k < DaysBefore(1, leap) then 0 else if k < DaysBefore(2, leap) then 1
      else if k < DaysBefore(3, leap) then 2 else if k < DaysBefore(4, leap) then 3
      else if k < DaysBefore(5, leap) then 4 else 5
    else
      if k < DaysBefore(7, leap) then 6 else if k < DaysBefore(8, leap) then 7
      else if k < DaysBefore(9, leap) then 8 else if k < DaysBefore(10, leap) then 9
      else if k < DaysBefore(11, leap) then 10 else 11
  }

  predicate IsCivil(c: Civil) {
    && 1 <= c.month <= 12
    && 1 <= c.day <= DaysBefore(c.month, IsLeap(c.year)) - DaysBefore(c.month - 1, IsLeap(c.year))
  }

  /** The months as everyone knows them. */
  lemma MonthLengths(c: Civil)
    ensures IsCivil(c) <==>
      && 1 <= c.month <= 12
      && 1 <= c.day <= (
           if c.month in {1, 3, 5, 7, 8, 10, 12} then 31
           else if c.month != 2 then 30
           else if c.year % 400 == 0 || (c.year % 4 == 0 && c.year % 100 != 0) then 29
           else 28)
  {
  }

  /** `YearFromTime`, `MonthFromTime` and `DateFromTime` of a day number. */
  function CivilFromDay(d: int): (c: Civil)
    ensures IsCivil(c)
  {
    var y := YearFromDay(d);
    NextYear(y);
    var k := d - DayFromYear(y);
    var m := MonthOf(k, IsLeap(y));
    Civil(y, m + 1, k - DaysBefore(m, IsLeap(y)) + 1)
  }

  /** `MakeDay`: months and days outside their range carry into the year. */
  function MakeDay(year: int, month: int, day: int): int {
    var y, m := year + month / 12, month % 12;
    DayFromYear(y) + DaysBefore(m, IsLeap(y)) + day - 1
  }

  /** `MakeFullYear`: the years 0 to 99 stand for 1900 to 1999. */
  function MakeFullYear(y: int): int { if 0 <= y <= 99 then 1900 + y else y }

  function DayOf(c: Civil): int { MakeDay(c.year, c.month - 1, c.day) }

  lemma MonthsIncrease(m: int, n: int, leap: bool)
    requires 0 <= m < n <= 12
    ensures DaysBefore(m, leap) + 28 <= DaysBefore(n, leap)
  {
  }

  /** A calendar date lies within its year. */
  lemma DayWithinYear(c: Civil)
    requires IsCivil(c)
    ensures DayFromYear(c.year) <= DayOf(c) < DayFromYear(c.year + 1)
    ensures DayOf(c) == DayFromYear(c.year) + DaysBefore(c.month - 1, IsLeap(c.year)) + c.day - 1
  {
    NextYear(c.year);
    assert (c.month - 1) / 12 == 0 && (c.month - 1) % 12 == c.month - 1;
    if c.month > 1 { MonthsIncrease(0, c.month - 1, IsLeap(c.year)); }
    if c.month < 12 { MonthsIncrease(c.month, 12, IsLeap(c.year)); }
  }

  /** Day numbers count from 1 January 1970, and the day after a date is the next of its month, or the first
      of the next month or year. */
  lemma DaysFollow(c: Civil)
    requires IsCivil(c)
    ensures DayOf(Civil(1970, 1, 1)) == 0
    ensures var next := if IsCivil(Civil(c.year, c.month, c.day + 1)) then Civil(c.year, c.month, c.day + 1)
                        else if c.month < 12 then Civil(c.year, c.month + 1, 1) else Civil(c.year + 1, 1, 1);
      IsCivil(next) && DayOf(next) == DayOf(c) + 1
  {
    EpochIsDayZero();
    hide DayFromYear, DayOf, DaysBefore, IsLeap;
    DayWithinYear(c);
    if IsCivil(Civil(c.year, c.month, c.day + 1)) {
      DayWithinYear(Civil(c.year, c.month, c.day + 1));
    } else if c.month < 12 {
      FirstIsCivil(c.year, c.month + 1);
      DayWithinYear(Civil(c.year, c.month + 1, 1));
    } else {
      YearEnds(c.year);
      FirstIsCivil(c.year + 1, 1);
      DayWithinYear(Civil(c.year + 1, 1, 1));
    }
  }

  lemma EpochIsDayZero()
    ensures DayOf(Civil(1970, 1, 1)) == 0
  {
  }

  lemma FirstIsCivil(year: int, month: int)
    requires 1 <= month <= 12
    ensures IsCivil(Civil(year, month, 1))
  {
    MonthsIncrease(month - 1, month, IsLeap(year));
  }

  lemma YearEnds(year: int)
    ensures DayFromYear(year + 1) == DayFromYear(year) + DaysBefore(12, IsLeap(year))
    ensures DaysBefore(0, IsLeap(year + 1)) == 0
  {
    hide DayFromYear;
    NextYear(year);
  }

  /** The order of two dates is that of year, then month, then day. */
  predicate Before(a: Civil, b: Civil) {
    || a.year < b.year
    || (a.year == b.year && (a.month < b.month || (a.month == b.month && a.day < b.day)))
  }

  /** Day numbers grow with the date. */
  lemma LaterDateLaterDay(a: Civil, b: Civil)
    requires IsCivil(a) && IsCivil(b) && Before(a, b)
    ensures DayOf(a) < DayOf(b)
  {
    hide DayFromYear, DayOf, IsLeap;
    DayWithinYear(a);
    DayWithinYear(b);
    if a.year + 1 < b.year {
      YearsIncrease(a.year + 1, b.year);
    } else if a.year == b.year && a.month < b.month - 1 {
      MonthsIncrease(a.month, b.month - 1, IsLeap(a.year));
    }
  }

  /** A day number names one date, and the date gives the day number back. */
  lemma CivilFromDayIsRight(d: int)
    ensures DayOf(CivilFromDay(d)) == d
  {
    DayWithinYear(CivilFromDay(d));
  }

  lemma CivilOfDayOf(c: Civil)
    requires IsCivil(c)
    ensures CivilFromDay(DayOf(c)) == c
  {
    var back := CivilFromDay(DayOf(c));
    CivilFromDayIsRight(DayOf(c));
    if Before(back, c) {
      LaterDateLaterDay(back, c);
    } else if Before(c, back) {
      LaterDateLaterDay(c, back);
    }
  }

  /** Comparing dates and comparing day numbers come to the same. */
  lemma DateOrderIsDayOrder(a: Civil, b: Civil)
    requires IsCivil(a) && IsCivil(b)
    ensures Before(a, b) <==> DayOf(a) < DayOf(b)
  {
    if Before(a, b) {
      LaterDateLaterDay(a, b);
    } else if Before(b, a) {
      LaterDateLaterDay(b, a);
    }
  }
}
