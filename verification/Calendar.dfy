/** The proleptic Gregorian calendar on day numbers counted from 1970-01-01, as Date.UTC and
    the Intl calendar fields read it. A month is one integer, 12 * year + (month - 1). */
module Calendar {

  const DAY_MS: int := 86_400_000

  predicate IsLeap(year: int) {
    year % 4 == 0 && (year % 100 != 0 || year % 400 == 0)
  }

  /** Leap years among the years 1 .. year - 1; Dafny's division floors for a positive divisor. */
  function LeapsBefore(year: int): int {
    (year - 1) / 4 - (year - 1) / 100 + (year - 1) / 400
  }

  function YearStartDay(year: int): int {
    365 * (year - 1970) + LeapsBefore(year) - LeapsBefore(1970)
  }

  function DaysInMonth(year: int, month0: int): int
    requires 0 <= month0 < 12
  {
    if month0 == 1 then (if IsLeap(year) then 29 else 28)
    else if month0 in {3, 5, 8, 10} then 30
    else 31
  }

  /** Days of the year before month `month0` (0 is January). */
  function DaysBeforeMonth(year: int, month0: int): int
    requires 0 <= month0 <= 12
  {
    if month0 == 0 then 0 else DaysBeforeMonth(year, month0 - 1) + DaysInMonth(year, month0 - 1)
  }

  /** Day number of the first day of a month: Date.UTC(year, month0, 1) / DAY_MS. */
  function MonthStartDay(mi: int): int {
    YearStartDay(mi / 12) + DaysBeforeMonth(mi / 12, mi % 12)
  }

  function YearLengthOf(year: int): int {
    if IsLeap(year) then 366 else 365
  }

  lemma YearLength(year: int)
    ensures YearStartDay(year + 1) - YearStartDay(year) == YearLengthOf(year)
  {
    HundredsPassed(year);
    FourHundredsPassed(year);
    MultiplesNest(year);
  }

  lemma HundredsPassed(year: int)
    ensures (year / 100) - (year - 1) / 100 == if year % 100 == 0 then 1 else 0
  {
  }

  lemma FourHundredsPassed(year: int)
    ensures (year / 400) - (year - 1) / 400 == if year % 400 == 0 then 1 else 0
  {
  }

  lemma MultiplesNest(year: int)
    ensures year % 400 == 0 ==> year % 100 == 0
    ensures year % 100 == 0 ==> year % 4 == 0
  {
  }

  lemma TwelveMonths(year: int)
    ensures DaysBeforeMonth(year, 12) == YearLengthOf(year)
  {
    var leap := if IsLeap(year) then 1 else 0;
    assert DaysBeforeMonth(year, 1) == 31;
    assert DaysBeforeMonth(year, 2) == 59 + leap;
    assert DaysBeforeMonth(year, 3) == 90 + leap;
    assert DaysBeforeMonth(year, 4) == 120 + leap;
    assert DaysBeforeMonth(year, 5) == 151 + leap;
    assert DaysBeforeMonth(year, 6) == 181 + leap;
    assert DaysBeforeMonth(year, 7) == 212 + leap;
    assert DaysBeforeMonth(year, 8) == 243 + leap;
    assert DaysBeforeMonth(year, 9) == 273 + leap;
    assert DaysBeforeMonth(year, 10) == 304 + leap;
    assert DaysBeforeMonth(year, 11) == 334 + leap;
  }

  /** The leap-year formula and the month lengths describe the same calendar. */
  lemma MonthLength(mi: int)
    ensures MonthStartDay(mi + 1) - MonthStartDay(mi) == DaysInMonth(mi / 12, mi % 12)
    ensures 28 <= MonthStartDay(mi + 1) - MonthStartDay(mi) <= 31
  {
    YearLength(mi / 12);
    TwelveMonths(mi / 12);
    if mi % 12 == 11 {
      assert (mi + 1) / 12 == mi / 12 + 1 && (mi + 1) % 12 == 0;
    } else {
      assert (mi + 1) / 12 == mi / 12 && (mi + 1) % 12 == mi % 12 + 1;
    }
  }

  lemma {:induction false} MonthStartsSpread(a: int, b: int)
    requires a <= b
    ensures MonthStartDay(b) - MonthStartDay(a) >= 28 * (b - a)
    decreases b - a
  {
    if a < b {
      MonthStartsSpread(a, b - 1);
      MonthLength(b - 1);
    }
  }

  function MonthSearch(day: int, mi: int): (r: int)
    ensures MonthStartDay(r) <= day < MonthStartDay(r + 1)
    decreases day < MonthStartDay(mi),
              if day < MonthStartDay(mi) then MonthStartDay(mi) - day else day - MonthStartDay(mi)
  {
    MonthLength(mi - 1);
    MonthLength(mi);
    if day < MonthStartDay(mi) then MonthSearch(day, mi - 1)
    else if day >= MonthStartDay(mi + 1) then MonthSearch(day, mi + 1)
    else mi
  }

  /** The calendar month a day belongs to, found by stepping from January 1970. */
  function MonthOf(day: int): (mi: int)
    ensures MonthStartDay(mi) <= day < MonthStartDay(mi + 1)
  {
    MonthSearch(day, 12 * 1970)
  }

  /** Months cut the day line: a day is at or after the first of month `mi` iff its own month is. */
  lemma MonthSplit(day: int, mi: int)
    ensures day >= MonthStartDay(mi) <==> MonthOf(day) >= mi
  {
    var m := MonthOf(day);
    if m >= mi {
      MonthStartsSpread(mi, m);
    } else {
      MonthStartsSpread(m + 1, mi);
    }
  }

  /** Day 0 opens January 1970. */
  lemma EpochMonth()
    ensures MonthStartDay(12 * 1970) == 0
  {
    assert YearStartDay(1970) == 0;
    assert DaysBeforeMonth(1970, 0) == 0;
  }
}
