/** Proleptic Gregorian calendar dates, as Python's `datetime(year, month, day)`
    accepts them, and their day ordinal (`date.toordinal()`, with 0001-01-01 as
    day 1).  The day limits per month are those of section 5.7 of RFC 3339. */
module Calendar {

  datatype Date = Date(year: int, month: int, day: int)

  const MinYear: int := 1
  const MaxYear: int := 9999

  predicate IsLeapYear(y: int) {
    y % 4 == 0 && (y % 100 != 0 || y % 400 == 0)
  }

  function DaysInMonth(y: int, m: int): int
    requires 1 <= m <= 12
  {
    if m == 2 then (if IsLeapYear(y) then 29 else 28)
    else if m == 4 || m == 6 || m == 9 || m == 11 then 30
    else 31
  }

  function DaysInYear(y: int): int {
    if IsLeapYear(y) then 366 else 365
  }

  /** What `datetime(y, m, d)` accepts without raising `ValueError`. */
  predicate IsValidDate(d: Date) {
    MinYear <= d.year <= MaxYear && 1 <= d.month <= 12 && 1 <= d.day <= DaysInMonth(d.year, d.month)
  }

  /** Days in the years before `y`. */
  function DaysBeforeYear(y: int): int
    requires y >= 1
  {
    var p := y - 1;
    365 * p + p / 4 - p / 100 + p / 400
  }

  /** Days in the months of year `y` before month `m` (`m == 13` gives the whole year). */
  function DaysBeforeMonth(y: int, m: int): int
    requires 1 <= m <= 13
  {
    [0, 31, 59, 90, 120, 151, 181, 212, 243, 273, 304, 334, 365][m - 1]
      + (if m > 2 && IsLeapYear(y) then 1 else 0)
  }

  /** The day number of a valid date. */
  function Ordinal(d: Date): int
    requires IsValidDate(d)
  {
    DaysBeforeYear(d.year) + DaysBeforeMonth(d.year, d.month) + d.day
  }

  /** The calendar day after `d`. */
  function NextDay(d: Date): Date
    requires IsValidDate(d)
  {
    if d.day < DaysInMonth(d.year, d.month) then Date(d.year, d.month, d.day + 1)
    else if d.month < 12 then Date(d.year, d.month + 1, 1)
    else Date(d.year + 1, 1, 1)
  }

  lemma MonthStep(y: int, m: int)
    requires 1 <= m <= 12
    ensures DaysBeforeMonth(y, m + 1) == DaysBeforeMonth(y, m) + DaysInMonth(y, m)
  {
  }

  lemma YearStep(y: int)
    requires y >= 1
    ensures DaysBeforeYear(y + 1) == DaysBeforeYear(y) + DaysInYear(y)
  {
    var p := y - 1;
    assert y / 4 == p / 4 + (if y % 4 == 0 then 1 else 0);
    assert y / 100 == p / 100 + (if y % 100 == 0 then 1 else 0);
    assert y / 400 == p / 400 + (if y % 400 == 0 then 1 else 0);
  }

  /** The ordinal counts days: the first supported day is day 1. */
  lemma OrdinalOfFirstDay()
    ensures IsValidDate(Date(MinYear, 1, 1)) && Ordinal(Date(MinYear, 1, 1)) == 1
  {
  }

  /** The ordinal counts days: the next calendar day has the next ordinal, so the
      difference of two ordinals is the number of whole days between the dates. */
  lemma NextDayOrdinal(d: Date)
    requires IsValidDate(d) && d != Date(MaxYear, 12, 31)
    ensures IsValidDate(NextDay(d))
    ensures Ordinal(NextDay(d)) == Ordinal(d) + 1
  {
    if d.day < DaysInMonth(d.year, d.month) {
    } else if d.month < 12 {
      MonthStep(d.year, d.month);
    } else {
      YearStep(d.year);
    }
  }

  /** Every valid date falls inside its own year's range of ordinals, so dates of
      different years never share an ordinal. */
  lemma OrdinalWithinYear(d: Date)
    requires IsValidDate(d)
    ensures DaysBeforeYear(d.year) < Ordinal(d) <= DaysBeforeYear(d.year + 1)
  {
    MonthStep(d.year, d.month);
    YearStep(d.year);
  }

  /** Leap days exist only in leap years of the Gregorian rule, and there is no year 0. */
  lemma LeapDays()
    ensures IsValidDate(Date(2024, 2, 29)) && IsValidDate(Date(2000, 2, 29))
    ensures !IsValidDate(Date(2023, 2, 29)) && !IsValidDate(Date(1900, 2, 29))
    ensures !IsValidDate(Date(0, 1, 1)) && !IsValidDate(Date(2025, 13, 1)) && !IsValidDate(Date(2025, 4, 31))
  {
  }

  /** Calendar order: earlier year, or same year and earlier month, or same
      month and earlier day. */
  predicate Before(d1: Date, d2: Date) {
    d1.year < d2.year
    || (d1.year == d2.year && (d1.month < d2.month || (d1.month == d2.month && d1.day < d2.day)))
  }

  lemma {:induction false} DaysBeforeYearGrows(a: int, b: int)
    requires 1 <= a <= b
    ensures DaysBeforeYear(a) <= DaysBeforeYear(b)
    decreases b - a
  {
    if a < b {
      YearStep(a);
      DaysBeforeYearGrows(a + 1, b);
    }
  }

  lemma {:induction false} DaysBeforeMonthGrows(y: int, a: int, b: int)
    requires 1 <= a <= b <= 13
    ensures DaysBeforeMonth(y, a) <= DaysBeforeMonth(y, b)
    decreases b - a
  {
    if a < b {
      MonthStep(y, a);
      DaysBeforeMonthGrows(y, a + 1, b);
    }
  }

  /** Ordinals follow calendar order in both directions, so the ordinal
      difference of two dates is positive exactly when the first is later. */
  lemma OrdinalRespectsOrder(d1: Date, d2: Date)
    requires IsValidDate(d1) && IsValidDate(d2)
    ensures Before(d1, d2) <==> Ordinal(d1) < Ordinal(d2)
    ensures d1 == d2 <==> Ordinal(d1) == Ordinal(d2)
  {
    OrdinalWithinYear(d1);
    OrdinalWithinYear(d2);
    if d1.year < d2.year {
      DaysBeforeYearGrows(d1.year + 1, d2.year);
    } else if d2.year < d1.year {
      DaysBeforeYearGrows(d2.year + 1, d1.year);
    } else if d1.month < d2.month {
      MonthStep(d1.year, d1.month);
      DaysBeforeMonthGrows(d1.year, d1.month + 1, d2.month);
    } else if d2.month < d1.month {
      MonthStep(d2.year, d2.month);
      DaysBeforeMonthGrows(d2.year, d2.month + 1, d1.month);
    }
  }
}
