// Proleptic Gregorian calendar dates, as Python's `datetime.date` counts them,
// with a day ordinal so that "n days before/after" can be stated exactly.
module Calendar {
  import opened Strings

  datatype Date = Date(year: int, month: int, day: int)

  predicate IsLeapYear(y: int)
  {
    y % 4 == 0 && (y % 100 != 0 || y % 400 == 0)
  }

  function DaysInMonth(y: int, m: int): (r: int)
    ensures 28 <= r <= 31
  {
    if m == 2 then (if IsLeapYear(y) then 29 else 28)
    else if m == 4 || m == 6 || m == 9 || m == 11 then 30
    else 31
  }

  function DaysInYear(y: int): int
  {
    if IsLeapYear(y) then 366 else 365
  }

  predicate ValidDate(d: Date)
  {
    1 <= d.month <= 12 && 1 <= d.day <= DaysInMonth(d.year, d.month)
  }

  /** A day that exists in the calendar. */
  type CalendarDate = d: Date | ValidDate(d) witness Date(1970, 1, 1)

  /** The number of days in the years before `y`, counted from 1 January of year 1. */
  function DaysBeforeYear(y: int): int
  {
    var p := y - 1;
    365 * p + p / 4 - p / 100 + p / 400
  }

  /** The number of days in the months of year `y` before month `m`. */
  function DaysBeforeMonth(y: int, m: int): int
    requires 1 <= m <= 13
    decreases m
  {
    if m == 1 then 0 else DaysBeforeMonth(y, m - 1) + DaysInMonth(y, m - 1)
  }

  /** The ordinal of a date: consecutive days have consecutive ordinals. */
  function DayIndex(d: Date): int
    requires ValidDate(d)
  {
    DaysBeforeYear(d.year) + DaysBeforeMonth(d.year, d.month) + d.day - 1
  }

  /** Chronological order on dates. */
  predicate Before(a: Date, b: Date)
  {
    a.year < b.year || (a.year == b.year && (a.month < b.month || (a.month == b.month && a.day < b.day)))
  }

  /** `str(d)` for a date: 'YYYY-MM-DD'. */
  function IsoFormat(d: CalendarDate): string
  {
    (if d.year >= 0 then ZeroPad(d.year, 4) else IntToString(d.year)) + "-" +
    ZeroPad(d.month, 2) + "-" + ZeroPad(d.day, 2)
  }

  function FirstOfMonth(d: Date): Date
  {
    Date(d.year, d.month, 1)
  }

  function LastOfMonth(d: Date): Date
  {
    Date(d.year, d.month, DaysInMonth(d.year, d.month))
  }

  // ---------------------------------------------------------------------
  // Properties of the ordinal

  lemma DaysBeforeYearStep(y: int)
    ensures DaysBeforeYear(y + 1) == DaysBeforeYear(y) + DaysInYear(y)
  {
    var p := y - 1;
    DivStep(p, 4);
    DivStep(p, 100);
    DivStep(p, 400);
  }

  /** Incrementing a dividend raises the Euclidean quotient exactly when it reaches a multiple. */
  lemma DivStep(p: int, k: int)
    requires k == 4 || k == 100 || k == 400
    ensures (p + 1) / k == p / k + (if (p + 1) % k == 0 then 1 else 0)
  {
    if k == 4 {
      assert (p + 1) / 4 == p / 4 + (if (p + 1) % 4 == 0 then 1 else 0);
    } else if k == 100 {
      assert (p + 1) / 100 == p / 100 + (if (p + 1) % 100 == 0 then 1 else 0);
    } else {
      assert (p + 1) / 400 == p / 400 + (if (p + 1) % 400 == 0 then 1 else 0);
    }
  }

  lemma DaysBeforeDecember(y: int)
    ensures DaysBeforeMonth(y, 12) + 31 == DaysInYear(y)
  {
    assert DaysBeforeMonth(y, 3) == 31 + DaysInMonth(y, 2);
  }

  /** The day after the last of December is 1 January of the next year. */
  lemma NewYear(y: int)
    ensures DayIndex(Date(y + 1, 1, 1)) == DayIndex(Date(y, 12, 31)) + 1
  {
    DaysBeforeYearStep(y);
    DaysBeforeDecember(y);
  }

  /** The day after the last of a month other than December is the 1st of the next month. */
  lemma NewMonth(y: int, m: int)
    requires 1 <= m < 12
    ensures DayIndex(Date(y, m + 1, 1)) == DayIndex(Date(y, m, DaysInMonth(y, m))) + 1
  {
  }
}
