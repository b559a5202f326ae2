/**
 Calendar days as the dashboard sees them after `pd.to_datetime`: a proleptic
 Gregorian (year, month, day) triple. The `.dt.year`, `.dt.month` and `.dt.day`
 accessors of the dashboard are the three fields of `Date`.

 A triple is a valid timestamp when it is a real calendar day and lies inside
 the range that pandas' nanosecond timestamps can represent; `pd.to_datetime`
 raises on anything else. Dates are ordered lexicographically, which for valid
 dates is the chronological order (`BeforeIsChronological`).
 */
module Calendar {

  datatype Date = Date(year: int, month: int, day: int)

  /** The earliest and latest whole days a nanosecond pandas timestamp can hold
      (its minimum is 1677-09-21 00:12:43, so midnight of that day is out of range). */
  const MIN_TIMESTAMP_DATE := Date(1677, 9, 22)
  const MAX_TIMESTAMP_DATE := Date(2262, 4, 11)

  predicate IsLeapYear(y: int) {
    y % 4 == 0 && (y % 100 != 0 || y % 400 == 0)
  }

  function DaysInYear(y: int): (n: int)
    ensures n == 365 || n == 366
    ensures n == 366 <==> IsLeapYear(y)
  {
    if IsLeapYear(y) then 366 else 365
  }

  function DaysInMonth(y: int, m: int): (n: int)
    requires 1 <= m <= 12
    ensures 28 <= n <= 31
    ensures m == 2 ==> (n == 29 <==> IsLeapYear(y))
    ensures m != 2 ==> 30 <= n
  {
    if m == 2 then (if IsLeapYear(y) then 29 else 28)
    else if m == 4 || m == 6 || m == 9 || m == 11 then 30
    else 31
  }

  /** `a` is strictly earlier than `b`: compare years, then months, then days. */
  predicate Before(a: Date, b: Date) {
    || a.year < b.year
    || (a.year == b.year && a.month < b.month)
    || (a.year == b.year && a.month == b.month && a.day < b.day)
  }

  predicate IsCalendarDate(d: Date) {
    1 <= d.month <= 12 && 1 <= d.day <= DaysInMonth(d.year, d.month)
  }

  /** What `pd.to_datetime` accepts: a calendar day inside the timestamp range. */
  predicate IsValid(d: Date) {
    && IsCalendarDate(d)
    && !Before(d, MIN_TIMESTAMP_DATE)
    && !Before(MAX_TIMESTAMP_DATE, d)
  }

  /** The derived `Month` and `Day` columns of a valid date lie in the ranges the
      dashboard offers as month and day options (1..12 and 1..31). */
  lemma ValidComponents(d: Date)
    requires IsValid(d)
    ensures 1 <= d.month <= 12 && 1 <= d.day <= 31
    ensures 1677 <= d.year <= 2262
  {
  }

  /** `Before` is a strict total order on all triples. */
  lemma BeforeIsStrictTotalOrder(a: Date, b: Date, c: Date)
    ensures !Before(a, a)
    ensures Before(a, b) ==> !Before(b, a)
    ensures Before(a, b) && Before(b, c) ==> Before(a, c)
    ensures a != b ==> Before(a, b) || Before(b, a)
  {
  }

  // ---------------------------------------------------------------------
  // Day ordinals: the number of the day counted from 0001-01-01 (day 1).
  // Timestamps sort by their distance from an epoch, that is by ordinal.

  function DaysBeforeYear(y: int): (n: nat)
    decreases y
  {
    if y <= 1 then 0 else DaysBeforeYear(y - 1) + DaysInYear(y - 1)
  }

  function DaysBeforeMonth(y: int, m: int): (n: nat)
    requires 1 <= m <= 13
    decreases m
  {
    if m == 1 then 0 else DaysBeforeMonth(y, m - 1) + DaysInMonth(y, m - 1)
  }

  function Ordinal(d: Date): (n: int)
    requires IsValid(d)
    ensures n >= 1
  {
    DaysBeforeYear(d.year) + DaysBeforeMonth(d.year, d.month) + d.day
  }

  lemma {:induction false} DaysBeforeMonthGrows(y: int, m1: int, m2: int)
    requires 1 <= m1 < m2 <= 13
    ensures DaysBeforeMonth(y, m1) + DaysInMonth(y, m1) <= DaysBeforeMonth(y, m2)
    decreases m2
  {
    if m1 + 1 < m2 {
      DaysBeforeMonthGrows(y, m1, m2 - 1);
    }
  }

  lemma YearLength(y: int)
    ensures DaysBeforeMonth(y, 13) == DaysInYear(y)
  {
    assert DaysBeforeMonth(y, 3) == 31 + DaysInMonth(y, 2);
    assert DaysBeforeMonth(y, 7) == DaysBeforeMonth(y, 3) + 31 + 30 + 31 + 30;
    assert DaysBeforeMonth(y, 13) == DaysBeforeMonth(y, 7) + 31 + 31 + 30 + 31 + 30 + 31;
  }

  lemma {:induction false} DaysBeforeYearGrows(y1: int, y2: int)
    requires 1 <= y1 < y2
    ensures DaysBeforeYear(y1) + DaysInYear(y1) <= DaysBeforeYear(y2)
    decreases y2
  {
    if y1 + 1 < y2 {
      DaysBeforeYearGrows(y1, y2 - 1);
    }
  }

  /** A day's position within its year is at most the length of that year. */
  lemma DayWithinYear(d: Date)
    requires IsCalendarDate(d)
    ensures DaysBeforeMonth(d.year, d.month) + d.day <= DaysInYear(d.year)
  {
    if d.month < 12 {
      DaysBeforeMonthGrows(d.year, d.month, 13);
    }
    YearLength(d.year);
  }

  lemma OrdinalIncreases(a: Date, b: Date)
    requires IsValid(a) && IsValid(b) && Before(a, b)
    ensures Ordinal(a) < Ordinal(b)
  {
    if a.year < b.year {
      DayWithinYear(a);
      DaysBeforeYearGrows(a.year, b.year);
    } else if a.month < b.month {
      DaysBeforeMonthGrows(a.year, a.month, b.month);
    }
  }

  /** For valid dates the lexicographic order used to sort the summary is the
      chronological one, and two valid dates are the same day exactly when
      their ordinals agree. */
  lemma BeforeIsChronological(a: Date, b: Date)
    requires IsValid(a) && IsValid(b)
    ensures Before(a, b) <==> Ordinal(a) < Ordinal(b)
    ensures a == b <==> Ordinal(a) == Ordinal(b)
  {
    if Before(a, b) {
      OrdinalIncreases(a, b);
    } else if Before(b, a) {
      OrdinalIncreases(b, a);
    }
  }
}
