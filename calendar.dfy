/**
 * The proleptic Gregorian calendar as Go's time package uses it: the number
 * of days between 1970-01-01 and a civil date, and back.
 */
module Calendar {

  datatype Date = Date(year: int, month: int, day: int)

  predicate IsLeap(y: int) {
    y % 4 == 0 && (y % 100 != 0 || y % 400 == 0)
  }

  function YearLength(y: int): int {
    if IsLeap(y) then 366 else 365
  }

  /** Go's daysIn: the length of month `m` of year `y`. */
  function DaysIn(m: int, y: int): int
    requires 1 <= m <= 12
  {
    if m == 2 then (if IsLeap(y) then 29 else 28)
    else if m == 4 || m == 6 || m == 9 || m == 11 then 30
    else 31
  }

  /** Days of year `y` that come before the first of month `m` (m == 13: the whole year). */
  function DaysBeforeMonth(m: int, y: int): int
    requires 1 <= m <= 13
  {
    var leap := if m > 2 && IsLeap(y) then 1 else 0;
    leap + (
      if m == 1 then 0 else if m == 2 then 31 else if m == 3 then 59
      else if m == 4 then 90 else if m == 5 then 120 else if m == 6 then 151
      else if m == 7 then 181 else if m == 8 then 212 else if m == 9 then 243
      else if m == 10 then 273 else if m == 11 then 304 else if m == 12 then 334
      else 365)
  }

  predicate ValidDate(d: Date) {
    1 <= d.month <= 12 && 1 <= d.day <= DaysIn(d.month, d.year)
  }

  /** Number of leap years in the years before `y`, counted from a fixed origin. */
  function LeapsBefore(y: int): int {
    (y - 1) / 4 - (y - 1) / 100 + (y - 1) / 400
  }

  /** Day number (days since 1970-01-01) of the first of January of year `y`. */
  function DaysBeforeYear(y: int): int {
    365 * (y - 1970) + LeapsBefore(y) - LeapsBefore(1970)
  }

  function DaysFromCivil(d: Date): int
    requires 1 <= d.month <= 12
  {
    DaysBeforeYear(d.year) + DaysBeforeMonth(d.month, d.year) + d.day - 1
  }

  lemma DivStep4(y: int)
    ensures y / 4 - (y - 1) / 4 == if y % 4 == 0 then 1 else 0
  {
  }

  lemma DivStep100(y: int)
    ensures y / 100 - (y - 1) / 100 == if y % 100 == 0 then 1 else 0
  {
  }

  lemma DivStep400(y: int)
    ensures y / 400 - (y - 1) / 400 == if y % 400 == 0 then 1 else 0
  {
  }

  /** Consecutive years are exactly one year length apart. */
  lemma YearStep(y: int)
    ensures DaysBeforeYear(y + 1) == DaysBeforeYear(y) + YearLength(y)
  {
    DivStep4(y);
    DivStep100(y);
    DivStep400(y);
  }

  /** Years are ordered as their first days are. */
  lemma {:induction false} YearMonotone(a: int, b: int)
    requires a < b
    ensures DaysBeforeYear(a + 1) <= DaysBeforeYear(b)
    decreases b - a
  {
    if a + 1 < b {
      YearMonotone(a, b - 1);
      YearStep(b - 1);
    }
  }

  function YearUp(days: int, y: int): (r: int)
    requires DaysBeforeYear(y) <= days
    ensures DaysBeforeYear(r) <= days < DaysBeforeYear(r + 1)
    decreases days - DaysBeforeYear(y)
  {
    YearStep(y);
    if days < DaysBeforeYear(y + 1) then y else YearUp(days, y + 1)
  }

  function YearDown(days: int, y: int): (r: int)
    requires days < DaysBeforeYear(y + 1)
    ensures DaysBeforeYear(r) <= days < DaysBeforeYear(r + 1)
    decreases DaysBeforeYear(y + 1) - days
  {
    YearStep(y);
    if DaysBeforeYear(y) <= days then y else YearDown(days, y - 1)
  }

  /** The year whose days contain day number `days`. */
  function YearOf(days: int): (r: int)
    ensures DaysBeforeYear(r) <= days < DaysBeforeYear(r + 1)
  {
    if days >= 0 then YearUp(days, 1970) else (YearStep(1969); YearDown(days, 1969))
  }

  /** The month of year `y` that contains day `doy` of that year (0-based). */
  function MonthOf(doy: int, y: int, m: int): (r: int)
    requires 1 <= m <= 12 && DaysBeforeMonth(m, y) <= doy < YearLength(y)
    ensures m <= r <= 12 && DaysBeforeMonth(r, y) <= doy < DaysBeforeMonth(r + 1, y)
    decreases 12 - m
  {
    if m == 12 || doy < DaysBeforeMonth(m + 1, y) then m else MonthOf(doy, y, m + 1)
  }

  /** The civil date of day number `days`. */
  function CivilFromDays(days: int): (d: Date)
    ensures ValidDate(d) && DaysFromCivil(d) == days
  {
    var y := YearOf(days);
    YearStep(y);
    var doy := days - DaysBeforeYear(y);
    var m := MonthOf(doy, y, 1);
    MonthStep(m, y);
    Date(y, m, doy - DaysBeforeMonth(m, y) + 1)
  }

  /** Each month starts where the previous one ends. */
  lemma MonthStep(m: int, y: int)
    requires 1 <= m <= 12
    ensures DaysBeforeMonth(m + 1, y) == DaysBeforeMonth(m, y) + DaysIn(m, y)
  {
  }

  lemma MonthsOrdered(a: int, b: int, y: int)
    requires 1 <= a < b <= 13
    ensures DaysBeforeMonth(a + 1, y) <= DaysBeforeMonth(b, y)
  {
  }

  /** A valid date falls inside its year and its month. */
  lemma DateWithin(d: Date)
    requires ValidDate(d)
    ensures DaysBeforeYear(d.year) <= DaysFromCivil(d) < DaysBeforeYear(d.year + 1)
    ensures DaysBeforeMonth(d.month, d.year) <= DaysFromCivil(d) - DaysBeforeYear(d.year) < DaysBeforeMonth(d.month + 1, d.year)
  {
    YearStep(d.year);
    MonthStep(d.month, d.year);
    MonthsOrdered(d.month, 13, d.year);
  }

  /** Distinct valid dates have distinct day numbers. */
  lemma DaysFromCivilInjective(d: Date, e: Date)
    requires ValidDate(d) && ValidDate(e) && DaysFromCivil(d) == DaysFromCivil(e)
    ensures d == e
  {
    DateWithin(d);
    DateWithin(e);
    if d.year < e.year {
      YearMonotone(d.year, e.year);
    } else if e.year < d.year {
      YearMonotone(e.year, d.year);
    }
    if d.month < e.month {
      MonthsOrdered(d.month, e.month, d.year);
    } else if e.month < d.month {
      MonthsOrdered(e.month, d.month, d.year);
    }
  }

  /** The day number of a valid date determines the date: reading it back gives the same date. */
  lemma CivilRoundTrip(d: Date)
    requires ValidDate(d)
    ensures CivilFromDays(DaysFromCivil(d)) == d
  {
    DaysFromCivilInjective(d, CivilFromDays(DaysFromCivil(d)));
  }
}
