/** Civil dates with the month arithmetic of Ruby's Date#>>: the day is kept when the target month has it and
    otherwise becomes the last day of that month. */
module Calendar {

  datatype Date = Date(year: int, month: int, day: int)

  predicate Leap(year: int) {
    year % 4 == 0 && (year % 100 != 0 || year % 400 == 0)
  }

  function DaysInMonth(year: int, month: int): int {
    if month == 2 then (if Leap(year) then 29 else 28)
    else if month in {4, 6, 9, 11} then 30
    else 31
  }

  // ---------------------------------------------------------------- the calendar, counted another way

  /** The days of the Gregorian calendar before a year. */
  function DaysBefore(year: int): int {
    365 * (year - 1) + (year - 1) / 4 - (year - 1) / 100 + (year - 1) / 400
  }

  /** The days from the first of March to the first of a later month, counted from 0. */
  function DaysFromMarch(month: nat): nat {
    (153 * month + 2) / 5
  }

  function DaysOfYear(year: int, months: nat): int
    requires months <= 12
  {
    if months == 0 then 0 else DaysOfYear(year, months - 1) + DaysInMonth(year, months)
  }

  lemma {:induction false} WholeYear(year: int)
    ensures DaysOfYear(year, 12) == if Leap(year) then 366 else 365
  {
    var february := if Leap(year) then 29 else 28;
    assert DaysOfYear(year, 1) == 31;
    assert DaysOfYear(year, 2) == 31 + february;
    assert DaysOfYear(year, 4) == DaysOfYear(year, 2) + 61;
    assert DaysOfYear(year, 6) == DaysOfYear(year, 4) + 61;
    assert DaysOfYear(year, 8) == DaysOfYear(year, 6) + 62;
    assert DaysOfYear(year, 10) == DaysOfYear(year, 8) + 61;
  }

  lemma {:induction false} FourthYears(year: int)
    ensures year / 4 - (year - 1) / 4 == if year % 4 == 0 then 1 else 0
  {
  }

  lemma {:induction false} Centuries(year: int)
    ensures year / 100 - (year - 1) / 100 == if year % 100 == 0 then 1 else 0
  {
    var q, r := year / 100, year % 100;
    assert year - 1 == if r == 0 then 100 * (q - 1) + 99 else 100 * q + (r - 1);
  }

  lemma {:induction false} FourthCenturies(year: int)
    ensures year / 400 - (year - 1) / 400 == if year % 400 == 0 then 1 else 0
  {
    var q, r := year / 400, year % 400;
    assert year - 1 == if r == 0 then 400 * (q - 1) + 399 else 400 * q + (r - 1);
  }

  lemma {:induction false} CenturiesAreFourthYears(q: int, year: int)
    requires year == 4 * (25 * q)
    ensures year % 4 == 0
  {
  }

  lemma {:induction false} FourthCenturiesAreCenturies(q: int, year: int)
    requires year == 100 * (4 * q)
    ensures year % 100 == 0
  {
  }

  lemma {:induction false} LeapDays(year: int)
    ensures DaysBefore(year + 1) - DaysBefore(year) == if Leap(year) then 366 else 365
  {
    FourthYears(year);
    Centuries(year);
    FourthCenturies(year);
    if year % 100 == 0 {
      CenturiesAreFourthYears(year / 100, year);
    }
    if year % 400 == 0 {
      FourthCenturiesAreCenturies(year / 400, year);
    }
  }

  /** The months have the lengths of the Gregorian calendar: from March on by the rule of five months in 153 days, and
      altogether by the leap years of four centuries. */
  lemma {:induction false} GregorianMonths(year: int, month: int)
    requires 1 <= month <= 12
    ensures month != 2 ==>
      var m := if month > 2 then month - 3 else month + 9;
      DaysInMonth(year, month) == DaysFromMarch(m + 1) - DaysFromMarch(m)
    ensures DaysOfYear(year, 12) == DaysBefore(year + 1) - DaysBefore(year)
  {
    WholeYear(year);
    LeapDays(year);
  }

  predicate ValidDate(d: Date) {
    1 <= d.month <= 12 && 1 <= d.day <= DaysInMonth(d.year, d.month)
  }

  predicate Before(a: Date, b: Date) {
    a.year < b.year || (a.year == b.year && (a.month < b.month || (a.month == b.month && a.day < b.day)))
  }

  /** Months since year 0. */
  function MonthIndex(d: Date): int {
    12 * d.year + d.month - 1
  }

  function AddMonths(d: Date, n: int): (r: Date)
    requires ValidDate(d)
    ensures ValidDate(r)
    ensures MonthIndex(r) == MonthIndex(d) + n
    ensures r.day <= d.day
    ensures r.day == d.day || r.day == DaysInMonth(r.year, r.month)
  {
    var index := MonthIndex(d) + n;
    var year, month := index / 12, index % 12 + 1;
    Date(year, month, if d.day <= DaysInMonth(year, month) then d.day else DaysInMonth(year, month))
  }

  lemma LaterMonthIsLater(a: Date, b: Date)
    requires ValidDate(a) && ValidDate(b)
    requires MonthIndex(a) < MonthIndex(b)
    ensures Before(a, b)
  {
  }

  /** Adding more months always gives a later day, in spite of the clamping at month ends. */
  lemma AddMonthsIncreasing(d: Date, m: int, n: int)
    requires ValidDate(d) && m < n
    ensures Before(AddMonths(d, m), AddMonths(d, n))
  {
    LaterMonthIsLater(AddMonths(d, m), AddMonths(d, n));
  }

  lemma AddZeroMonths(d: Date)
    requires ValidDate(d)
    ensures AddMonths(d, 0) == d
  {
  }
}
