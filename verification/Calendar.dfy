/** The proleptic Gregorian calendar that time.Time prints: day counts to dates and back. */
module Calendar {
  datatype Date = Date(year: int, month: int, day: int)

  predicate IsLeap(year: int) {
    year % 4 == 0 && (year % 100 != 0 || year % 400 == 0)
  }

  function DaysIn(month: int, leap: bool): (d: int)
    requires 1 <= month <= 12
    ensures 28 <= d <= 31
  {
    if month == 2 then if leap then 29 else 28
    else if month == 4 || month == 6 || month == 9 || month == 11 then 30
    else 31
  }

  function YearLength(year: int): (d: int)
    ensures 365 <= d <= 366
  {
    if IsLeap(year) then 366 else 365
  }

  /** Days from 0001-01-01 to the first day of a year; negative before year 1. */
  function DaysBeforeYear(year: int): int
    decreases if year >= 1 then year - 1 else 1 - year
  {
    if year == 1 then 0
    else if year > 1 then DaysBeforeYear(year - 1) + YearLength(year - 1)
    else DaysBeforeYear(year + 1) - YearLength(year)
  }

  /** Days of the year before the first of a month; month 13 gives the length of the year. */
  function DaysBeforeMonth(month: int, leap: bool): (d: int)
    requires 1 <= month <= 13
    ensures 28 * (month - 1) <= d <= 31 * (month - 1)
    ensures month == 13 ==> d == if leap then 366 else 365
  {
    [0, 31, 59, 90, 120, 151, 181, 212, 243, 273, 304, 334, 365][month - 1]
    + if leap && month > 2 then 1 else 0
  }

  lemma MonthLengths(month: int, leap: bool)
    requires 1 <= month <= 12
    ensures DaysBeforeMonth(month + 1, leap) == DaysBeforeMonth(month, leap) + DaysIn(month, leap)
  {
  }

  lemma NextYear(year: int)
    ensures DaysBeforeYear(year + 1) == DaysBeforeYear(year) + YearLength(year)
  {
  }

  lemma {:induction false} YearsGrow(y: int, z: int)
    requires y <= z
    ensures DaysBeforeYear(y) <= DaysBeforeYear(z)
    decreases z - y
  {
    if y < z {
      YearsGrow(y, z - 1);
      NextYear(z - 1);
    }
  }

  /** The year a day falls in, searched for from a given year. */
  function YearFrom(days: int, year: int): (y: int)
    ensures DaysBeforeYear(y) <= days < DaysBeforeYear(y + 1)
    decreases days < DaysBeforeYear(year),
              if days < DaysBeforeYear(year) then DaysBeforeYear(year) - days else days - DaysBeforeYear(year)
  {
    NextYear(year);
    NextYear(year - 1);
    if days < DaysBeforeYear(year) then YearFrom(days, year - 1)
    else if days >= DaysBeforeYear(year + 1) then YearFrom(days, year + 1)
    else year
  }

  function YearOf(days: int): (year: int)
    ensures DaysBeforeYear(year) <= days < DaysBeforeYear(year + 1)
  {
    YearFrom(days, 1)
  }

  function MonthOf(dayOfYear: int, leap: bool): (month: int)
    requires 0 <= dayOfYear < if leap then 366 else 365
    ensures 1 <= month <= 12
    ensures DaysBeforeMonth(month, leap) <= dayOfYear < DaysBeforeMonth(month + 1, leap)
  {
    var d := dayOfYear - if leap then 1 else 0;
    if dayOfYear < 31 then 1 else if d < 59 then 2 else if d < 90 then 3 else if d < 120 then 4
    else if d < 151 then 5 else if d < 181 then 6 else if d < 212 then 7 else if d < 243 then 8
    else if d < 273 then 9 else if d < 304 then 10 else if d < 334 then 11 else 12
  }

  function DateOf(days: int): (date: Date)
    ensures 1 <= date.month <= 12
    ensures 1 <= date.day <= DaysIn(date.month, IsLeap(date.year))
    ensures date.year == YearOf(days)
  {
    var year := YearOf(days);
    NextYear(year);
    var leap := IsLeap(year);
    var dayOfYear := days - DaysBeforeYear(year);
    var month := MonthOf(dayOfYear, leap);
    MonthLengths(month, leap);
    Date(year, month, dayOfYear - DaysBeforeMonth(month, leap) + 1)
  }

  /** The day count of a date, defined for the dates that exist. */
  function DaysOf(date: Date): int
    requires 1 <= date.month <= 12
  {
    DaysBeforeYear(date.year) + DaysBeforeMonth(date.month, IsLeap(date.year)) + date.day - 1
  }

  lemma DaysOfDateOf(days: int)
    ensures DaysOf(DateOf(days)) == days
  {
  }

  /** Year, month, day: the order of the fields from left to right. */
  predicate Earlier(a: Date, b: Date) {
    a.year < b.year || (a.year == b.year && (a.month < b.month || (a.month == b.month && a.day < b.day)))
  }

  /** Dates sort as their day counts do. */
  lemma DateOrder(d: int, e: int)
    requires d < e
    ensures Earlier(DateOf(d), DateOf(e))
  {
    var a, b := DateOf(d), DateOf(e);
    if b.year < a.year {
      YearsGrow(b.year + 1, a.year);
    } else if a.year == b.year && b.month < a.month {
      MonthsGrow(b.month + 1, a.month, IsLeap(a.year));
    }
  }

  lemma MonthsGrow(m: int, n: int, leap: bool)
    requires 1 <= m <= n <= 13
    ensures DaysBeforeMonth(m, leap) <= DaysBeforeMonth(n, leap)
  {
  }

  // ---- the calendar, absolutely ----

  /** How many multiples of d there are up to n grows by one exactly at a multiple. */
  lemma NextMultiple(n: int, d: int)
    requires d == 4 || d == 100 || d == 400
    ensures n / d - (n - 1) / d == if n % d == 0 then 1 else 0
  {
  }

  lemma LeapByMultiples(year: int)
    ensures YearLength(year) == 365 + (if year % 4 == 0 then 1 else 0) - (if year % 100 == 0 then 1 else 0)
                                + (if year % 400 == 0 then 1 else 0)
  {
  }

  /**
   The days before a year in the proleptic Gregorian calendar: 365 for each year since year 1, one
   more for each fourth, less those of the hundredth, with those of the four hundredth.
   */
  lemma {:induction false} DaysBeforeYearExactly(year: int)
    ensures DaysBeforeYear(year) == 365 * (year - 1) + (year - 1) / 4 - (year - 1) / 100 + (year - 1) / 400
    decreases if year >= 1 then year - 1 else 1 - year
  {
    if year == 1 {
    } else {
      var y := if year > 1 then year - 1 else year;
      DaysBeforeYearExactly(if year > 1 then year - 1 else year + 1);
      NextMultiple(y, 4);
      NextMultiple(y, 100);
      NextMultiple(y, 400);
      hide YearLength;
      LeapByMultiples(y);
    }
  }

  /** The days before a month: 31 and 30 in turn, restarting in August, and February shorter by one or two. */
  lemma DaysBeforeMonthExactly(month: int, leap: bool)
    requires 1 <= month <= 13
    ensures DaysBeforeMonth(month, leap)
         == (367 * month - 362) / 12 - (if month <= 2 then 0 else if leap then 1 else 2)
  {
  }

  /** A date that exists is the date of its day count. */
  lemma DateOfDaysOf(date: Date)
    requires 1 <= date.month <= 12 && 1 <= date.day <= DaysIn(date.month, IsLeap(date.year))
    ensures DateOf(DaysOf(date)) == date
  {
    var days, leap := DaysOf(date), IsLeap(date.year);
    MonthLengths(date.month, leap);
    MonthsGrow(1, date.month, leap);
    MonthsGrow(date.month + 1, 13, leap);
    NextYear(date.year);
    var other := DateOf(days);
    if other.year < date.year {
      YearsGrow(other.year + 1, date.year);
    } else if date.year < other.year {
      YearsGrow(date.year + 1, other.year);
    } else {
      DaysOfDateOf(days);
      SameDay(date, other);
    }
  }

  lemma SameDay(a: Date, b: Date)
    requires a.year == b.year && 1 <= a.month <= 12 && 1 <= b.month <= 12
    requires 1 <= a.day <= DaysIn(a.month, IsLeap(a.year)) && 1 <= b.day <= DaysIn(b.month, IsLeap(b.year))
    requires DaysOf(a) == DaysOf(b)
    ensures a == b
  {
    var leap := IsLeap(a.year);
    MonthLengths(a.month, leap);
    MonthLengths(b.month, leap);
    if a.month < b.month {
      MonthsGrow(a.month + 1, b.month, leap);
    } else if b.month < a.month {
      MonthsGrow(b.month + 1, a.month, leap);
    }
  }
}
