/** The part of `System.DateTime` the extractors and the validator use. A date is a day of the
    proleptic Gregorian calendar between 0001-01-01 and 9999-12-31; a `DateTime` is a count of
    100-nanosecond ticks from 0001-01-01 00:00, so every comparison is a comparison of ticks. */
module Calendar {
  import opened Wrappers

  datatype Date = Date(year: int, month: int, day: int)

  /** The time of day `DateTime.Now` reads, as a date and the ticks since its midnight. */
  datatype Instant = Instant(date: Date, timeOfDay: int)

  const TicksPerDay: int := 864_000_000_000

  const MinYear: int := 1
  const MaxYear: int := 9999

  predicate IsLeapYear(y: int) { y % 4 == 0 && (y % 100 != 0 || y % 400 == 0) }

  function DaysInMonth(y: int, m: int): (n: int)
    requires 1 <= m <= 12
    ensures 28 <= n <= 31
    ensures m == 2 ==> (n == 29 <==> IsLeapYear(y))
  {
    if m == 2 then (if IsLeapYear(y) then 29 else 28)
    else if m == 4 || m == 6 || m == 9 || m == 11 then 30
    else 31
  }

  /** A day that `DateTime` can hold. */
  predicate IsValidDate(d: Date) {
    && MinYear <= d.year <= MaxYear
    && 1 <= d.month <= 12
    && 1 <= d.day <= DaysInMonth(d.year, d.month)
  }

  predicate IsValidInstant(i: Instant) { IsValidDate(i.date) && 0 <= i.timeOfDay < TicksPerDay }

  /** The days in years 1 .. y - 1. */
  function DaysBeforeYear(y: int): int
    requires y >= 1
  {
    var p := y - 1;
    365 * p + p / 4 - p / 100 + p / 400
  }

  /** The days before each month of a common year and of a leap year, as `DateTime` keeps
      them; the last entry is the length of the year. */
  const DaysToMonth365: seq<int> := [0, 31, 59, 90, 120, 151, 181, 212, 243, 273, 304, 334, 365]
  const DaysToMonth366: seq<int> := [0, 31, 60, 91, 121, 152, 182, 213, 244, 274, 305, 335, 366]

  /** The days in months 1 .. m - 1 of year y. */
  function DaysBeforeMonth(y: int, m: int): (n: int)
    requires 1 <= m <= 13
    ensures 0 <= n
    ensures n == (if IsLeapYear(y) then DaysToMonth366 else DaysToMonth365)[m - 1]
    decreases m
  {
    if m == 1 then 0 else DaysBeforeMonth(y, m - 1) + DaysInMonth(y, m - 1)
  }

  /** The days from 0001-01-01 to `d`: what `DateTime.Ticks / TicksPerDay` is at midnight. */
  function DayNumber(d: Date): int
    requires IsValidDate(d)
  {
    DaysBeforeYear(d.year) + DaysBeforeMonth(d.year, d.month) + d.day - 1
  }

  /** The ticks of midnight of `d`, the value the date parser returns. */
  function Ticks(d: Date): int
    requires IsValidDate(d)
  {
    DayNumber(d) * TicksPerDay
  }

  function InstantTicks(i: Instant): int
    requires IsValidInstant(i)
  {
    Ticks(i.date) + i.timeOfDay
  }

  /** The last day a `DateTime` can hold. */
  const MaxDate: Date := Date(9999, 12, 31)

  function MaxDayNumber(): int { DayNumber(MaxDate) }

  /** `d.AddYears(n)`: the same day `n` years on, 29 February becoming 28 February in a common
      year; `None` where the source throws because the year leaves 1 .. 9999. */
  function AddYears(d: Date, n: int): (r: Option<Date>)
    requires IsValidDate(d)
    ensures r.Some? <==> MinYear <= d.year + n <= MaxYear
    ensures r.Some? ==> IsValidDate(r.value) && r.value.year == d.year + n && r.value.month == d.month
    ensures r.Some? ==> r.value.day == d.day || (d.month == 2 && d.day == 29 && r.value.day == 28 && !IsLeapYear(d.year + n))
  {
    var y := d.year + n;
    if y < MinYear || y > MaxYear then None
    else if d.month == 2 && d.day == 29 && !IsLeapYear(y) then Some(Date(y, 2, 28))
    else Some(Date(y, d.month, d.day))
  }

  /** `now.AddYears(n)` keeps the time of day. */
  function AddYearsInstant(i: Instant, n: int): (r: Option<Instant>)
    requires IsValidInstant(i)
    ensures r.Some? ==> IsValidInstant(r.value) && r.value.timeOfDay == i.timeOfDay
  {
    match AddYears(i.date, n)
    case Some(d) => Some(Instant(d, i.timeOfDay))
    case None => None
  }

  /** Calendar order: earlier year, then earlier month, then earlier day. */
  predicate Before(a: Date, b: Date) {
    a.year < b.year || (a.year == b.year && (a.month < b.month || (a.month == b.month && a.day < b.day)))
  }

  lemma {:induction false} DaysBeforeMonthStep(y: int, m: int, k: int)
    requires 1 <= m <= k <= 13
    ensures DaysBeforeMonth(y, m) + (if m < k then DaysInMonth(y, m) else 0) <= DaysBeforeMonth(y, k)
    decreases k - m
  {
    if m < k {
      if m + 1 < k {
        DaysBeforeMonthStep(y, m + 1, k);
      }
    }
  }

  lemma DaysInYear(y: int)
    requires y >= 1
    ensures DaysBeforeMonth(y, 13) == if IsLeapYear(y) then 366 else 365
  {
  }

  // The leap-year divisors step by one exactly at their multiples, and a multiple of 400 is
  // one of 100, which is one of 4: one fact per lemma, each with a literal divisor.

  lemma QuotientStep4(y: int)
    requires y >= 1
    ensures y / 4 == (y - 1) / 4 + (if y % 4 == 0 then 1 else 0)
  {
  }

  lemma QuotientStep100(y: int)
    requires y >= 1
    ensures y / 100 == (y - 1) / 100 + (if y % 100 == 0 then 1 else 0)
  {
  }

  lemma QuotientStep400(y: int)
    requires y >= 1
    ensures y / 400 == (y - 1) / 400 + (if y % 400 == 0 then 1 else 0)
  {
  }

  lemma MultipleOf400(y: int)
    requires y % 400 == 0
    ensures y % 100 == 0
  {
    assert y == 100 * (4 * (y / 400));
  }

  lemma MultipleOf100(y: int)
    requires y % 100 == 0
    ensures y % 4 == 0
  {
    assert y == 4 * (25 * (y / 100));
  }

  lemma DaysBeforeYearStep(y: int)
    requires y >= 1
    ensures DaysBeforeYear(y + 1) == DaysBeforeYear(y) + DaysBeforeMonth(y, 13)
  {
    DaysInYear(y);
    QuotientStep4(y);
    QuotientStep100(y);
    QuotientStep400(y);
    if y % 400 == 0 {
      MultipleOf400(y);
    }
    if y % 100 == 0 {
      MultipleOf100(y);
    }
  }

  /** All days of a year come before the first day of any later year. */
  lemma {:induction false} DaysBeforeYearMonotone(a: int, b: int)
    requires 1 <= a < b
    ensures DaysBeforeYear(a) + DaysBeforeMonth(a, 13) <= DaysBeforeYear(b)
    decreases b - a
  {
    DaysBeforeYearStep(a);
    if a + 1 < b {
      DaysBeforeYearMonotone(a + 1, b);
      assert DaysBeforeMonth(a + 1, 13) >= 0;
    }
  }

  /** Day numbers follow calendar order, so comparing ticks compares dates. */
  lemma DayNumberOrder(a: Date, b: Date)
    requires IsValidDate(a) && IsValidDate(b)
    ensures Before(a, b) <==> DayNumber(a) < DayNumber(b)
    ensures a == b <==> DayNumber(a) == DayNumber(b)
  {
    if Before(a, b) {
      DayNumberBefore(a, b);
    } else if Before(b, a) {
      DayNumberBefore(b, a);
    } else {
      assert a == b;
    }
  }

  lemma DayNumberBefore(a: Date, b: Date)
    requires IsValidDate(a) && IsValidDate(b) && Before(a, b)
    ensures DayNumber(a) < DayNumber(b)
  {
    if a.year < b.year {
      DaysBeforeMonthStep(a.year, a.month, 13);
      DaysBeforeYearMonotone(a.year, b.year);
    } else if a.month < b.month {
      DaysBeforeMonthStep(a.year, a.month, b.month);
    }
  }

  /** Comparing a midnight with an instant: later exactly when its day is later. */
  lemma MidnightAfterInstant(d: Date, i: Instant)
    requires IsValidDate(d) && IsValidInstant(i)
    ensures Ticks(d) > InstantTicks(i) <==> DayNumber(d) > DayNumber(i.date)
    ensures Ticks(d) < InstantTicks(i) <==> DayNumber(d) < DayNumber(i.date) || (d == i.date && i.timeOfDay > 0)
  {
    DayNumberOrder(d, i.date);
    var x, y := DayNumber(d), DayNumber(i.date);
    if x > y {
      assert x * TicksPerDay >= y * TicksPerDay + TicksPerDay;
    } else if x < y {
      assert x * TicksPerDay + TicksPerDay <= y * TicksPerDay;
    }
  }

  /** The latest day has the largest day number. */
  lemma MaxDateIsLast(d: Date)
    requires IsValidDate(d)
    ensures DayNumber(d) <= MaxDayNumber()
  {
    if d != MaxDate {
      assert Before(d, MaxDate);
      DayNumberBefore(d, MaxDate);
    }
  }
}
