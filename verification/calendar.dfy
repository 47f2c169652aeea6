/** Proleptic Gregorian calendar dates and day counts.

    `DayNumber` is the Julian day number formula Boost.Date_Time's gregorian
    calendar uses to subtract two dates; `EpochDay` is an independent count of
    the days between 1970-01-01 and a date, built from year and month lengths.
    `DayNumberCountsDays` proves the two agree, and `EpochDayOrder` proves the
    count strictly follows calendar order. */
module Calendar {

  /** A calendar day (`boost::gregorian::date`). */
  datatype Date = Date(year: int, month: int, day: int)

  /** The range of years `boost::gregorian::greg_year` admits. */
  const MinYear: int := 1400
  const MaxYear: int := 9999

  /** 1970-01-01, the Unix epoch. */
  const UnixEpoch: Date := Date(1970, 1, 1)

  predicate IsLeapYear(y: int) {
    y % 4 == 0 && (y % 100 != 0 || y % 400 == 0)
  }

  function YearLength(y: int): int {
    if IsLeapYear(y) then 366 else 365
  }

  function DaysInMonth(y: int, m: int): int
    requires 1 <= m <= 12
  {
    if m == 2 then (if IsLeapYear(y) then 29 else 28)
    else if m == 4 || m == 6 || m == 9 || m == 11 then 30
    else 31
  }

  /** A date Boost can represent: a year in range and a day that exists in its month. */
  predicate ValidDate(d: Date) {
    && MinYear <= d.year <= MaxYear
    && 1 <= d.month <= 12
    && 1 <= d.day <= DaysInMonth(d.year, d.month)
  }

  /** Strict calendar order: `a` is an earlier day than `b`. */
  predicate Before(a: Date, b: Date) {
    || a.year < b.year
    || (a.year == b.year && a.month < b.month)
    || (a.year == b.year && a.month == b.month && a.day < b.day)
  }

  // ---------------------------------------------------------------------------
  // Reference day count
  // ---------------------------------------------------------------------------

  /** Signed number of days from 1970-01-01 to January 1st of year `y`. */
  function DaysBeforeYear(y: int): int
    decreases if y < 1970 then 1970 - y else y - 1970
  {
    if y == 1970 then 0
    else if y > 1970 then DaysBeforeYear(y - 1) + YearLength(y - 1)
    else DaysBeforeYear(y + 1) - YearLength(y)
  }

  /** Number of days of year `y` that come before the first of month `m`. */
  function DaysBeforeMonth(y: int, m: int): int
    requires 1 <= m <= 12
  {
    var common := [0, 31, 59, 90, 120, 151, 181, 212, 243, 273, 304, 334];
    common[m - 1] + (if m > 2 && IsLeapYear(y) then 1 else 0)
  }

  /** Signed number of days from 1970-01-01 to `d`. */
  function EpochDay(d: Date): int
    requires 1 <= d.month <= 12
  {
    DaysBeforeYear(d.year) + DaysBeforeMonth(d.year, d.month) + d.day - 1
  }

  /** Each month starts where the previous one ends, and the year ends after December. */
  lemma MonthsTileYear(y: int, m: int)
    requires 1 <= m <= 12
    ensures m < 12 ==> DaysBeforeMonth(y, m + 1) == DaysBeforeMonth(y, m) + DaysInMonth(y, m)
    ensures m == 12 ==> DaysBeforeMonth(y, m) + DaysInMonth(y, m) == YearLength(y)
  {
  }

  /** Month starts grow with the month: all of month `m1` lies before month `m2`. */
  lemma MonthStartsIncrease(y: int, m1: int, m2: int)
    requires 1 <= m1 < m2 <= 12
    ensures DaysBeforeMonth(y, m1) + DaysInMonth(y, m1) <= DaysBeforeMonth(y, m2)
  {
    MonthsTileYear(y, m1);
  }

  lemma YearStep(y: int)
    ensures DaysBeforeYear(y + 1) == DaysBeforeYear(y) + YearLength(y)
  {
  }

  /** All of year `y1` lies before January 1st of any later year `y2`. */
  lemma {:induction false} YearStartsIncrease(y1: int, y2: int)
    requires y1 < y2
    ensures DaysBeforeYear(y1) + YearLength(y1) <= DaysBeforeYear(y2)
    decreases y2 - y1
  {
    YearStep(y1);
    if y1 + 1 < y2 {
      YearStartsIncrease(y1 + 1, y2);
      YearStep(y2 - 1);
    }
  }

  /** A valid date's day count lies within its year. */
  lemma DayWithinYear(d: Date)
    requires ValidDate(d)
    ensures DaysBeforeYear(d.year) <= EpochDay(d) < DaysBeforeYear(d.year) + YearLength(d.year)
  {
    if d.month < 12 {
      MonthStartsIncrease(d.year, d.month, 12);
    }
    MonthsTileYear(d.year, 12);
  }

  /** The day count is strictly increasing in calendar order, in both directions. */
  lemma EpochDayOrder(a: Date, b: Date)
    requires ValidDate(a) && ValidDate(b)
    ensures Before(a, b) <==> EpochDay(a) < EpochDay(b)
    ensures a == b <==> EpochDay(a) == EpochDay(b)
  {
    if a.year != b.year {
      var (p, q) := if a.year < b.year then (a, b) else (b, a);
      DayWithinYear(p);
      DayWithinYear(q);
      YearStartsIncrease(p.year, q.year);
    } else if a.month != b.month {
      var (p, q) := if a.month < b.month then (a, b) else (b, a);
      MonthStartsIncrease(a.year, p.month, q.month);
    }
  }

  // ---------------------------------------------------------------------------
  // Boost's Julian day number
  // ---------------------------------------------------------------------------

  /** The Julian day number of `d`, computed as Boost's `gregorian_calendar::day_number`
      does it. Every intermediate value is non-negative for a valid date (and fits the
      `unsigned short` Boost stores it in), so truncating and Euclidean division agree. */
  function DayNumber(d: Date): int
    requires ValidDate(d)
  {
    var a := (14 - d.month) / 12;
    var y := d.year + 4800 - a;
    var m := d.month + 12 * a - 3;
    d.day + (153 * m + 2) / 5 + 365 * y + y / 4 - y / 100 + y / 400 - 32045
  }

  /** Number of leap years among 1 .. n under the Gregorian rule. */
  function LeapYearsThrough(n: int): int {
    n / 4 - n / 100 + n / 400
  }

  /** Stepping `n` by one moves `n / k` exactly when `n` becomes a multiple of `k`,
      for the three divisors of the leap-year rule. */
  lemma QuotientStep(n: int, k: int)
    requires k == 4 || k == 100 || k == 400
    ensures n / k - (n - 1) / k == (if n % k == 0 then 1 else 0)
  {
    if k == 4 {
      assert n / 4 - (n - 1) / 4 == (if n % 4 == 0 then 1 else 0);
    } else if k == 100 {
      assert n / 100 - (n - 1) / 100 == (if n % 100 == 0 then 1 else 0);
    } else {
      assert n / 400 - (n - 1) / 400 == (if n % 400 == 0 then 1 else 0);
    }
  }

  lemma LeapYearsStep(n: int)
    requires n >= 1
    ensures LeapYearsThrough(n) == LeapYearsThrough(n - 1) + (if IsLeapYear(n) then 1 else 0)
  {
    QuotientStep(n, 4);
    QuotientStep(n, 100);
    QuotientStep(n, 400);
    MultipleOfMultiple(n, 4, 25);
    MultipleOfMultiple(n, 100, 4);
  }

  /** A multiple of `k * j` is a multiple of `k`. */
  lemma MultipleOfMultiple(n: int, k: int, j: int)
    requires (k == 4 && j == 25) || (k == 100 && j == 4)
    ensures n % (k * j) == 0 ==> n % k == 0
  {
    if n % (k * j) == 0 {
      var q := n / (k * j);
      assert n == k * (j * q);
    }
  }

  /** Adding whole 400-year cycles keeps the leap-year rule unchanged. */
  lemma LeapCycle(y: int)
    ensures IsLeapYear(y + 4800) == IsLeapYear(y)
  {
    assert y + 4800 == 4 * (y / 4 + 1200) + y % 4;
    assert y + 4800 == 100 * (y / 100 + 48) + y % 100;
    assert y + 4800 == 400 * (y / 400 + 12) + y % 400;
  }

  /** Julian day numbers of consecutive New Year's days differ by the length of the year. */
  lemma DayNumberYearStep(y: int)
    requires MinYear <= y < MaxYear
    ensures DayNumber(Date(y + 1, 1, 1)) == DayNumber(Date(y, 1, 1)) + YearLength(y)
  {
    assert DayNumber(Date(y, 1, 1)) == 1 + 306 + 365 * (y + 4799) + LeapYearsThrough(y + 4799) - 32045;
    assert DayNumber(Date(y + 1, 1, 1)) == 1 + 306 + 365 * (y + 4800) + LeapYearsThrough(y + 4800) - 32045;
    LeapYearsStep(y + 4800);
    LeapCycle(y);
  }

  /** Boost's month term counts the days from 1 March to the first of the month: it is
      the common-year month start shifted by the 306 days from March to January. */
  lemma MarchOffset(m: int)
    requires 1 <= m <= 12
    ensures var common := [0, 31, 59, 90, 120, 151, 181, 212, 243, 273, 304, 334];
      && (m <= 2 ==> (153 * (m + 9) + 2) / 5 == common[m - 1] + 306)
      && (m > 2 ==> (153 * (m - 3) + 2) / 5 == common[m - 1] - 59)
  {
    if m == 1 {
    } else if m == 2 {
    } else if m == 3 {
    } else if m == 4 {
    } else if m == 5 {
    } else if m == 6 {
    } else if m == 7 {
    } else if m == 8 {
    } else if m == 9 {
    } else if m == 10 {
    } else if m == 11 {
    } else {
    }
  }

  /** Within a year the Julian day number advances by `DaysBeforeMonth` and the day of month. */
  lemma DayNumberWithinYear(d: Date)
    requires ValidDate(d)
    ensures DayNumber(d) == DayNumber(Date(d.year, 1, 1)) + DaysBeforeMonth(d.year, d.month) + d.day - 1
  {
    MarchOffset(1);
    MarchOffset(d.month);
    JanuaryDayNumber(d.year);
    if d.month > 2 {
      LeapYearsStep(d.year + 4800);
      LeapCycle(d.year);
    }
  }

  /** Boost's formula for 1 January counts from the March-based year before. */
  lemma JanuaryDayNumber(y: int)
    requires MinYear <= y <= MaxYear
    ensures DayNumber(Date(y, 1, 1)) == 1 + 306 + 365 * (y + 4799) + LeapYearsThrough(y + 4799) - 32045
  {
  }

  lemma {:induction false} DayNumberNewYear(y: int)
    requires MinYear <= y <= MaxYear
    ensures DayNumber(Date(y, 1, 1)) - DayNumber(UnixEpoch) == DaysBeforeYear(y)
    decreases if y < 1970 then 1970 - y else y - 1970
  {
    if y > 1970 {
      DayNumberNewYear(y - 1);
      DayNumberYearStep(y - 1);
    } else if y < 1970 {
      DayNumberNewYear(y + 1);
      DayNumberYearStep(y);
    }
  }

  /** Boost's day-number difference from the Unix epoch is exactly the reference day count. */
  lemma DayNumberCountsDays(d: Date)
    requires ValidDate(d)
    ensures DayNumber(d) - DayNumber(UnixEpoch) == EpochDay(d)
  {
    DayNumberNewYear(d.year);
    DayNumberWithinYear(d);
  }
}
