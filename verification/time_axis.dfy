/** The common time axis of all series: whole seconds since 1995-01-01 00:00,
    obtained from a date at midnight through Unix time. */
module TimeAxis {
  import opened Calendar

  const SecondsPerDay: int := 86400

  /** Seconds from 1970-01-01 to 1995-01-01, subtracted from Unix time to
      put the axis origin at 1 Jan 1995. */
  const ReferenceShift: int := 788918400

  /** The axis origin. */
  const ReferenceDate: Date := Date(1995, 1, 1)

  /** `day1`: collisions start after this day. */
  const CollisionStart: Date := Date(2024, 10, 22)

  /** Largest magnitude a `double` holds with every smaller integer exact. */
  const DoubleExactLimit: int := 0x20_0000_0000_0000

  /** `(date - epoch).total_seconds()` for a date at midnight: Boost subtracts
      day numbers and scales by the length of a day. */
  function UnixSeconds(d: Date): int
    requires ValidDate(d)
  {
    (DayNumber(d) - DayNumber(UnixEpoch)) * SecondsPerDay
  }

  /** `sec`: Unix time shifted to the 1995 reference. */
  function AxisSeconds(d: Date): int
    requires ValidDate(d)
  {
    UnixSeconds(d) - ReferenceShift
  }

  /** The axis value is the day count from 1970 in seconds, minus the shift; it always
      falls on a midnight. */
  lemma AxisSecondsIsMidnight(d: Date)
    requires ValidDate(d)
    ensures AxisSeconds(d) == EpochDay(d) * SecondsPerDay - ReferenceShift
    ensures AxisSeconds(d) % SecondsPerDay == 0
  {
    DayNumberCountsDays(d);
    var e := EpochDay(d);
    assert AxisSeconds(d) == (e - 9131) * SecondsPerDay;
    WholeDays(e - 9131);
  }

  lemma WholeDays(n: int)
    ensures (n * SecondsPerDay) % SecondsPerDay == 0
  {
  }

  /** The shift is exactly the 9131 days between 1970-01-01 and 1995-01-01, so the
      reference date is the origin of the axis. */
  lemma ReferenceDateIsOrigin()
    ensures ValidDate(ReferenceDate)
    ensures EpochDay(ReferenceDate) == 9131
    ensures ReferenceShift == 9131 * SecondsPerDay
    ensures UnixSeconds(ReferenceDate) == ReferenceShift
    ensures AxisSeconds(ReferenceDate) == 0
  {
    ReferenceDayNumber();
    DayNumberCountsDays(ReferenceDate);
  }

  /** Boost's day numbers of 1995-01-01 and 1970-01-01 lie 9131 apart. */
  lemma ReferenceDayNumber()
    ensures ValidDate(ReferenceDate)
    ensures DayNumber(ReferenceDate) - DayNumber(UnixEpoch) == 9131
  {
  }

  /** A strictly later date lies strictly later on the axis, and conversely; distinct
      dates never share an axis value. */
  lemma AxisOrder(a: Date, b: Date)
    requires ValidDate(a) && ValidDate(b)
    ensures Before(a, b) <==> AxisSeconds(a) < AxisSeconds(b)
    ensures a == b <==> AxisSeconds(a) == AxisSeconds(b)
  {
    AxisSecondsIsMidnight(a);
    AxisSecondsIsMidnight(b);
    EpochDayOrder(a, b);
  }

  /** `ptimed > day1`: the row's instant is later than the start of collisions. */
  predicate Collides(d: Date)
    requires ValidDate(d)
  {
    UnixSeconds(d) > UnixSeconds(CollisionStart)
  }

  /** The gate opens exactly for the days after 2024-10-22; that day itself is excluded. */
  lemma CollidesAfterCollisionStart(d: Date)
    requires ValidDate(d)
    ensures Collides(d) <==> Before(CollisionStart, d)
    ensures !Collides(CollisionStart)
  {
    AxisOrder(CollisionStart, d);
  }

  /** Axis values of valid dates fit a 64-bit `time_t` and convert to `double` exactly;
      Boost's closed-form day number is bounded by the year range alone. */
  lemma AxisSecondsExactInDouble(d: Date)
    requires ValidDate(d)
    ensures -DoubleExactLimit < UnixSeconds(d) < DoubleExactLimit
    ensures -DoubleExactLimit < AxisSeconds(d) < DoubleExactLimit
  {
  }
}
