/**
 Times of differing precision, the half-open interval each one denotes, and the
 conservative relations between intervals.  The calendar is the proleptic
 Gregorian one over the year range of the date library the program uses.
 */
module Times {
  import opened Prelude

  const MIN_I32 := -0x8000_0000
  const MAX_I32 := 0x7fff_ffff
  const MIN_DATE_YEAR := -262143
  const MAX_DATE_YEAR := 262142
  const NANOS := 1_000_000_000

  datatype Date = Date(year: int, month: int, day: int)

  datatype Clock = Clock(hour: int, minute: int, second: int, nanosecond: int)

  predicate IsLeapYear(year: int) {
    year % 4 == 0 && (year % 100 != 0 || year % 400 == 0)
  }

  function DaysInMonth(year: int, month: int): int {
    if month == 2 then (if IsLeapYear(year) then 29 else 28)
    else if month == 4 || month == 6 || month == 9 || month == 11 then 30
    else 31
  }

  predicate ValidDate(d: Date) {
    MIN_DATE_YEAR <= d.year <= MAX_DATE_YEAR && 1 <= d.month <= 12 && 1 <= d.day <= DaysInMonth(d.year, d.month)
  }

  /** A second field of 59 may carry a leap second as one more second of nanoseconds. */
  predicate ValidClock(c: Clock) {
    && 0 <= c.hour < 24 && 0 <= c.minute < 60 && 0 <= c.second < 60
    && 0 <= c.nanosecond < (if c.second == 59 then 2 * NANOS else NANOS)
  }

  function NextDate(d: Date): Option<Date> {
    if d.day < DaysInMonth(d.year, d.month) then Some(d.(day := d.day + 1))
    else if d.month < 12 then Some(Date(d.year, d.month + 1, 1))
    else if d.year < MAX_DATE_YEAR then Some(Date(d.year + 1, 1, 1))
    else None
  }

  /** The clock one second later, with a zero fraction; None when that is the next day. */
  function NextSecond(c: Clock): Option<Clock> {
    if c.second < 59 then Some(Clock(c.hour, c.minute, c.second + 1, 0))
    else if c.minute < 59 then Some(Clock(c.hour, c.minute + 1, 0, 0))
    else if c.hour < 23 then Some(Clock(c.hour + 1, 0, 0, 0))
    else None
  }

  /** One nanosecond later.  A leap second runs to its own end before the next second starts. */
  function NextNanosecond(d: Date, c: Clock): Option<(Date, Clock)> {
    var fraction := c.nanosecond + 1;
    if fraction != NANOS && fraction != 2 * NANOS then Some((d, c.(nanosecond := fraction)))
    else match NextSecond(c) {
      case Some(next) => Some((d, next))
      case None =>
        match NextDate(d) {
          case Some(day) => Some((day, Clock(0, 0, 0, 0)))
          case None => None
        }
    }
  }

  datatype TimeType =
    | BeginningOfTime
    | EndOfTime
    | Year(year: int)
    | YearMonth(year: int, month: int)
    | Day(date: Date)
    | Moment(date: Date, clock: Clock)

  predicate ValidTime(t: TimeType) {
    match t
    case BeginningOfTime => true
    case EndOfTime => true
    case Year(y) => MIN_I32 <= y <= MAX_I32
    case YearMonth(y, m) => MIN_I32 <= y <= MAX_I32 && 1 <= m <= 12
    case Day(d) => ValidDate(d)
    case Moment(d, c) => ValidDate(d) && ValidClock(c)
  }

  type Time = t: TimeType | ValidTime(t) witness BeginningOfTime

  datatype Instant = Instant(date: Date, clock: Clock)

  datatype Bound = NegativeInfinity | Finite(instant: Instant) | PositiveInfinity

  datatype Interval = Interval(start: Bound, end: Bound)

  predicate DateLess(a: Date, b: Date) {
    a.year < b.year || (a.year == b.year && (a.month < b.month || (a.month == b.month && a.day < b.day)))
  }

  predicate ClockLess(a: Clock, b: Clock) {
    a.hour < b.hour || (a.hour == b.hour && (a.minute < b.minute || (a.minute == b.minute &&
    (a.second < b.second || (a.second == b.second && a.nanosecond < b.nanosecond)))))
  }

  /** Field by field, most significant first. */
  predicate InstantLess(a: Instant, b: Instant) {
    DateLess(a.date, b.date) || (a.date == b.date && ClockLess(a.clock, b.clock))
  }

  predicate BoundLess(a: Bound, b: Bound) {
    match (a, b)
    case (NegativeInfinity, _) => !b.NegativeInfinity?
    case (Finite(x), Finite(y)) => InstantLess(x, y)
    case (Finite(_), PositiveInfinity) => true
    case _ => false
  }

  predicate BoundAtMost(a: Bound, b: Bound) {
    a == b || BoundLess(a, b)
  }

  function StartOfMonth(year: int, month: int): Bound {
    Finite(Instant(Date(year, month, 1), Clock(0, 0, 0, 0)))
  }

  function StartOfDay(d: Date): Bound {
    Finite(Instant(d, Clock(0, 0, 0, 0)))
  }

  function IntervalOf(t: Time): Interval {
    match t
    case BeginningOfTime => Interval(NegativeInfinity, NegativeInfinity)
    case EndOfTime => Interval(PositiveInfinity, PositiveInfinity)
    case Year(y) =>
      Interval(StartOfMonth(y, 1), if y < MAX_I32 then StartOfMonth(y + 1, 1) else PositiveInfinity)
    case YearMonth(y, m) =>
      Interval(StartOfMonth(y, m),
               if m < 12 then StartOfMonth(y, m + 1)
               else if y < MAX_I32 then StartOfMonth(y + 1, 1)
               else PositiveInfinity)
    case Day(d) =>
      Interval(StartOfDay(d), match NextDate(d) case Some(n) => StartOfDay(n) case None => PositiveInfinity)
    case Moment(d, c) =>
      Interval(Finite(Instant(d, c)),
               match NextNanosecond(d, c) case Some(n) => Finite(Instant(n.0, n.1)) case None => PositiveInfinity)
  }

  predicate DefinitelyBefore(a: Time, b: Time) {
    a != b && BoundAtMost(IntervalOf(a).end, IntervalOf(b).start)
  }

  predicate DefinitelyAfter(a: Time, b: Time) {
    a != b && BoundAtMost(IntervalOf(b).end, IntervalOf(a).start)
  }

  predicate DefinitelyAtOrBefore(a: Time, b: Time) {
    a == b || DefinitelyBefore(a, b)
  }

  predicate Overlaps(a: Time, b: Time) {
    BoundLess(IntervalOf(a).start, IntervalOf(b).end) && BoundLess(IntervalOf(b).start, IntervalOf(a).end)
  }

  predicate Contains(a: Time, b: Time) {
    BoundAtMost(IntervalOf(a).start, IntervalOf(b).start) && BoundAtMost(IntervalOf(b).end, IntervalOf(a).end)
  }

  // ------------------------------------------------------------------ bounds

  lemma BoundTransitive(a: Bound, b: Bound, c: Bound)
    requires BoundAtMost(a, b) && BoundAtMost(b, c)
    ensures BoundAtMost(a, c)
    ensures BoundLess(a, b) || BoundLess(b, c) ==> BoundLess(a, c)
  {
  }

  lemma BoundTrichotomy(a: Bound, b: Bound)
    ensures BoundLess(a, b) || a == b || BoundLess(b, a)
    ensures !(BoundLess(a, b) && BoundAtMost(b, a))
  {
  }

  // --------------------------------------------------------------- intervals

  /** Every stored time except the two sentinels denotes a non-empty interval, and the sentinels sit alone at their ends. */
  lemma OnlySentinelsAreEmpty(t: Time)
    ensures BoundAtMost(IntervalOf(t).start, IntervalOf(t).end)
    ensures IntervalOf(t).start == IntervalOf(t).end <==> t.BeginningOfTime? || t.EndOfTime?
    ensures IntervalOf(t).start.NegativeInfinity? <==> t.BeginningOfTime?
    ensures IntervalOf(t).end.NegativeInfinity? <==> t.BeginningOfTime?
    ensures IntervalOf(t).start.PositiveInfinity? <==> t.EndOfTime?
  {
    match t
    case BeginningOfTime =>
    case EndOfTime =>
    case Year(_) =>
    case YearMonth(_, _) =>
    case Day(_) =>
    case Moment(_, _) =>
  }

  /** Two times sharing an empty interval are the same time. */
  lemma SamePointSameTime(a: Time, b: Time)
    requires IntervalOf(a).start == IntervalOf(a).end == IntervalOf(b).start
    ensures a == b
  {
    OnlySentinelsAreEmpty(a);
    OnlySentinelsAreEmpty(b);
  }

  lemma BeforeIrreflexive(a: Time, b: Time)
    ensures !DefinitelyBefore(a, a)
    ensures DefinitelyBefore(a, b) ==> !DefinitelyBefore(b, a)
  {
    if DefinitelyBefore(a, b) && DefinitelyBefore(b, a) {
      BeforeTransitive(a, b, a);
    }
  }

  lemma BeforeTransitive(a: Time, b: Time, c: Time)
    requires DefinitelyBefore(a, b) && DefinitelyBefore(b, c)
    ensures DefinitelyBefore(a, c)
  {
    var (ia, ib, ic) := (IntervalOf(a), IntervalOf(b), IntervalOf(c));
    OnlySentinelsAreEmpty(a);
    OnlySentinelsAreEmpty(b);
    BoundTransitive(ia.end, ib.start, ib.end);
    BoundTransitive(ia.end, ib.end, ic.start);
    if a == c {
      BoundTransitive(ia.start, ia.end, ib.start);
      BoundTransitive(ia.start, ib.start, ib.end);
      BoundTrichotomy(ia.start, ib.start);
      BoundTrichotomy(ib.start, ib.end);
      SamePointSameTime(b, a);
    }
  }

  /** No two incomparable two-chains: the defining law of an interval order. */
  lemma BeforeIsIntervalOrder(a: Time, b: Time, c: Time, d: Time)
    requires DefinitelyBefore(a, b) && DefinitelyBefore(c, d)
    ensures DefinitelyBefore(a, d) || DefinitelyBefore(c, b)
  {
    var (ia, ib, ic, id) := (IntervalOf(a), IntervalOf(b), IntervalOf(c), IntervalOf(d));
    OnlySentinelsAreEmpty(b);
    BoundTrichotomy(ia.end, id.start);
    if a == d {
      BeforeTransitive(c, d, b);
    } else if BoundLess(id.start, ia.end) {
      BoundTransitive(ic.end, id.start, ia.end);
      BoundTransitive(ic.end, ia.end, ib.start);
      BoundTrichotomy(ib.start, ib.end);
    }
  }

  predicate ExactlyOne(p: bool, q: bool, r: bool) {
    (p && !q && !r) || (!p && q && !r) || (!p && !q && r)
  }

  /** Distinct times are before, after or overlapping, and only one of these. */
  lemma DistinctTimesCompareOneWay(a: Time, b: Time)
    requires a != b
    ensures DefinitelyAfter(a, b) <==> DefinitelyBefore(b, a)
    ensures ExactlyOne(DefinitelyBefore(a, b), DefinitelyAfter(a, b), Overlaps(a, b))
  {
    BeforeIrreflexive(a, b);
    BoundTrichotomy(IntervalOf(a).end, IntervalOf(b).start);
    BoundTrichotomy(IntervalOf(b).end, IntervalOf(a).start);
  }

  /** A year contains exactly its own twelve months, up to both ends of the year range. */
  lemma YearContainsItsMonths(year: Time, month: Time)
    requires year.Year? && month.YearMonth?
    ensures Contains(year, month) <==> year.year == month.year
  {
  }

  // ------------------------------------------------ what the intervals come to

  /** Days are before one another exactly as their dates are. */
  lemma DaysCompareAsDates(a: Time, b: Time)
    requires a.Day? && b.Day?
    ensures DefinitelyBefore(a, b) <==> DateLess(a.date, b.date)
  {
  }

  /** The last nanosecond of a minute, and an instant of the leap second that may follow it. */
  predicate IntoLeapSecond(a: Instant, b: Instant) {
    && a.date == b.date && a.clock.hour == b.clock.hour && a.clock.minute == b.clock.minute && a.clock.second == b.clock.second
    && a.clock.nanosecond == NANOS - 1 && b.clock.nanosecond >= NANOS
  }

  /**
   Moments are before one another as their instants are, with one exception: one nanosecond
   after the last of a minute is the next minute, so that nanosecond overlaps a leap second.
   */
  lemma MomentsCompareAsInstants(a: Time, b: Time)
    requires a.Moment? && b.Moment?
    ensures var (x, y) := (Instant(a.date, a.clock), Instant(b.date, b.clock));
            DefinitelyBefore(a, b) <==> InstantLess(x, y) && !IntoLeapSecond(x, y)
  {
  }

  const LAST_NANOSECOND: Time := Moment(Date(2016, 12, 31), Clock(23, 59, 59, NANOS - 1))
  const LEAP_SECOND: Time := Moment(Date(2016, 12, 31), Clock(23, 59, 59, NANOS))

  /** Such a pair of moments: the second starts after the first, and yet they overlap. */
  lemma LeapSecondOverlaps()
    ensures BoundLess(IntervalOf(LAST_NANOSECOND).start, IntervalOf(LEAP_SECOND).start)
    ensures !DefinitelyBefore(LAST_NANOSECOND, LEAP_SECOND) && Overlaps(LAST_NANOSECOND, LEAP_SECOND)
  {
  }

  lemma YearsAndMonthsCompareAsNumbers(a: Time, b: Time)
    ensures a.Year? && b.Year? ==> (DefinitelyBefore(a, b) <==> a.year < b.year)
    ensures a.YearMonth? && b.YearMonth? ==> (DefinitelyBefore(a, b) <==> a.year < b.year || (a.year == b.year && a.month < b.month))
  {
  }

  /** A day contains exactly its own moments, leap seconds included. */
  lemma DayContainsItsMoments(day: Time, moment: Time)
    requires day.Day? && moment.Moment?
    ensures Contains(day, moment) <==> moment.date == day.date
  {
  }

  /** The last date there is; nothing follows it, so it runs to the end of time. */
  const LAST_DATE := Date(MAX_DATE_YEAR, 12, 31)

  /** A month contains exactly its own days, and a year its own, the last date there is excepted. */
  lemma MonthContainsItsDays(month: Time, day: Time)
    requires day.Day?
    ensures month.YearMonth? ==>
              (Contains(month, day) <==> day.date.year == month.year && day.date.month == month.month && day.date != LAST_DATE)
    ensures month.Year? ==> (Contains(month, day) <==> day.date.year == month.year && day.date != LAST_DATE)
  {
  }

  /** Everything but the sentinels lies strictly between them. */
  lemma SentinelsBound(t: Time)
    ensures t != BeginningOfTime ==> DefinitelyBefore(BeginningOfTime, t)
    ensures t != EndOfTime ==> DefinitelyBefore(t, EndOfTime)
  {
    OnlySentinelsAreEmpty(t);
  }

  /** The time of the cut itself, or one that is over when the cut starts. */
  predicate OverBy(t: Time, cut: Time) {
    t == cut || BoundAtMost(IntervalOf(t).end, IntervalOf(cut).start)
  }

  lemma AtOrBeforeMeans(a: Time, b: Time)
    ensures DefinitelyAtOrBefore(a, b) <==> OverBy(a, b)
    ensures DefinitelyAtOrBefore(a, b) && DefinitelyAtOrBefore(b, a) ==> a == b
  {
    if a != b && DefinitelyAtOrBefore(a, b) {
      BeforeIrreflexive(a, b);
    }
  }

  lemma MonthsHaveTheirDays(year: int)
    ensures forall month :: DaysInMonth(year, month) == 30 <==> month in {4, 6, 9, 11}
    ensures forall month :: DaysInMonth(year, month) < 30 <==> month == 2
    ensures forall month :: month != 2 && month !in {4, 6, 9, 11} ==> DaysInMonth(year, month) == 31
  {
    hide IsLeapYear;
  }

  /** The dates there are: the program's calendar begins and ends with these. */
  lemma DateLimits(d: Date)
    ensures ValidDate(Date(-262143, 1, 1)) && ValidDate(Date(262142, 12, 31))
    ensures ValidDate(d) ==> !DateLess(d, Date(-262143, 1, 1)) && !DateLess(Date(262142, 12, 31), d)
  {
    MonthsHaveTheirDays(d.year);
    MonthsHaveTheirDays(-262143);
    MonthsHaveTheirDays(262142);
    hide DaysInMonth;
  }

  /** Every fourth year has a longer February, but of the centuries only every fourth. */
  lemma LeapYears(year: int)
    ensures DaysInMonth(year, 2) == if year % 400 == 0 || (year % 4 == 0 && year % 100 != 0) then 29 else 28
  {
    if year % 400 == 0 {
      FourHundreds(year / 400);
      assert year == 400 * (year / 400);
    }
  }

  lemma FourHundreds(n: int)
    ensures (400 * n) % 4 == 0
  {
  }

  /**
   A time with the greatest start in its company is a sufficient witness: whatever
   any member dominates, the witness dominates too.
   */
  lemma WitnessSuffices(candidate: Time, other: Time, latest: Time)
    requires DefinitelyBefore(candidate, other)
    requires BoundAtMost(IntervalOf(other).start, IntervalOf(latest).start)
    ensures DefinitelyBefore(candidate, latest)
  {
    var (ic, io, iw) := (IntervalOf(candidate), IntervalOf(other), IntervalOf(latest));
    BoundTransitive(ic.end, io.start, iw.start);
    if candidate == latest {
      OnlySentinelsAreEmpty(candidate);
      BoundTrichotomy(ic.start, ic.end);
      BoundTrichotomy(io.start, ic.end);
      SamePointSameTime(candidate, other);
    }
  }
}
