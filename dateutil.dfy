/** The calendar-free part of the date helpers: zero-based month, day and
    weekday indices, the Monday-first weekday symbols, and the comparisons
    of date intervals.

    A point in time is an integer count of microseconds since the
    reference date (2001-01-01 00:00:00 UTC), in place of Foundation's
    floating-point `Date`. */
module DateUtil {
  import opened Wrappers

  type Time = int

  const MicrosPerSecond: nat := 1_000_000
  const MicrosPerHour: nat := 3600 * MicrosPerSecond

  /** The whole second a time falls in (calendar components drop the
      sub-second part, so this is the floor for times before the
      reference date too). */
  function WholeSeconds(t: Time): (s: int)
    ensures s * MicrosPerSecond <= t < (s + 1) * MicrosPerSecond
  {
    t / MicrosPerSecond
  }

  /* ---------------------------------------------------------------------
     Index arithmetic
     --------------------------------------------------------------------- */

  /** Swift's `%` on integers: the remainder takes the sign of the
      dividend (truncating division). */
  function SwiftRem(a: int, b: int): (r: int)
    requires b > 0
    ensures a >= 0 ==> r == a % b
    ensures a < 0 ==> -b < r <= 0 && (a - r) % b == 0
  {
    if a >= 0 then a % b
    else
      var q := (-a) / b;
      assert a + (-a) % b == b * -q;
      RemUnique(a + (-a) % b, b, -q, 0);
      -((-a) % b)
  }

  /** The Euclidean remainder is the only one: `x == b * q + m` with
      `0 <= m < b` fixes `x % b` as `m`. */
  lemma RemUnique(x: int, b: int, q: int, m: int)
    requires b > 0 && 0 <= m < b && x == b * q + m
    ensures x % b == m
  {
    var q', m' := x / b, x % b;
    assert x == b * q' + m';
    Distributes(b, q, q');
    SmallMultiple(b, q - q', m' - m);
  }

  lemma Distributes(b: int, q: int, q': int)
    ensures b * q - b * q' == b * (q - q')
  {
  }

  /** A multiple of `b` strictly between `-b` and `b` is zero. */
  lemma SmallMultiple(b: int, t: int, d: int)
    requires b > 0 && -b < d < b && b * t == d
    ensures t == 0
  {
    MultipleBeyond(b, t);
  }

  lemma MultipleBeyond(b: int, t: int)
    requires b > 0
    ensures t >= 1 ==> b * t >= b
    ensures t <= -1 ==> b * t <= -b
  {
    if t >= 1 {
      assert b * t == b + b * (t - 1);
    } else if t <= -1 {
      assert b * t == -b + b * (t + 1);
    }
  }

  /** `month_0`: the month index counted from zero. */
  function Month0(month: int): int {
    month - 1
  }

  /** `day_0`: the day of the month counted from zero. */
  function Day0(day: int): int {
    day - 1
  }

  /** `weekday_0M`: turns the calendar's weekday (1 is Sunday ... 7 is
      Saturday) into a Monday-first index. */
  function Weekday0M(weekday: int): int {
    SwiftRem(weekday - 2 + 7, 7)
  }

  /** `month_0` maps the months 1..12 one-to-one onto 0..11. */
  lemma Month0Range(month: int)
    ensures 1 <= month <= 12 <==> 0 <= Month0(month) <= 11
    ensures forall m' :: Month0(m') == Month0(month) ==> m' == month
  {
  }

  /** `day_0` maps the days 1..31 one-to-one onto 0..30. */
  lemma Day0Range(day: int)
    ensures 1 <= day <= 31 <==> 0 <= Day0(day) <= 30
    ensures forall d' :: Day0(d') == Day0(day) ==> d' == day
  {
  }

  /** On the calendar's weekdays, `weekday_0M` is a bijection onto 0..6
      with Monday first and Sunday last, and each next weekday gets the
      next index (Saturday wrapping to Sunday). */
  lemma Weekday0MBijection(weekday: int)
    requires 1 <= weekday <= 7
    ensures 0 <= Weekday0M(weekday) <= 6
    ensures Weekday0M(weekday) == (if weekday == 1 then 6 else weekday - 2)
    ensures forall w' :: 1 <= w' <= 7 && Weekday0M(w') == Weekday0M(weekday) ==> w' == weekday
    ensures Weekday0M(if weekday == 7 then 1 else weekday + 1) == (Weekday0M(weekday) + 1) % 7
  {
  }

  /** Outside the calendar's range the truncating `%` shows: far enough
      below 1 the index turns negative. */
  lemma Weekday0MBelowRange()
    ensures Weekday0M(-6) == -1
  {
  }

  /* ---------------------------------------------------------------------
     Weekday symbols
     --------------------------------------------------------------------- */

  /** `weekdaySymbols_M0`: the calendar's weekday names (Sunday first)
      with the first one moved to the end. The source force-unwraps the
      first element, so an empty list traps. */
  function WeekdaySymbolsM0(symbols: seq<string>): (r: seq<string>)
    requires |symbols| >= 1
    ensures r == symbols[1..] + [symbols[0]]
  {
    var appended := symbols + [symbols[0]];
    appended[1..]
  }

  /** The Monday-first list is the input rotated left by one: same length,
      same names, element `i` taken from position `i + 1` (wrapping). */
  lemma {:induction false} WeekdaySymbolsRotation(symbols: seq<string>)
    requires |symbols| >= 1
    ensures |WeekdaySymbolsM0(symbols)| == |symbols|
    ensures forall i :: 0 <= i < |symbols| ==> WeekdaySymbolsM0(symbols)[i] == symbols[(i + 1) % |symbols|]
    ensures multiset(WeekdaySymbolsM0(symbols)) == multiset(symbols)
  {
    var n := |symbols|;
    var r := WeekdaySymbolsM0(symbols);
    forall i | 0 <= i < n
      ensures r[i] == symbols[(i + 1) % n]
    {
      RotationAt(symbols, i);
    }
    assert multiset(r) == multiset(symbols) by {
      assert symbols == [symbols[0]] + symbols[1..];
    }
  }

  lemma {:induction false} RotationAt(symbols: seq<string>, i: int)
    requires 0 <= i < |symbols|
    ensures WeekdaySymbolsM0(symbols)[i] == symbols[(i + 1) % |symbols|]
  {
    var n := |symbols|;
    SuccessorMod(i, n);
    if i < n - 1 {
      assert WeekdaySymbolsM0(symbols)[i] == symbols[i + 1];
    } else {
      assert WeekdaySymbolsM0(symbols)[i] == symbols[0];
    }
  }

  lemma SuccessorMod(i: int, n: int)
    requires 0 <= i < n
    ensures (i + 1) % n == if i < n - 1 then i + 1 else 0
  {
  }

  /** With the seven Sunday-first names, Monday comes first and Sunday
      last. */
  lemma WeekdaySymbolsMondayFirst(symbols: seq<string>)
    requires |symbols| == 7
    ensures WeekdaySymbolsM0(symbols)[0] == symbols[1]
    ensures WeekdaySymbolsM0(symbols)[6] == symbols[0]
    ensures WeekdaySymbolsM0(symbols)[Weekday0M(2)] == symbols[1]
  {
    assert Weekday0M(2) == 0;
  }

  /** The Monday-first names are indexed by `weekday_0M`: the name of the
      calendar weekday `w` sits at index `weekday_0M(w)`. */
  lemma {:induction false} WeekdaySymbolsIndexedByWeekday0M(symbols: seq<string>, weekday: int)
    requires |symbols| == 7 && 1 <= weekday <= 7
    ensures 0 <= Weekday0M(weekday) < 7
    ensures WeekdaySymbolsM0(symbols)[Weekday0M(weekday)] == symbols[weekday - 1]
  {
    Weekday0MBijection(weekday);
    var i := Weekday0M(weekday);
    assert (i + 1) % 7 == weekday - 1;
  }

  /* ---------------------------------------------------------------------
     Date intervals
     --------------------------------------------------------------------- */

  /** Foundation's `DateInterval`: a start and an end that is not before
      it (the initializer traps otherwise). */
  datatype DateInterval = DateInterval(start: Time, end: Time) {
    function Duration(): int {
      end - start
    }
  }

  type Interval = i: DateInterval | i.start <= i.end witness DateInterval(0, 0)

  function Max(a: int, b: int): int {
    if a >= b then a else b
  }

  function Min(a: int, b: int): int {
    if a <= b then a else b
  }

  /** Foundation's `intersection(with:)`: the common part, when there is
      one (two intervals that only touch share one instant). */
  function Intersection(a: Interval, b: Interval): (r: Option<Interval>)
    ensures r.Some? <==> a.start <= b.end && b.start <= a.end
    ensures r.Some? ==> forall t :: InInterval(r.value, t) <==> InInterval(a, t) && InInterval(b, t)
  {
    var s := Max(a.start, b.start);
    var e := Min(a.end, b.end);
    if s <= e then Some(DateInterval(s, e)) else None
  }

  predicate InInterval(i: Interval, t: Time) {
    i.start <= t <= i.end
  }

  predicate Contains(outer: Interval, inner: Interval) {
    outer.start <= inner.start && inner.end <= outer.end
  }

  /** `fullyOverlaps(with:)`: the intersection is as long as the shorter
      of the two intervals. */
  predicate FullyOverlaps(a: Interval, b: Interval) {
    match Intersection(a, b)
    case Some(i) => i.Duration() >= Min(a.Duration(), b.Duration())
    case None => false
  }

  /** `partiallyOverlaps(with:)`: the intersection lasts a positive time. */
  predicate PartiallyOverlaps(a: Interval, b: Interval) {
    match Intersection(a, b)
    case Some(i) => i.Duration() > 0
    case None => false
  }

  /** `durationHours`: the whole hours of the duration, rounded down. */
  function DurationHours(i: Interval): (h: int)
    ensures h >= 0
    ensures h * MicrosPerHour <= i.Duration() < (h + 1) * MicrosPerHour
  {
    i.Duration() / MicrosPerHour
  }

  /** `isInTheFuture`, with the clock reading passed in. */
  predicate IsInTheFuture(i: Interval, now: Time) {
    i.start > now
  }

  /** Full overlap means that one interval lies inside the other, and it
      does not depend on the order of the two. */
  lemma FullyOverlapsIsContainment(a: Interval, b: Interval)
    ensures FullyOverlaps(a, b) <==> Contains(a, b) || Contains(b, a)
    ensures FullyOverlaps(a, b) == FullyOverlaps(b, a)
  {
    if Contains(a, b) || Contains(b, a) {
      assert Intersection(a, b).Some?;
    }
  }

  /** Partial overlap means that the two intervals share more than an
      instant: touching or disjoint intervals do not overlap partially. It
      does not depend on the order of the two. */
  lemma PartiallyOverlapsIsProperIntersection(a: Interval, b: Interval)
    ensures PartiallyOverlaps(a, b) <==> Max(a.start, b.start) < Min(a.end, b.end)
    ensures PartiallyOverlaps(a, b) == PartiallyOverlaps(b, a)
    ensures a.end == b.start ==> !PartiallyOverlaps(a, b)
  {
  }

  /** Between intervals of positive length, full overlap implies partial
      overlap; for an empty interval it does not. */
  lemma FullyImpliesPartially(a: Interval, b: Interval)
    requires a.Duration() > 0 && b.Duration() > 0
    ensures FullyOverlaps(a, b) ==> PartiallyOverlaps(a, b)
  {
    FullyOverlapsIsContainment(a, b);
  }

  lemma FullyWithoutPartiallyForEmpty()
    ensures FullyOverlaps(DateInterval(5, 5), DateInterval(0, 10))
    ensures !PartiallyOverlaps(DateInterval(5, 5), DateInterval(0, 10))
  {
  }

  /** An interval in the future has not started: no instant up to `now`
      lies in it. */
  lemma InTheFutureHasNotStarted(i: Interval, now: Time)
    ensures IsInTheFuture(i, now) <==> forall t :: InInterval(i, t) ==> t > now
  {
    if !IsInTheFuture(i, now) {
      assert InInterval(i, i.start);
    }
  }
}
