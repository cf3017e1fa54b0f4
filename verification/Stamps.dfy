/** Stamps: how they are made, compared, believed and named. */
module Stamps {
  import opened Basics

  /** A machine. Endpoint ids are only ever compared. */
  type Id = nat

  /** Five minutes, the most by which clocks are taken to differ. */
  const MAX_DRIFT_MILLIS: nat := 300_000

  const NANOS_PER_MILLI: nat := 1_000_000

  const NANOS_PER_SEC: nat := 1_000_000_000

  datatype Stamp = Stamp(millis: nat, origin: Id)

  /** Whole milliseconds of a reading in nanoseconds since the epoch; zero for
      one before it. */
  function WallMillis(now: int): (millis: nat)
  {
    if now < 0 then 0 else now / NANOS_PER_MILLI
  }

  /** The reading a stamp stands for, in nanoseconds. */
  function TimeOf(s: Stamp): int { s.millis * NANOS_PER_MILLI }

  predicate Less(a: Stamp, b: Stamp) {
    a.millis < b.millis || (a.millis == b.millis && a.origin < b.origin)
  }

  /** The order of `Option<Stamp>`: nothing comes before everything. */
  predicate Lt(a: Option<Stamp>, b: Option<Stamp>) {
    b.Some? && (a.None? || Less(a.value, b.value))
  }

  predicate Le(a: Option<Stamp>, b: Option<Stamp>) { a == b || Lt(a, b) }

  /** A stamp of `origin` above `last`, at the time of the clock if that does. */
  function Next(last: Option<Stamp>, origin: Id, now: int): (s: Stamp)
    ensures Lt(last, Some(s)) && s.origin == origin && WallMillis(now) <= s.millis
    ensures s.millis > WallMillis(now) ==> last.Some? && s.millis == last.value.millis + 1
  {
    var after := if last.None? then 0 else last.value.millis + 1;
    Stamp(Max(WallMillis(now), after), origin)
  }

  /** What whole milliseconds are. */
  lemma WallMillisExactly(now: int)
    ensures now < 0 ==> WallMillis(now) == 0
    ensures 0 <= now ==> WallMillis(now) * 1_000_000 <= now < (WallMillis(now) + 1) * 1_000_000
  {}

  /** A new stamp says what the clock says, unless the one before it is not
      behind: then it is one millisecond past that one. */
  lemma NextReadsTheClock(last: Option<Stamp>, origin: Id, now: int)
    ensures var s := Next(last, origin, now);
            if last.Some? && WallMillis(now) <= last.value.millis then s == Stamp(last.value.millis + 1, origin)
            else s == Stamp(WallMillis(now), origin)
  {}

  /** Believed is what is at most five minutes ahead of a clock that is not
      before the epoch. */
  lemma PlausibleExactly(s: Stamp, now: int)
    requires 0 <= now
    ensures Plausible(s, now) <==> s.millis * 1_000_000 <= now + 300_000_000_000
  {
    WallMillisExactly(now);
  }

  // ------------------------------------------------------- names on disk

  const DASH: Byte := 45

  function Decimal(n: nat): (digits: Bytes)
    ensures digits != [] && forall b :: b in digits ==> 48 <= b <= 57
  {
    if n < 10 then [48 + n] else Decimal(n / 10) + [48 + n % 10]
  }

  /** What a stamp is called as part of a path. */
  function StampName(s: Stamp): Bytes { Decimal(s.millis) + [DASH] + Decimal(s.origin) }

  lemma {:induction false} DecimalsDiffer(m: nat, n: nat)
    requires Decimal(m) == Decimal(n)
    ensures m == n
  {
    var digits := Decimal(m);
    assert digits[|digits| - 1] == 48 + m % 10 && digits[|digits| - 1] == 48 + n % 10;
    if m >= 10 && n >= 10 {
      assert digits[..|digits| - 1] == Decimal(m / 10) && digits[..|digits| - 1] == Decimal(n / 10);
      DecimalsDiffer(m / 10, n / 10);
    }
  }

  /** No two stamps go by one name. */
  lemma StampNamesDiffer(a: Stamp, b: Stamp)
    requires StampName(a) == StampName(b)
    ensures a == b
  {
    SplitOnce(Decimal(a.millis), Decimal(a.origin), Decimal(b.millis), Decimal(b.origin), DASH);
    DecimalsDiffer(a.millis, b.millis);
    DecimalsDiffer(a.origin, b.origin);
  }

  /** A stamp at most the drift ahead of a reading. */
  predicate Plausible(s: Stamp, now: int) {
    s.millis <= WallMillis(now) + MAX_DRIFT_MILLIS
  }

  /** Stamps are totally ordered, so every machine picks the same newest one. */
  lemma OrderIsTotal(a: Stamp, b: Stamp, c: Stamp)
    ensures Less(a, b) || Less(b, a) || a == b
    ensures !(Less(a, b) && Less(b, a))
    ensures Less(a, b) && Less(b, c) ==> Less(a, c)
  {}

  lemma OptionOrder(a: Option<Stamp>, b: Option<Stamp>)
    ensures Le(a, b) <==> !Lt(b, a)
  {
    if a.Some? && b.Some? { OrderIsTotal(a.value, b.value, a.value); }
  }

  /** The order of heads is an order. */
  lemma HeadsAreOrdered(a: Option<Stamp>, b: Option<Stamp>, c: Option<Stamp>)
    ensures Le(a, b) && Le(b, c) ==> Le(a, c)
    ensures Le(a, b) && Lt(b, c) ==> Lt(a, c)
    ensures Lt(a, b) && Le(b, c) ==> Lt(a, c)
    ensures Lt(a, b) ==> a != b
    ensures Le(a, b) && Le(b, a) ==> a == b
  {
    if a.Some? && b.Some? && c.Some? { OrderIsTotal(a.value, b.value, c.value); }
    if a.Some? && b.Some? { OrderIsTotal(a.value, b.value, a.value); }
  }
}
