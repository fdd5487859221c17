/** Instants, durations and the integer arithmetic Go applies to them. */
module GoTime {
  /** Nanoseconds since the Unix epoch, unbounded. */
  type Time = int
  type Duration = int

  const SECOND: Duration := 1_000_000_000
  const MIN_INT64: int := -0x8000_0000_0000_0000
  const MAX_INT64: int := 0x7FFF_FFFF_FFFF_FFFF

  /** Go's zero time, 1 January of year 1: what the cron library returns when no instant matches. */
  const ZERO_TIME: Time := -62_135_596_800 * SECOND

  /** Time.Sub saturates instead of overflowing. */
  function Sub(t: Time, u: Time): (d: Duration)
    ensures MIN_INT64 <= d <= MAX_INT64
    ensures MIN_INT64 <= t - u <= MAX_INT64 ==> u + d == t
    ensures t <= u <==> d <= 0
    ensures t - u > MAX_INT64 ==> d == MAX_INT64
    ensures t - u < MIN_INT64 ==> d == MIN_INT64
  {
    if t - u < MIN_INT64 then MIN_INT64 else if t - u > MAX_INT64 then MAX_INT64 else t - u
  }

  /** Two's complement wrap-around to 64 bits. */
  function Wrap64(x: int): (w: int)
    ensures MIN_INT64 <= w <= MAX_INT64
    ensures MIN_INT64 <= x <= MAX_INT64 ==> w == x
    ensures (x - w) % 0x1_0000_0000_0000_0000 == 0
  {
    (x - MIN_INT64) % 0x1_0000_0000_0000_0000 + MIN_INT64
  }

  /** Time.UnixNano wraps for instants that do not fit in an int64. */
  function UnixNano(t: Time): int { Wrap64(t) }

  /** Go's integer division truncates toward zero. */
  function Quot(a: int, b: int): (q: int)
    requires b > 0
    ensures a >= 0 ==> 0 <= a - b * q < b
    ensures a < 0 ==> -b < a - b * q <= 0
  {
    if a >= 0 then a / b else -((-a) / b)
  }

  /** The millisecond conversion of log records: nanoseconds / 1000 / 1000. */
  function Millis(t: Time): int { Quot(Quot(UnixNano(t), 1000), 1000) }

  lemma DivDiv(a: nat)
    ensures a / 1000 / 1000 == a / 1_000_000
  {
    var q, r := a / 1_000_000, a % 1_000_000;
    assert a == 1000 * (1000 * q + r / 1000) + r % 1000;
    assert a / 1000 == 1000 * q + r / 1000;
  }

  /** Two truncating divisions by 1000 are one by 1000000, for negative values too. */
  lemma TwoDivisions(a: int)
    ensures Quot(Quot(a, 1000), 1000) == Quot(a, 1_000_000)
  {
    if a >= 0 {
      DivDiv(a);
    } else {
      DivDiv(-a);
    }
  }

  /** What a number of milliseconds in a log record says of an instant: for one since the epoch,
      the milliseconds that have passed completely; for the zero time, whose nanoseconds do not
      fit in an int64, what is left of them. */
  predicate IsMillis(ms: int, t: Time) {
    && (0 <= t <= MAX_INT64 ==> 1_000_000 * ms <= t < 1_000_000 * (ms + 1))
    && (t == ZERO_TIME ==> ms == -6_795_364_578_871)
  }

  lemma MillisMeaning(t: Time)
    ensures IsMillis(Millis(t), t)
  {
    TwoDivisions(UnixNano(t));
    if t == ZERO_TIME {
      assert UnixNano(t) == -6_795_364_578_871_345_152;
    }
  }

  lemma QuotMonotone(a: int, b: int, d: int)
    requires a <= b && d > 0
    ensures Quot(a, d) <= Quot(b, d)
  {
    if 0 <= a {
      DivMonotone(a, b, d);
    } else if b < 0 {
      DivMonotone(-b, -a, d);
    } else {
      DivMonotone(0, b, d);
      DivMonotone(0, -a, d);
    }
  }

  lemma DivMonotone(a: nat, b: nat, d: int)
    requires a <= b && d > 0
    ensures 0 <= a / d <= b / d
  {
    var qa, qb := a / d, b / d;
    assert a == d * qa + a % d && b == d * qb + b % d;
    assert qb < qa ==> d * (qb + 1) <= d * qa;
  }

  /** Order survives the conversion to milliseconds. The zero time does not fit in an int64;
      its wrapped value still sorts before every instant since the epoch. */
  lemma MillisOrdered(t: Time, u: Time)
    requires t <= u
    requires t == ZERO_TIME || MIN_INT64 <= t
    requires u == t || 0 <= u <= MAX_INT64
    ensures Millis(t) <= Millis(u)
  {
    assert UnixNano(ZERO_TIME) < 0;
    QuotMonotone(UnixNano(t), UnixNano(u), 1000);
    QuotMonotone(Quot(UnixNano(t), 1000), Quot(UnixNano(u), 1000), 1000);
  }
}
