/** One UTC clock, in nanoseconds from an hour-aligned epoch. */
module Clock {
  const SECOND: int := 1_000_000_000
  const MINUTE: int := 60_000_000_000
  const HOUR: int := 3_600_000_000_000

  /** `t.Truncate(time.Hour)`: the start of the hour holding t. */
  function HourOf(t: int): (h: int)
    ensures h <= t < h + HOUR && h % HOUR == 0
  {
    t - t % HOUR
  }

  /** `t.Truncate(time.Minute)`: the start of the minute holding t. */
  function MinuteOf(t: int): (m: int)
    ensures m <= t < m + MINUTE && m % MINUTE == 0
  {
    t - t % MINUTE
  }

  /** Two aligned instants less than one period apart are equal. */
  lemma AlignedClose(a: int, b: int, d: int)
    requires d > 0 && a % d == 0 && b % d == 0 && -d < a - b < d
    ensures a == b
  {
    assert a == d * (a / d) && b == d * (b / d);
    var q := a / d - b / d;
    assert a - b == d * q by { assert d * (a / d - b / d) == d * (a / d) - d * (b / d); }
    assert q >= 1 ==> d * q >= d;
    assert q <= -1 ==> d * q <= -d;
  }

  /** HourOf is the only hour start at or before t and less than an hour away. */
  lemma HourUnique(t: int, h: int)
    requires h % HOUR == 0 && h <= t < h + HOUR
    ensures HourOf(t) == h
  {
    AlignedClose(HourOf(t), h, HOUR);
  }

  lemma MinuteUnique(t: int, m: int)
    requires m % MINUTE == 0 && m <= t < m + MINUTE
    ensures MinuteOf(t) == m
  {
    AlignedClose(MinuteOf(t), m, MINUTE);
  }
}
