/** The synthetic provider: a function of the zip and the hour. */
module MockGrid {
  import opened Clock
  import opened Window

  /** FNV-1a of "zip|unix seconds", as a parameter: any 64-bit hash will do. */
  type Hash64 = x: int | 0 <= x < 0x1_0000_0000_0000_0000

  type HashFn = (string, int) -> Hash64

  const HOURLY_BASE: seq<real> := [
    180.0, 160.0, 145.0, 135.0, 130.0, 140.0,
    180.0, 220.0, 260.0, 280.0, 300.0, 310.0,
    280.0, 240.0, 210.0, 230.0, 270.0, 320.0,
    380.0, 400.0, 370.0, 320.0, 260.0, 210.0]

  const SLOTS: int := 24

  function NextHour(now: int): int {
    HourOf(now) + HOUR
  }

  /** The top 53 bits of the hash, scaled to an offset between -30 and 30. */
  function Jitter(hash: HashFn, zip: string, slot: int): real {
    ((hash(zip, slot / SECOND) / 2048) as real / 9007199254740992.0 - 0.5) * 60.0
  }

  function Base(slot: int): real {
    HOURLY_BASE[(slot / HOUR) % 24]
  }

  function MockSlot(hash: HashFn, zip: string, slot: int): Slot {
    var raw := Base(slot) + Jitter(hash, zip, slot);
    Slot(slot, Round1(if raw < 50.0 then 50.0 else raw))
  }

  /** The forecast given at `now`: the 24 hours from the next whole one. */
  function MockForecast(hash: HashFn, zip: string, now: int): (f: seq<Slot>)
    ensures |f| == SLOTS
  {
    seq(SLOTS, i => MockSlot(hash, zip, NextHour(now) + i * HOUR))
  }

  class MockProvider {
    const hash: HashFn

    constructor (hash: HashFn)
      ensures this.hash == hash
    {
      this.hash := hash;
    }

    method GetForecast(zip: string, now: int) returns (forecast: array<Slot>)
      ensures fresh(forecast) && forecast[..] == MockForecast(hash, zip, now) && forecast.Length == 24
    {
      var first := NextHour(now);
      forecast := new Slot[SLOTS](_ => Slot(0, 0.0));
      ghost var f := MockForecast(hash, zip, now);
      for i := 0 to SLOTS
        invariant forall j :: 0 <= j < i ==> forecast[j] == f[j]
      {
        var slotTime := first + i * HOUR;
        assert f[i] == MockSlot(hash, zip, slotTime);
        var intensity := Base(slotTime) + Jitter(hash, zip, slotTime);
        forecast[i] := Slot(slotTime, Round1(if intensity < 50.0 then 50.0 else intensity));
      }
    }
  }

  /** The offset stays within 30, so the floor of 50 never takes effect: intensities lie in [100, 430]. */
  lemma MockIntensityRange(hash: HashFn, zip: string, slot: int)
    ensures 50.0 < Base(slot) + Jitter(hash, zip, slot)
    ensures 100.0 <= MockSlot(hash, zip, slot).intensity <= 430.0
  {
    var x := (hash(zip, slot / SECOND) / 2048) as real / 9007199254740992.0;
    assert 0.0 <= x < 1.0;
    assert -30.0 <= Jitter(hash, zip, slot) <= 30.0;
    assert 130.0 <= Base(slot) <= 400.0;
    RoundMonotone(100.0, Base(slot) + Jitter(hash, zip, slot));
    RoundMonotone(Base(slot) + Jitter(hash, zip, slot), 430.0);
    assert Round1(100.0) == 100.0 && Round1(430.0) == 430.0;
  }

  /** Every slot is still ahead, in order, one hour after the other. */
  lemma MockIsUpcoming(hash: HashFn, zip: string, now: int)
    ensures var f := MockForecast(hash, zip, now);
            Increasing(f) && UpcomingSlots(f, now) == f && forall i :: 0 <= i < |f| ==> now < f[i].time
    ensures var first := MockForecast(hash, zip, now)[0].time;
            && now < first <= now + 60 * MINUTE && first % (60 * MINUTE) == 0
            && forall i :: 0 <= i < 24 ==> MockForecast(hash, zip, now)[i].time == first + i * (60 * MINUTE)
  {
    var f, first := MockForecast(hash, zip, now), NextHour(now);
    MockTimes(hash, zip, now);
    UpcomingIsSuffix(f, now);
    assert f[0].time == first > now;
    assert Dropped(f, now) == 0;
  }

  lemma MockTimes(hash: HashFn, zip: string, now: int)
    ensures forall i :: 0 <= i < SLOTS ==> MockForecast(hash, zip, now)[i].time == NextHour(now) + i * HOUR
  {
  }

  /** Two calls agree exactly when they fall into the same hour. */
  lemma MockDependsOnHour(hash: HashFn, zip: string, a: int, b: int)
    ensures MockForecast(hash, zip, a) == MockForecast(hash, zip, b) <==> HourOf(a) == HourOf(b)
  {
    assert MockForecast(hash, zip, a)[0].time == NextHour(a);
    assert MockForecast(hash, zip, b)[0].time == NextHour(b);
  }

  // ----- the curve and its offsets

  /** Every slot lies within 30 of the typical intensity of its hour of the day, but for rounding. */
  lemma MockFollowsTheDay(hash: HashFn, zip: string, day: int, hour: nat)
    requires hour < 24
    ensures var typical := [180.0, 160.0, 145.0, 135.0, 130.0, 140.0, 180.0, 220.0, 260.0, 280.0, 300.0, 310.0,
                            280.0, 240.0, 210.0, 230.0, 270.0, 320.0, 380.0, 400.0, 370.0, 320.0, 260.0, 210.0];
            typical[hour] - 30.05 <= MockSlot(hash, zip, (day * 24 + hour) * HOUR).intensity <= typical[hour] + 30.05
  {
    var slot := (day * 24 + hour) * HOUR;
    assert slot / HOUR == day * 24 + hour;
    assert (day * 24 + hour) % 24 == hour;
    JitterSpans(hash, zip, slot);
    MockIntensityRange(hash, zip, slot);
    RoundIsNearest(Base(slot) + Jitter(hash, zip, slot));
  }

  /** The offset is linear in the top 53 bits of the hash: -30 at none, 0 at half, and below 30. */
  lemma JitterSpans(hash: HashFn, zip: string, slot: int)
    ensures -30.0 <= Jitter(hash, zip, slot) < 30.0
    ensures (Jitter(hash, zip, slot) + 30.0) * 0x20_0000_0000_0000 as real == 60.0 * (hash(zip, slot / 1_000_000_000) / 0x800) as real
  {
    var top := hash(zip, slot / SECOND) / 2048;
    assert 0 <= top < 9007199254740992;
    var x := top as real / 9007199254740992.0;
    assert 0.0 <= x < 1.0 && x * 9007199254740992.0 == top as real;
  }
}
