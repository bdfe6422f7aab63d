/** The sliding window, proved against a comparison of every window with every other. */
module Window {
  import opened Wrappers
  import opened Clock

  datatype Slot = Slot(time: int, intensity: real)

  datatype OptimalWindow = OptimalWindow(start: int, end: int, average: real, appliance: string, provider: string)

  datatype WindowError = NeedsHours(have: int, hours: real) | NeedsSlots(have: int, slots: int)

  // ----- rounding

  function Ceil(x: real): int {
    -((-x).Floor)
  }

  /** math.Round: half away from zero. */
  function Round(x: real): int {
    if x >= 0.0 then (x + 0.5).Floor else -((-x + 0.5).Floor)
  }

  /** math.Round(x*10)/10 */
  function Round1(x: real): real {
    Round(x * 10.0) as real / 10.0
  }

  lemma FloorMonotone(x: real, y: real)
    requires x <= y
    ensures x.Floor <= y.Floor
  {
  }

  lemma RoundMonotone(x: real, y: real)
    requires x <= y
    ensures Round1(x) <= Round1(y)
  {
    var a, b := x * 10.0, y * 10.0;
    if a >= 0.0 {
      FloorMonotone(a + 0.5, b + 0.5);
    } else if b < 0.0 {
      FloorMonotone(-b + 0.5, -a + 0.5);
    }
  }

  /** Values that round alike are less than a tenth apart. */
  lemma RoundTogether(x: real, y: real)
    requires Round1(x) == Round1(y)
    ensures x - y < 0.1
  {
    assert Round(x * 10.0) == Round(y * 10.0);
  }

  /** What rounding gives: the nearest tenth, and of two equally near the one farther from zero. */
  lemma RoundIsNearest(x: real)
    ensures (Round1(x) * 10.0).Floor as real == Round1(x) * 10.0
    ensures -0.05 <= Round1(x) - x <= 0.05
    ensures Round1(x) - x == 0.05 ==> x >= 0.0
    ensures Round1(x) - x == -0.05 ==> x <= 0.0
  {
    assert Round1(x) * 10.0 == Round(x * 10.0) as real;
  }

  // ----- windows

  function WindowSum(f: seq<Slot>, i: nat, n: nat): real
    requires i + n <= |f|
  {
    if n == 0 then 0.0 else WindowSum(f, i, n - 1) + f[i + n - 1].intensity
  }

  lemma {:induction false} Slide(f: seq<Slot>, i: nat, n: nat)
    requires i + n < |f|
    ensures WindowSum(f, i + 1, n) == WindowSum(f, i, n) - f[i].intensity + f[i + n].intensity
  {
    if n > 0 {
      Slide(f, i, n - 1);
    }
  }

  /** The window starting at m has the least sum of all windows of n slots, and no earlier one ties with it. */
  ghost predicate IsBest(f: seq<Slot>, n: nat, m: nat) {
    && n >= 1 && m + n <= |f|
    && (forall j: nat :: j + n <= |f| ==> WindowSum(f, m, n) <= WindowSum(f, j, n))
    && (forall j: nat :: j < m ==> WindowSum(f, m, n) < WindowSum(f, j, n))
  }

  /** The duration rounded up to whole slots, at least one. */
  function SlotCount(duration: real): (n: int)
    ensures n >= 1 && duration <= n as real && (n > 1 ==> (n - 1) as real < duration)
  {
    if Ceil(duration) < 1 then 1 else Ceil(duration)
  }

  function WindowAt(f: seq<Slot>, m: nat, n: nat, appliance: string, provider: string): OptimalWindow
    requires n >= 1 && m + n <= |f|
  {
    OptimalWindow(f[m].time, f[m + n - 1].time + HOUR, Round1(WindowSum(f, m, n) / n as real), appliance, provider)
  }

  /** What the search answers: the earliest best window, or an error when the forecast is too short. */
  ghost predicate IsAnswer(f: seq<Slot>, duration: real, appliance: string, provider: string, r: Result<OptimalWindow, WindowError>) {
    var n := SlotCount(duration);
    && (r.Err? <==> |f| < n)
    && (r.Ok? ==> exists m :: IsBest(f, n, m) && r.value == WindowAt(f, m, n, appliance, provider))
  }

  method FindOptimalWindow(forecast: seq<Slot>, durationHours: real, applianceName: string)
    returns (r: Result<OptimalWindow, WindowError>)
    ensures IsAnswer(forecast, durationHours, applianceName, "", r)
    ensures r.Ok? ==> exists m, n :: SpelledOut(forecast, durationHours, applianceName, "", r.value, m, n)
    ensures r.Err? ==> r.error == if durationHours > |forecast| as real then NeedsHours(|forecast|, durationHours)
                                  else NeedsSlots(|forecast|, SlotCount(durationHours))
  {
    if durationHours > |forecast| as real {
      return Err(NeedsHours(|forecast|, durationHours));
    }
    var windowSize := Ceil(durationHours);
    if windowSize < 1 {
      windowSize := 1;
    }
    if |forecast| < windowSize {
      return Err(NeedsSlots(|forecast|, windowSize));
    }

    var windowSum := 0.0;
    for i := 0 to windowSize
      invariant windowSum == WindowSum(forecast, 0, i)
    {
      windowSum := windowSum + forecast[i].intensity;
    }

    var minSum := windowSum;
    var minStartIdx := 0;
    for i := 1 to |forecast| - windowSize + 1
      invariant windowSum == WindowSum(forecast, i - 1, windowSize)
      invariant minStartIdx < i && minSum == WindowSum(forecast, minStartIdx, windowSize)
      invariant forall j: nat :: j < i ==> minSum <= WindowSum(forecast, j, windowSize)
      invariant forall j: nat :: j < minStartIdx ==> minSum < WindowSum(forecast, j, windowSize)
    {
      Slide(forecast, i - 1, windowSize);
      windowSum := windowSum - forecast[i - 1].intensity;
      windowSum := windowSum + forecast[i + windowSize - 1].intensity;
      if windowSum < minSum {
        minSum := windowSum;
        minStartIdx := i;
      }
    }

    assert IsBest(forecast, windowSize, minStartIdx);
    var avgIntensity := Round1(minSum / windowSize as real);
    var endSlot := forecast[minStartIdx + windowSize - 1].time + HOUR;
    r := Ok(OptimalWindow(forecast[minStartIdx].time, endSlot, avgIntensity, applianceName, ""));
    assert r.value == WindowAt(forecast, minStartIdx, windowSize, applianceName, "");
    AnswerSpelledOut(forecast, durationHours, applianceName, "", r);
  }

  // ----- the answer, spelled out

  /** The sum of a window lies between its slot count times its least and its greatest slot. */
  lemma {:induction false} SumWithin(f: seq<Slot>, i: nat, n: nat, lo: real, hi: real)
    requires i + n <= |f| && forall j :: i <= j < i + n ==> lo <= f[j].intensity <= hi
    ensures n as real * lo <= WindowSum(f, i, n) <= n as real * hi
  {
    if n > 0 {
      SumWithin(f, i, n - 1, lo, hi);
      assert n as real * lo == (n - 1) as real * lo + lo && n as real * hi == (n - 1) as real * hi + hi;
    }
  }

  /** The window reported runs from the start of its first slot to an hour after the start of its last. */
  ghost predicate SpelledOut(f: seq<Slot>, duration: real, appliance: string, provider: string, w: OptimalWindow, m: nat, n: nat) {
    && n >= 1 && duration <= n as real && (n > 1 ==> (n - 1) as real < duration)
    && m + n <= |f|
    && w.start == f[m].time && w.end == f[m + n - 1].time + 60 * MINUTE
    && w.appliance == appliance && w.provider == provider
    && -0.05 <= w.average - WindowSum(f, m, n) / n as real <= 0.05
    && (forall j: nat :: j + n <= |f| ==> WindowSum(f, m, n) <= WindowSum(f, j, n))
    && (forall j: nat :: j < m ==> WindowSum(f, m, n) < WindowSum(f, j, n))
  }

  lemma AnswerSpelledOut(f: seq<Slot>, duration: real, appliance: string, provider: string, r: Result<OptimalWindow, WindowError>)
    requires IsAnswer(f, duration, appliance, provider, r) && r.Ok?
    ensures exists m, n :: SpelledOut(f, duration, appliance, provider, r.value, m, n)
  {
    var n := SlotCount(duration);
    var m :| IsBest(f, n, m) && r.value == WindowAt(f, m, n, appliance, provider);
    RoundIsNearest(WindowSum(f, m, n) / n as real);
    assert SpelledOut(f, duration, appliance, provider, r.value, m, n);
  }

  /** The average reported is no more than a twentieth outside the range of the slots it is taken over. */
  lemma AverageWithinSlots(f: seq<Slot>, duration: real, appliance: string, provider: string, r: Result<OptimalWindow, WindowError>,
                           lo: real, hi: real)
    requires IsAnswer(f, duration, appliance, provider, r) && r.Ok?
    requires forall j :: 0 <= j < |f| ==> lo <= f[j].intensity <= hi
    ensures lo - 0.05 <= r.value.average <= hi + 0.05
  {
    var n := SlotCount(duration);
    var m :| IsBest(f, n, m) && r.value == WindowAt(f, m, n, appliance, provider);
    SumWithin(f, m, n, lo, hi);
    RoundIsNearest(WindowSum(f, m, n) / n as real);
    MeanWithin(WindowSum(f, m, n), n, lo, hi);
  }

  lemma MeanWithin(sum: real, n: nat, lo: real, hi: real)
    requires n >= 1 && n as real * lo <= sum <= n as real * hi
    ensures lo <= sum / n as real <= hi
  {
    assert sum == sum / n as real * n as real;
  }

  // ----- slots that have not started

  /** Drops slots that start before now: the suffix from the first slot that has not started. */
  function UpcomingSlots(f: seq<Slot>, now: int): seq<Slot> {
    if f == [] then []
    else if f[0].time >= now then f
    else UpcomingSlots(f[1..], now)
  }

  /** How many slots UpcomingSlots drops. */
  function Dropped(f: seq<Slot>, now: int): nat {
    if f == [] || f[0].time >= now then 0 else 1 + Dropped(f[1..], now)
  }

  lemma {:induction false} UpcomingIsSuffix(f: seq<Slot>, now: int)
    ensures Dropped(f, now) <= |f| && UpcomingSlots(f, now) == f[Dropped(f, now)..]
    ensures forall i :: 0 <= i < Dropped(f, now) ==> f[i].time < now
    ensures Dropped(f, now) < |f| ==> f[Dropped(f, now)].time >= now
  {
    if f != [] && f[0].time < now {
      UpcomingIsSuffix(f[1..], now);
    }
  }

  lemma {:induction false} SumOfSuffix(f: seq<Slot>, k: nat, i: nat, n: nat)
    requires k + i + n <= |f|
    ensures WindowSum(f[k..], i, n) == WindowSum(f, k + i, n)
  {
    if n > 0 {
      SumOfSuffix(f, k, i, n - 1);
    }
  }

  // ----- bestWindow

  method BestWindow(forecast: seq<Slot>, provider: string, appliance: string, duration: real, now: int)
    returns (r: Result<OptimalWindow, WindowError>)
    ensures IsAnswer(UpcomingSlots(forecast, now), duration, appliance, provider, r)
  {
    var upcoming := UpcomingSlots(forecast, now);
    r := FindOptimalWindow(upcoming, duration, appliance);
    if r.Ok? {
      ghost var m :| IsBest(upcoming, SlotCount(duration), m) && r.value == WindowAt(upcoming, m, SlotCount(duration), appliance, "");
      r := Ok(r.value.(provider := provider));
      assert r.value == WindowAt(upcoming, m, SlotCount(duration), appliance, provider);
    }
  }

  ghost predicate Increasing(f: seq<Slot>) {
    forall i, j :: 0 <= i < j < |f| ==> f[i].time < f[j].time
  }

  /** A window of the whole forecast that starts at now or later. */
  predicate Eligible(f: seq<Slot>, now: int, n: nat, i: nat) {
    n >= 1 && i + n <= |f| && f[i].time >= now
  }

  ghost predicate IsBestEligible(f: seq<Slot>, now: int, n: nat, m: nat) {
    && Eligible(f, now, n, m)
    && (forall j: nat :: Eligible(f, now, n, j) ==> WindowSum(f, m, n) <= WindowSum(f, j, n))
    && (forall j: nat :: Eligible(f, now, n, j) && j < m ==> WindowSum(f, m, n) < WindowSum(f, j, n))
  }

  /** In a strictly increasing forecast the eligible windows are those of the upcoming suffix. */
  lemma EligibleIsUpcoming(f: seq<Slot>, now: int, n: nat, i: nat)
    requires Increasing(f) && n >= 1
    ensures Eligible(f, now, n, i) <==> Dropped(f, now) <= i && i + n <= |f|
  {
    UpcomingIsSuffix(f, now);
  }

  /** The best window of a suffix beats every window of the whole that lies in it. */
  lemma BestOfSuffix(f: seq<Slot>, u: seq<Slot>, k: nat, n: nat, m: nat, j: nat)
    requires k <= j && j + n <= |f| && u == f[k..] && IsBest(u, n, m)
    ensures WindowSum(f, k + m, n) <= WindowSum(f, j, n)
    ensures j < k + m ==> WindowSum(f, k + m, n) < WindowSum(f, j, n)
  {
    var i: nat := j - k;
    assert WindowSum(u, m, n) <= WindowSum(u, i, n) && (i < m ==> WindowSum(u, m, n) < WindowSum(u, i, n));
    SumOfSuffix(f, k, m, n);
    SumOfSuffix(f, k, i, n);
  }

  /** One comparison: the best upcoming window against an eligible one. */
  lemma BestUpcomingBeats(f: seq<Slot>, now: int, n: nat, m: nat, j: nat)
    requires Increasing(f) && IsBest(UpcomingSlots(f, now), n, m) && Eligible(f, now, n, j)
    ensures Eligible(f, now, n, Dropped(f, now) + m)
    ensures WindowSum(f, Dropped(f, now) + m, n) <= WindowSum(f, j, n)
    ensures j < Dropped(f, now) + m ==> WindowSum(f, Dropped(f, now) + m, n) < WindowSum(f, j, n)
  {
    UpcomingIsSuffix(f, now);
    EligibleIsUpcoming(f, now, n, j);
    BestUpcomingIsEligible(f, now, n, m);
    BestOfSuffix(f, UpcomingSlots(f, now), Dropped(f, now), n, m, j);
  }

  lemma BestUpcomingIsBestEligible(f: seq<Slot>, now: int, n: nat, m: nat)
    requires Increasing(f) && IsBest(UpcomingSlots(f, now), n, m)
    ensures IsBestEligible(f, now, n, Dropped(f, now) + m)
  {
    var best: nat := Dropped(f, now) + m;
    BestUpcomingIsEligible(f, now, n, m);
    forall j: nat | Eligible(f, now, n, j)
      ensures WindowSum(f, best, n) <= WindowSum(f, j, n) && (j < best ==> WindowSum(f, best, n) < WindowSum(f, j, n))
    {
      BestUpcomingBeats(f, now, n, m, j);
    }
  }

  lemma BestUpcomingIsEligible(f: seq<Slot>, now: int, n: nat, m: nat)
    requires Increasing(f) && IsBest(UpcomingSlots(f, now), n, m)
    ensures Eligible(f, now, n, Dropped(f, now) + m)
  {
    UpcomingIsSuffix(f, now);
    EligibleIsUpcoming(f, now, n, Dropped(f, now) + m);
  }

  lemma WindowOfSuffix(f: seq<Slot>, k: nat, m: nat, n: nat, appliance: string, provider: string)
    requires n >= 1 && k + m + n <= |f|
    ensures WindowAt(f[k..], m, n, appliance, provider) == WindowAt(f, k + m, n, appliance, provider)
  {
    SumOfSuffix(f, k, m, n);
  }

  lemma TooShortIffNothingEligible(f: seq<Slot>, now: int, n: nat)
    requires Increasing(f) && n >= 1
    ensures |UpcomingSlots(f, now)| < n <==> forall i: nat :: !Eligible(f, now, n, i)
  {
    UpcomingIsSuffix(f, now);
    EligibleIsUpcoming(f, now, n, Dropped(f, now));
    forall i: nat ensures Eligible(f, now, n, i) <==> Dropped(f, now) <= i && i + n <= |f| {
      EligibleIsUpcoming(f, now, n, i);
    }
  }

  /**
   The window choice refines brute force: over a strictly increasing forecast the answer is the
   earliest least-sum window among all that start at now or later, and an error exactly when there is none.
   */
  lemma BestWindowIsBruteForce(f: seq<Slot>, now: int, duration: real, appliance: string, provider: string,
                               r: Result<OptimalWindow, WindowError>)
    requires Increasing(f) && IsAnswer(UpcomingSlots(f, now), duration, appliance, provider, r)
    ensures r.Err? <==> forall i: nat :: !Eligible(f, now, SlotCount(duration), i)
    ensures r.Ok? ==> exists m :: IsBestEligible(f, now, SlotCount(duration), m)
                                  && r.value == WindowAt(f, m, SlotCount(duration), appliance, provider)
  {
    TooShortIffNothingEligible(f, now, SlotCount(duration));
    if r.Ok? {
      AnswerIsBestEligible(f, now, duration, appliance, provider, r);
    }
  }

  lemma AnswerIsBestEligible(f: seq<Slot>, now: int, duration: real, appliance: string, provider: string,
                             r: Result<OptimalWindow, WindowError>)
    requires Increasing(f) && IsAnswer(UpcomingSlots(f, now), duration, appliance, provider, r) && r.Ok?
    ensures exists m :: IsBestEligible(f, now, SlotCount(duration), m)
                        && r.value == WindowAt(f, m, SlotCount(duration), appliance, provider)
  {
    var n, u := SlotCount(duration), UpcomingSlots(f, now);
    var m :| IsBest(u, n, m) && r.value == WindowAt(u, m, n, appliance, provider);
    AnswerInWhole(f, now, n, m, appliance, provider);
  }

  lemma AnswerInWhole(f: seq<Slot>, now: int, n: nat, m: nat, appliance: string, provider: string)
    requires Increasing(f) && IsBest(UpcomingSlots(f, now), n, m)
    ensures IsBestEligible(f, now, n, Dropped(f, now) + m)
    ensures WindowAt(UpcomingSlots(f, now), m, n, appliance, provider) == WindowAt(f, Dropped(f, now) + m, n, appliance, provider)
  {
    BestUpcomingIsBestEligible(f, now, n, m);
    UpcomingIsSuffix(f, now);
    WindowOfSuffix(f, Dropped(f, now), m, n, appliance, provider);
  }

  // ----- when can a recommendation begin in the past?

  function Forecast(times: seq<int>, levels: seq<real>): seq<Slot>
    requires |times| == |levels|
  {
    seq(|times|, i requires 0 <= i < |times| => Slot(times[i], levels[i]))
  }

  /** Whatever the intensities and the size of the window, the best upcoming window starts at now or later. */
  ghost predicate NeverInThePast(times: seq<int>, now: int) {
    forall levels: seq<real>, n: nat, m: nat ::
      |levels| == |times| && IsBest(UpcomingSlots(Forecast(times, levels), now), n, m) ==>
        UpcomingSlots(Forecast(times, levels), now)[m].time >= now
  }

  /** A slot already started comes after one that has not. */
  predicate OutOfOrder(times: seq<int>, now: int) {
    exists i, j :: 0 <= i < j < |times| && times[i] >= now && times[j] < now
  }

  /** Dropping the leading started slots keeps recommendations out of the past exactly when no started slot follows. */
  lemma NeverInThePastIffOrdered(times: seq<int>, now: int)
    ensures NeverInThePast(times, now) <==> !OutOfOrder(times, now)
  {
    if OutOfOrder(times, now) {
      var i, j :| 0 <= i < j < |times| && times[i] >= now && times[j] < now;
      PastWindow(times, now, i, j);
    } else {
      forall levels: seq<real>, n: nat, m: nat
        | |levels| == |times| && IsBest(UpcomingSlots(Forecast(times, levels), now), n, m)
        ensures UpcomingSlots(Forecast(times, levels), now)[m].time >= now
      {
        var f := Forecast(times, levels);
        UpcomingIsSuffix(f, now);
        assert f[Dropped(f, now)].time >= now;
      }
    }
  }

  /** The counterexample: make the late started slot the cleanest one. */
  lemma PastWindow(times: seq<int>, now: int, i: nat, j: nat)
    requires i < j < |times| && times[i] >= now && times[j] < now
    ensures !NeverInThePast(times, now)
  {
    var levels := seq(|times|, h => if h == j then 0.0 else 1.0);
    var f := Forecast(times, levels);
    var k, u := Dropped(f, now), UpcomingSlots(f, now);
    UpcomingIsSuffix(f, now);
    assert k <= i by {
      assert f[i].time >= now;
    }
    forall h: nat | h < |u| ensures WindowSum(u, h, 1) == levels[k + h] {
      assert WindowSum(u, h, 1) == WindowSum(u, h, 0) + u[h].intensity;
    }
    assert IsBest(u, 1, j - k);
    assert u[j - k].time < now;
  }
}
