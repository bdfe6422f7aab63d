/** The multi-zone comparison: which zip comes out greenest. */
module Zones {
  import opened Wrappers
  import opened Window

  /** One zip's forecast outcome; the zero value, an empty forecast without error, stands for a missing key. */
  datatype FetchResult = FetchResult(provider: string, forecast: seq<Slot>, err: Option<string>)

  datatype ZoneError = Fetch(message: string) | NoWindow(error: WindowError)

  datatype ZoneResult = ZoneResult(zip: string, window: Result<OptimalWindow, ZoneError>)

  function Lookup(fetched: map<string, FetchResult>, zip: string): FetchResult {
    if zip in fetched then fetched[zip] else FetchResult("", [], None)
  }

  /** The entry of one zip: its fetch error, or its own best window. */
  ghost predicate IsZoneResult(zip: string, res: FetchResult, appliance: string, duration: real, now: int, z: ZoneResult) {
    && z.zip == zip
    && (res.err.Some? ==> z.window == Err(Fetch(res.err.value)))
    && (res.err.None? ==> exists r :: IsEntry(res, appliance, duration, now, r, z))
  }

  ghost predicate IsEntry(res: FetchResult, appliance: string, duration: real, now: int,
                          r: Result<OptimalWindow, WindowError>, z: ZoneResult) {
    && IsAnswer(UpcomingSlots(res.forecast, now), duration, appliance, res.provider, r)
    && z.window == if r.Ok? then Ok(r.value) else Err(NoWindow(r.error))
  }

  /** `best` is the first of the windows found that has the least reported average. */
  ghost predicate IsGreenest(results: seq<ZoneResult>, best: Option<int>) {
    && (best.None? ==> forall i :: 0 <= i < |results| ==> results[i].window.Err?)
    && (best.Some? ==>
          && 0 <= best.value < |results| && results[best.value].window.Ok?
          && (forall i :: 0 <= i < |results| && results[i].window.Ok? ==>
                results[best.value].window.value.average <= results[i].window.value.average)
          && (forall i :: 0 <= i < best.value && results[i].window.Ok? ==>
                results[best.value].window.value.average < results[i].window.value.average))
  }

  /** The entries of all zips, each computed at its own clock reading. */
  ghost predicate AreZoneResults(zips: seq<string>, fetched: map<string, FetchResult>, appliance: string, duration: real,
                                 clock: seq<int>, results: seq<ZoneResult>)
    requires |clock| == |zips|
  {
    && |results| == |zips|
    && forall i :: 0 <= i < |zips| ==> IsZoneResult(zips[i], Lookup(fetched, zips[i]), appliance, duration, clock[i], results[i])
  }

  /** The loop over the zips; `clock` lists the readings of the calls, one for each zip. */
  method CompareZones(zips: seq<string>, fetched: map<string, FetchResult>, appliance: string, duration: real, clock: seq<int>)
    returns (results: seq<ZoneResult>, greenest: Option<OptimalWindow>)
    requires |clock| == |zips|
    ensures AreZoneResults(zips, fetched, appliance, duration, clock, results)
    ensures exists best :: IsGreenest(results, best)
              && greenest == if best.None? then None else Some(results[best.value].window.value)
  {
    results, greenest := [], None;
    ghost var best: Option<int> := None;
    for i := 0 to |zips|
      invariant |results| == i
      invariant forall j :: 0 <= j < i ==> IsZoneResult(zips[j], Lookup(fetched, zips[j]), appliance, duration, clock[j], results[j])
      invariant IsGreenest(results, best)
      invariant greenest == if best.None? then None else Some(results[best.value].window.value)
    {
      var res := Lookup(fetched, zips[i]);
      if res.err.Some? {
        results := results + [ZoneResult(zips[i], Err(Fetch(res.err.value)))];
        continue;
      }
      var window := BestWindow(res.forecast, res.provider, appliance, duration, clock[i]);
      if window.Err? {
        results := results + [ZoneResult(zips[i], Err(NoWindow(window.error)))];
        assert IsEntry(res, appliance, duration, clock[i], window, results[i]);
        continue;
      }
      results := results + [ZoneResult(zips[i], Ok(window.value))];
      assert IsEntry(res, appliance, duration, clock[i], window, results[i]);
      if greenest.None? || window.value.average < greenest.value.average {
        greenest := Some(window.value);
        best := Some(i);
      }
    }
  }

  // ----- what the reported minimum means

  /** The exact average of the window of `slots` slots starting at m. */
  function Average(f: seq<Slot>, m: nat, slots: nat): real
    requires slots >= 1 && m + slots <= |f|
  {
    WindowSum(f, m, slots) / slots as real
  }

  lemma AverageOrder(x: real, y: real, slots: nat)
    requires slots >= 1 && x <= y
    ensures x / slots as real <= y / slots as real
  {
  }

  /** The forecasts the comparison may choose from: the slots of every fetched zip still ahead when its turn comes. */
  function Upcoming(zips: seq<string>, fetched: map<string, FetchResult>, clock: seq<int>, i: nat): seq<Slot>
    requires i < |zips| == |clock|
  {
    var res := Lookup(fetched, zips[i]);
    if res.err.Some? then [] else UpcomingSlots(res.forecast, clock[i])
  }

  /** A zone reports a window exactly when it has one, and then its least average, rounded. */
  lemma ZoneReportsItsLeast(zip: string, res: FetchResult, appliance: string, duration: real, now: int, z: ZoneResult, f: seq<Slot>)
    returns (m: nat)
    requires IsZoneResult(zip, res, appliance, duration, now, z)
    requires f == if res.err.Some? then [] else UpcomingSlots(res.forecast, now)
    ensures z.window.Ok? <==> SlotCount(duration) <= |f|
    ensures z.window.Ok? ==>
              && m + SlotCount(duration) <= |f|
              && z.window.value.average == Round1(Average(f, m, SlotCount(duration)))
              && forall j: nat :: j + SlotCount(duration) <= |f| ==> Average(f, m, SlotCount(duration)) <= Average(f, j, SlotCount(duration))
  {
    m := 0;
    var n := SlotCount(duration);
    if res.err.None? {
      var r :| IsEntry(res, appliance, duration, now, r, z);
      if r.Ok? {
        m :| IsBest(f, n, m) && r.value == WindowAt(f, m, n, appliance, res.provider);
        forall j: nat | j + n <= |f| ensures Average(f, m, n) <= Average(f, j, n) {
          AverageOrder(WindowSum(f, m, n), WindowSum(f, j, n), n);
        }
      }
    }
  }

  /** Window m of zip i attains the least exact average over all zips and all their upcoming windows. */
  ghost predicate IsOptimum(zips: seq<string>, fetched: map<string, FetchResult>, clock: seq<int>, slots: nat, i: nat, m: nat)
    requires |clock| == |zips|
  {
    && slots >= 1 && i < |zips| && m + slots <= |Upcoming(zips, fetched, clock, i)|
    && forall i': nat, m': nat :: i' < |zips| && m' + slots <= |Upcoming(zips, fetched, clock, i')| ==>
         Average(Upcoming(zips, fetched, clock, i), m, slots) <= Average(Upcoming(zips, fetched, clock, i'), m', slots)
  }

  /** Among the first i zips, the window of least exact average. */
  lemma {:induction false} LeastWindows(zips: seq<string>, fetched: map<string, FetchResult>, clock: seq<int>, slots: nat, i: nat)
    returns (bi: nat, bm: nat)
    requires |clock| == |zips| && slots >= 1 && i <= |zips|
    requires exists j: nat :: j < i && slots <= |Upcoming(zips, fetched, clock, j)|
    ensures bi < i && bm + slots <= |Upcoming(zips, fetched, clock, bi)|
    ensures forall j: nat, m: nat :: j < i && m + slots <= |Upcoming(zips, fetched, clock, j)| ==>
              Average(Upcoming(zips, fetched, clock, bi), bm, slots) <= Average(Upcoming(zips, fetched, clock, j), m, slots)
  {
    var f := Upcoming(zips, fetched, clock, i - 1);
    if !exists j: nat :: j < i - 1 && slots <= |Upcoming(zips, fetched, clock, j)| {
      bi := i - 1;
      bm := LeastWindow(f, slots);
    } else {
      bi, bm := LeastWindows(zips, fetched, clock, slots, i - 1);
      if slots <= |f| {
        var m := LeastWindow(f, slots);
        if Average(f, m, slots) < Average(Upcoming(zips, fetched, clock, bi), bm, slots) {
          bi, bm := i - 1, m;
        }
      }
    }
  }

  lemma {:induction false} LeastWindow(f: seq<Slot>, slots: nat) returns (m: nat)
    requires 1 <= slots <= |f|
    ensures m + slots <= |f| && forall j: nat :: j + slots <= |f| ==> Average(f, m, slots) <= Average(f, j, slots)
  {
    m := LeastWindowUpTo(f, slots, |f| - slots);
  }

  lemma {:induction false} LeastWindowUpTo(f: seq<Slot>, slots: nat, last: nat) returns (m: nat)
    requires slots >= 1 && last + slots <= |f|
    ensures m <= last && forall j: nat :: j <= last ==> Average(f, m, slots) <= Average(f, j, slots)
    decreases last
  {
    m := last;
    if last > 0 {
      var k := LeastWindowUpTo(f, slots, last - 1);
      if Average(f, k, slots) <= Average(f, last, slots) {
        m := k;
      }
    }
  }

  /** There is an optimum exactly when some fetched forecast has enough slots left. */
  lemma OptimumExists(zips: seq<string>, fetched: map<string, FetchResult>, clock: seq<int>, slots: nat)
    requires |clock| == |zips| && slots >= 1
    ensures (exists i: nat, m: nat :: IsOptimum(zips, fetched, clock, slots, i, m))
        <==> exists i: nat :: i < |zips| && slots <= |Upcoming(zips, fetched, clock, i)|
  {
    if exists i: nat :: i < |zips| && slots <= |Upcoming(zips, fetched, clock, i)| {
      var i, m := LeastWindows(zips, fetched, clock, slots, |zips|);
      assert IsOptimum(zips, fetched, clock, slots, i, m);
    }
  }

  /**
   Greenest zone: the reported minimum is the true optimum over all zips and windows, rounded; the zip
   reported is the first with that value, and its own exact average is less than 0.1 above the optimum.
   */
  lemma GreenestIsRoundedOptimum(zips: seq<string>, fetched: map<string, FetchResult>, appliance: string, duration: real,
                                 clock: seq<int>, results: seq<ZoneResult>, best: Option<int>, i: nat, m: nat) returns (mb: nat)
    requires |clock| == |zips| && AreZoneResults(zips, fetched, appliance, duration, clock, results) && IsGreenest(results, best)
    requires IsOptimum(zips, fetched, clock, SlotCount(duration), i, m)
    ensures best.Some?
    ensures var n, f := SlotCount(duration), Upcoming(zips, fetched, clock, i);
            var reported := results[best.value].window.value.average;
            && reported == Round1(Average(f, m, n)) && -0.05 <= reported - Average(f, m, n) <= 0.05
            && (forall j :: 0 <= j < best.value && results[j].window.Ok? ==> reported < results[j].window.value.average)
            && mb + n <= |Upcoming(zips, fetched, clock, best.value)|
            && reported == Round1(Average(Upcoming(zips, fetched, clock, best.value), mb, n))
            && 0.0 <= Average(Upcoming(zips, fetched, clock, best.value), mb, n) - Average(f, m, n) < 0.1
  {
    var n, f := SlotCount(duration), Upcoming(zips, fetched, clock, i);
    var mi := ZoneReportsItsLeast(zips[i], Lookup(fetched, zips[i]), appliance, duration, clock[i], results[i], f);
    assert results[i].window.Ok?;
    var b := best.value;
    var g := Upcoming(zips, fetched, clock, b);
    mb := ZoneReportsItsLeast(zips[b], Lookup(fetched, zips[b]), appliance, duration, clock[b], results[b], g);
    RoundIsNearest(Average(f, m, n));
    RoundMonotone(Average(f, m, n), Average(g, mb, n));
    RoundMonotone(Average(f, mi, n), Average(f, m, n));
    RoundTogether(Average(g, mb, n), Average(f, m, n));
  }

  /** Nothing is reported exactly when there is no optimum to report. */
  lemma NothingReportedIffNoWindow(zips: seq<string>, fetched: map<string, FetchResult>, appliance: string, duration: real,
                                   clock: seq<int>, results: seq<ZoneResult>, best: Option<int>)
    requires |clock| == |zips| && AreZoneResults(zips, fetched, appliance, duration, clock, results) && IsGreenest(results, best)
    ensures best.None? <==> forall i: nat :: i < |zips| ==> |Upcoming(zips, fetched, clock, i)| < SlotCount(duration)
    ensures best.None? <==> forall i: nat, m: nat :: !IsOptimum(zips, fetched, clock, SlotCount(duration), i, m)
  {
    forall i: nat | i < |zips| ensures results[i].window.Ok? <==> SlotCount(duration) <= |Upcoming(zips, fetched, clock, i)| {
      var _ := ZoneReportsItsLeast(zips[i], Lookup(fetched, zips[i]), appliance, duration, clock[i], results[i], Upcoming(zips, fetched, clock, i));
    }
    OptimumExists(zips, fetched, clock, SlotCount(duration));
  }

  // ----- what was fetched is what is compared

  /** Each zip is answered from its own fetch: its error, or the search over what is still ahead in its own forecast. */
  lemma FetchedIsUsed(zips: seq<string>, fetched: map<string, FetchResult>, appliance: string, duration: real,
                      clock: seq<int>, results: seq<ZoneResult>, i: nat)
    requires |clock| == |zips| && AreZoneResults(zips, fetched, appliance, duration, clock, results)
    requires i < |zips| && zips[i] in fetched
    ensures var res, z := fetched[zips[i]], results[i];
            && z.zip == zips[i]
            && (res.err.Some? ==> z.window == Err(Fetch(res.err.value)))
            && (res.err.None? ==>
                  (z.window.Ok? ==> IsAnswer(UpcomingSlots(res.forecast, clock[i]), duration, appliance, res.provider, Ok(z.window.value)))
                  && (z.window.Err? ==> |UpcomingSlots(res.forecast, clock[i])| as real < duration || UpcomingSlots(res.forecast, clock[i]) == []))
  {
    var res, z := Lookup(fetched, zips[i]), results[i];
    if res.err.None? {
      var r :| IsEntry(res, appliance, duration, clock[i], r, z);
    }
  }

  /** A zip nobody fetched has no window. */
  lemma MissingHasNoWindow(zips: seq<string>, fetched: map<string, FetchResult>, appliance: string, duration: real,
                           clock: seq<int>, results: seq<ZoneResult>, i: nat)
    requires |clock| == |zips| && AreZoneResults(zips, fetched, appliance, duration, clock, results)
    requires i < |zips| && zips[i] !in fetched
    ensures results[i].window.Err?
  {
    var r :| IsEntry(Lookup(fetched, zips[i]), appliance, duration, clock[i], r, results[i]);
  }
}
