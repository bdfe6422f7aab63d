/** Downsampling five-minute points into at most 24 hourly slots. */
module Hourly {
  import opened Wrappers
  import opened Clock
  import opened Pigeonhole
  import opened Window

  /** One upstream point; None is a timestamp that does not parse. */
  datatype Point = Point(time: Option<int>, value: real)

  datatype Bucket = Bucket(sum: real, count: int)

  const GRAMS_PER_KWH: real := 0.453592
  const MAX_SLOTS: int := 24

  predicate InHour(p: Point, h: int) {
    p.time.Some? && HourOf(p.time.value) == h
  }

  function SumIn(points: seq<Point>, h: int): real {
    if points == [] then 0.0
    else SumIn(points[..|points| - 1], h) + if InHour(points[|points| - 1], h) then points[|points| - 1].value else 0.0
  }

  function CountIn(points: seq<Point>, h: int): nat {
    if points == [] then 0
    else CountIn(points[..|points| - 1], h) + if InHour(points[|points| - 1], h) then 1 else 0
  }

  /** The converted mean of exactly the points of hour h. */
  function Mean(points: seq<Point>, h: int): real {
    if CountIn(points, h) == 0 then 0.0 else SumIn(points, h) / CountIn(points, h) as real * GRAMS_PER_KWH
  }

  /** The earliest at most 24 hours that have a point, in order, each with its mean. */
  ghost predicate IsHourly(points: seq<Point>, out: seq<Slot>) {
    && Increasing(out) && |out| <= MAX_SLOTS
    && (forall i :: 0 <= i < |out| ==> CountIn(points, out[i].time) > 0 && out[i].intensity == Mean(points, out[i].time))
    && (forall h :: CountIn(points, h) > 0 ==> HasTime(out, h) || (|out| == MAX_SLOTS && forall i :: 0 <= i < |out| ==> out[i].time < h))
  }

  predicate HasTime(out: seq<Slot>, h: int) {
    exists i :: 0 <= i < |out| && out[i].time == h
  }

  // ----- sort.Slice by time

  function Insert(sorted: seq<Slot>, x: Slot): seq<Slot> {
    if sorted == [] then [x]
    else if x.time < sorted[0].time then [x] + sorted
    else [sorted[0]] + Insert(sorted[1..], x)
  }

  function SortByTime(slots: seq<Slot>): seq<Slot> {
    if slots == [] then [] else Insert(SortByTime(slots[1..]), slots[0])
  }

  ghost predicate DistinctTimes(slots: seq<Slot>) {
    forall i, j :: 0 <= i < j < |slots| ==> slots[i].time != slots[j].time
  }

  lemma {:induction false} InsertKeepsElements(sorted: seq<Slot>, x: Slot)
    ensures multiset(Insert(sorted, x)) == multiset(sorted) + multiset{x}
  {
    if sorted != [] && x.time >= sorted[0].time {
      InsertKeepsElements(sorted[1..], x);
      assert sorted == [sorted[0]] + sorted[1..];
    }
  }

  lemma {:induction false} InsertKeepsOrder(sorted: seq<Slot>, x: Slot)
    requires Increasing(sorted) && forall i :: 0 <= i < |sorted| ==> sorted[i].time != x.time
    ensures Increasing(Insert(sorted, x))
  {
    if sorted != [] && x.time >= sorted[0].time {
      InsertKeepsOrder(sorted[1..], x);
      InsertKeepsElements(sorted[1..], x);
      var rest := Insert(sorted[1..], x);
      forall i | 0 <= i < |rest| ensures sorted[0].time < rest[i].time {
        assert rest[i] in multiset(rest);
        assert rest[i] == x || rest[i] in sorted[1..];
      }
    }
  }

  lemma {:induction false} SortKeepsElements(slots: seq<Slot>)
    ensures multiset(SortByTime(slots)) == multiset(slots)
  {
    if slots != [] {
      SortKeepsElements(slots[1..]);
      InsertKeepsElements(SortByTime(slots[1..]), slots[0]);
      assert slots == [slots[0]] + slots[1..];
    }
  }

  lemma {:induction false} SortOrders(slots: seq<Slot>)
    requires DistinctTimes(slots)
    ensures Increasing(SortByTime(slots))
  {
    if slots != [] {
      SortOrders(slots[1..]);
      SortKeepsElements(slots[1..]);
      var rest := SortByTime(slots[1..]);
      forall i | 0 <= i < |rest| ensures rest[i].time != slots[0].time {
        assert rest[i] in multiset(slots[1..]);
      }
      InsertKeepsOrder(rest, slots[0]);
    }
  }

  lemma SortSorts(slots: seq<Slot>)
    requires DistinctTimes(slots)
    ensures Increasing(SortByTime(slots)) && multiset(SortByTime(slots)) == multiset(slots)
  {
    SortKeepsElements(slots);
    SortOrders(slots);
  }

  // ----- the algorithm

  /** The buckets hold the sum and the count of every hour that has a point. */
  ghost predicate AreBuckets(points: seq<Point>, buckets: map<int, Bucket>) {
    && (forall h :: h in buckets <==> CountIn(points, h) > 0)
    && (forall h :: h in buckets ==> buckets[h] == Bucket(SumIn(points, h), CountIn(points, h)))
    && (forall h :: h !in buckets ==> SumIn(points, h) == 0.0)
  }

  method FillBuckets(points: seq<Point>) returns (buckets: map<int, Bucket>)
    ensures AreBuckets(points, buckets)
  {
    buckets := map[];
    for i := 0 to |points|
      invariant AreBuckets(points[..i], buckets)
    {
      assert points[..i + 1][..i] == points[..i];
      var p := points[i];
      if p.time.None? {
        continue;
      }
      var hour := HourOf(p.time.value);
      var b := if hour in buckets then buckets[hour] else Bucket(0.0, 0);
      buckets := buckets[hour := Bucket(b.sum + p.value, b.count + 1)];
    }
    assert points[..|points|] == points;
  }

  /** Visits the buckets in whatever order the map yields them. */
  method AverageBuckets(points: seq<Point>, buckets: map<int, Bucket>) returns (slots: seq<Slot>)
    requires AreBuckets(points, buckets)
    ensures DistinctTimes(slots) && forall h :: CountIn(points, h) > 0 <==> HasTime(slots, h)
    ensures forall i :: 0 <= i < |slots| ==> slots[i].intensity == Mean(points, slots[i].time)
  {
    slots := [];
    var rest := buckets.Keys;
    while rest != {}
      invariant rest <= buckets.Keys
      invariant forall h :: HasTime(slots, h) <==> h in buckets && h !in rest
      invariant forall i :: 0 <= i < |slots| ==> HasTime(slots, slots[i].time)
      invariant forall i :: 0 <= i < |slots| ==> slots[i].intensity == Mean(points, slots[i].time)
      invariant DistinctTimes(slots)
      decreases rest
    {
      HasMember(rest);
      var h :| h in rest;
      var avgMOER := buckets[h].sum / buckets[h].count as real;
      var slot := Slot(h, avgMOER * GRAMS_PER_KWH);
      Appended(slots, slot);
      slots, rest := slots + [slot], rest - {h};
    }
  }

  method HourlyAverage(points: seq<Point>) returns (r: Result<seq<Slot>, string>)
    ensures r.Err? <==> forall h :: CountIn(points, h) == 0
    ensures r.Ok? ==> IsHourly(points, r.value) && r.value != []
  {
    var buckets := FillBuckets(points);
    if |buckets| == 0 {
      return Err("no forecast points returned");
    }
    HasMember(buckets.Keys);
    ghost var some :| some in buckets.Keys;
    var slots := AverageBuckets(points, buckets);
    assert HasTime(slots, some);
    SortSorts(slots);
    var sorted := SortByTime(slots);
    Permuted(slots, sorted);
    forall i | 0 <= i < |sorted| ensures HasTime(slots, sorted[i].time) && sorted[i].intensity == Mean(points, sorted[i].time) {
      var j :| 0 <= j < |slots| && slots[j] == sorted[i];
      assert slots[j].time == sorted[i].time;
    }
    FirstSlots(points, sorted);
    r := Ok(if |sorted| > MAX_SLOTS then sorted[..MAX_SLOTS] else sorted);
  }

  lemma Appended(slots: seq<Slot>, x: Slot)
    ensures forall h :: HasTime(slots + [x], h) <==> HasTime(slots, h) || h == x.time
  {
    forall h ensures HasTime(slots + [x], h) <==> HasTime(slots, h) || h == x.time {
      if HasTime(slots, h) {
        var i :| 0 <= i < |slots| && slots[i].time == h;
        assert (slots + [x])[i].time == h;
      }
      assert (slots + [x])[|slots|].time == x.time;
    }
  }

  lemma Permuted(slots: seq<Slot>, sorted: seq<Slot>)
    requires multiset(sorted) == multiset(slots)
    ensures |sorted| == |slots|
    ensures forall i :: 0 <= i < |sorted| ==> sorted[i] in slots
    ensures forall h :: HasTime(slots, h) ==> HasTime(sorted, h)
  {
    assert |multiset(sorted)| == |sorted| && |multiset(slots)| == |slots|;
    forall i | 0 <= i < |sorted| ensures sorted[i] in slots {
      assert sorted[i] in multiset(sorted);
    }
    forall h | HasTime(slots, h) ensures HasTime(sorted, h) {
      var i :| 0 <= i < |slots| && slots[i].time == h;
      assert slots[i] in multiset(sorted);
      var j :| 0 <= j < |sorted| && sorted[j] == slots[i];
      assert sorted[j].time == h;
    }
  }

  /** Cutting a complete ordered list after 24 slots leaves the earliest hours. */
  lemma FirstSlots(points: seq<Point>, all: seq<Slot>)
    requires Increasing(all)
    requires forall i :: 0 <= i < |all| ==> CountIn(points, all[i].time) > 0 && all[i].intensity == Mean(points, all[i].time)
    requires forall h :: CountIn(points, h) > 0 ==> HasTime(all, h)
    ensures IsHourly(points, if |all| > MAX_SLOTS then all[..MAX_SLOTS] else all)
  {
    if |all| > MAX_SLOTS {
      var out := all[..MAX_SLOTS];
      assert forall i :: 0 <= i < |out| ==> out[i] == all[i];
      forall h | CountIn(points, h) > 0
        ensures HasTime(out, h) || forall i :: 0 <= i < |out| ==> out[i].time < h
      {
        var j :| 0 <= j < |all| && all[j].time == h;
        assert j < MAX_SLOTS ==> out[j].time == h;
      }
    }
  }

  // ----- the result depends on the points only

  lemma SameSlot(points: seq<Point>, a: seq<Slot>, b: seq<Slot>, i: nat)
    requires IsHourly(points, a) && IsHourly(points, b) && i < |a| && i < |b| && a[i].time == b[i].time
    ensures a[i] == b[i]
  {
    assert a[i].intensity == Mean(points, a[i].time) == b[i].intensity;
  }

  /** Lists that agree at each place up to which they agree are equal that far. */
  lemma {:induction false} SamePrefix(a: seq<Slot>, b: seq<Slot>, n: nat)
    requires n <= |a| && n <= |b|
    requires forall i :: 0 <= i < n && a[..i] == b[..i] ==> a[i] == b[i]
    ensures a[..n] == b[..n]
  {
    if n > 0 {
      SamePrefix(a, b, n - 1);
      assert a[..n] == a[..n - 1] + [a[n - 1]] && b[..n] == b[..n - 1] + [b[n - 1]];
    }
  }

  /** Neither list can skip an hour the other one has next. */
  lemma NotEarlier(points: seq<Point>, a: seq<Slot>, b: seq<Slot>, n: nat)
    requires IsHourly(points, a) && IsHourly(points, b) && n < |a|
    requires n <= |b| && a[..n] == b[..n]
    ensures n < |b| && b[n].time <= a[n].time
  {
    var h := a[n].time;
    forall i | 0 <= i < n ensures b[i].time < h {
      assert a[i] == a[..n][i] == b[..n][i] == b[i];
    }
    if HasTime(b, h) {
      var j :| 0 <= j < |b| && b[j].time == h;
      assert j >= n;
    }
  }

  /** The description admits one list: the average of an hour and the cut are determined. */
  lemma HourlyIsUnique(points: seq<Point>, a: seq<Slot>, b: seq<Slot>)
    requires IsHourly(points, a) && IsHourly(points, b)
    ensures a == b
  {
    var n := if |a| < |b| then |a| else |b|;
    forall i | 0 <= i < n && a[..i] == b[..i] ensures a[i] == b[i] {
      NotEarlier(points, a, b, i);
      NotEarlier(points, b, a, i);
      SameSlot(points, a, b, i);
    }
    SamePrefix(a, b, n);
    if |a| < |b| {
      NotEarlier(points, b, a, n);
    } else if |b| < |a| {
      NotEarlier(points, a, b, n);
    }
    assert a == a[..n] && b == b[..n];
  }

  lemma {:induction false} RemovePoint(points: seq<Point>, k: nat, h: int)
    requires k < |points|
    ensures var rest := points[..k] + points[k + 1..];
            && CountIn(points, h) == CountIn(rest, h) + (if InHour(points[k], h) then 1 else 0)
            && SumIn(points, h) == SumIn(rest, h) + (if InHour(points[k], h) then points[k].value else 0.0)
  {
    var rest := points[..k] + points[k + 1..];
    var last := |points| - 1;
    if k == last {
      assert rest == points[..last];
    } else {
      RemovePoint(points[..last], k, h);
      assert rest[..|rest| - 1] == points[..last][..k] + points[..last][k + 1..];
    }
  }

  lemma RemovedFromMultiset(q: seq<Point>, k: nat)
    requires k < |q|
    ensures multiset(q[..k] + q[k + 1..]) == multiset(q) - multiset{q[k]}
  {
    assert q == q[..k] + [q[k]] + q[k + 1..];
  }

  lemma {:induction false} SumsIgnoreOrder(p: seq<Point>, q: seq<Point>, h: int)
    requires multiset(p) == multiset(q)
    ensures CountIn(p, h) == CountIn(q, h) && SumIn(p, h) == SumIn(q, h)
    decreases |p|
  {
    assert |multiset(p)| == |p| && |multiset(q)| == |q|;
    if p != [] {
      var last := |p| - 1;
      assert p[last] in multiset(q);
      var k :| 0 <= k < |q| && q[k] == p[last];
      RemovedFromMultiset(q, k);
      RemovedFromMultiset(p, last);
      assert p[..last] + p[last + 1..] == p[..last];
      SumsIgnoreOrder(p[..last], q[..k] + q[k + 1..], h);
      RemovePoint(q, k, h);
    }
  }

  /** Neither the order of the points nor the order in which the buckets are visited shows in the result. */
  lemma OrderIndependent(p: seq<Point>, q: seq<Point>, a: seq<Slot>, b: seq<Slot>)
    requires multiset(p) == multiset(q) && IsHourly(p, a) && IsHourly(q, b)
    ensures a == b
  {
    forall h ensures CountIn(p, h) == CountIn(q, h) && SumIn(p, h) == SumIn(q, h) {
      SumsIgnoreOrder(p, q, h);
    }
    HourlyIsUnique(p, a, b);
  }

  // ----- a chosen window is long enough

  predicate Aligned(f: seq<Slot>) {
    forall i :: 0 <= i < |f| ==> f[i].time % HOUR == 0
  }

  lemma {:induction false} CountedHourIsAligned(points: seq<Point>, h: int)
    requires CountIn(points, h) > 0
    ensures h % HOUR == 0
  {
    if !InHour(points[|points| - 1], h) {
      CountedHourIsAligned(points[..|points| - 1], h);
    }
  }

  lemma HourlyIsAligned(points: seq<Point>, out: seq<Slot>)
    requires IsHourly(points, out)
    ensures Aligned(out)
  {
    forall i | 0 <= i < |out| ensures out[i].time % HOUR == 0 {
      CountedHourIsAligned(points, out[i].time);
    }
  }

  lemma {:induction false} HoursApart(f: seq<Slot>, i: nat, j: nat)
    requires Increasing(f) && Aligned(f) && i <= j < |f|
    ensures f[i].time + (j - i) * HOUR <= f[j].time
    decreases j
  {
    if i < j {
      HoursApart(f, i, j - 1);
      if f[j].time < f[j - 1].time + HOUR {
        AlignedClose(f[j].time, f[j - 1].time, HOUR);
      }
    }
  }

  /** Gaps in the forecast only lengthen a window: it never ends before the appliance is done. */
  lemma WindowLastsLongEnough(points: seq<Point>, out: seq<Slot>, m: nat, duration: real, appliance: string, provider: string)
    requires IsHourly(points, out) && m + SlotCount(duration) <= |out|
    ensures var w := WindowAt(out, m, SlotCount(duration), appliance, provider);
            && SlotCount(duration) * HOUR <= w.end - w.start
            && duration * HOUR as real <= (w.end - w.start) as real
  {
    HourlyIsAligned(points, out);
    var n := SlotCount(duration);
    HoursApart(out, m, m + n - 1);
    assert duration * HOUR as real <= n as real * HOUR as real;
  }

  // ----- the slots, spelled out

  /** Each slot is the mean of its points: times their number it is their sum, converted from pounds per megawatt hour. */
  lemma SlotsAreMeans(points: seq<Point>, out: seq<Slot>, i: nat, sum: real, n: nat)
    requires IsHourly(points, out) && i < |out|
    requires sum == SumIn(points, out[i].time) && n == CountIn(points, out[i].time)
    ensures n >= 1 && |out| <= 24
    ensures out[i].intensity * n as real == 0.453592 * sum
  {
    SlotIsCounted(points, out, i);
    MeanTimes(points, out[i].time, out[i].intensity, sum, n);
  }

  lemma SlotIsCounted(points: seq<Point>, out: seq<Slot>, i: nat)
    requires IsHourly(points, out) && i < |out|
    ensures CountIn(points, out[i].time) > 0 && out[i].intensity == Mean(points, out[i].time) && |out| <= 24
  {
  }

  lemma MeanTimes(points: seq<Point>, h: int, x: real, sum: real, n: nat)
    requires x == Mean(points, h) && sum == SumIn(points, h) && n == CountIn(points, h) && n > 0
    ensures x * n as real == 0.453592 * sum
  {
    MeanTimesCount(x, sum, n as real);
  }

  lemma MeanTimesCount(x: real, sum: real, n: real)
    requires n != 0.0 && x == sum / n * GRAMS_PER_KWH
    ensures x * n == 0.453592 * sum
  {
    var mean := sum / n;
    assert mean * n == sum;
    assert mean * GRAMS_PER_KWH * n == GRAMS_PER_KWH * (mean * n);
  }

  /** An hour with a point is missing only behind 24 earlier ones. */
  lemma SlotsAreEarliest(points: seq<Point>, out: seq<Slot>, h: int)
    requires IsHourly(points, out) && CountIn(points, h) > 0
    ensures (exists i :: 0 <= i < |out| && out[i].time == h) || (|out| == 24 && forall i :: 0 <= i < |out| ==> out[i].time < h)
  {
    assert HasTime(out, h) || |out| == MAX_SLOTS;
  }

  /** The points of hour h and no other lie in [lo, hi]; then so does their sum, as often as they are. */
  lemma {:induction false} SumsWithin(points: seq<Point>, h: int, lo: real, hi: real)
    requires forall j :: 0 <= j < |points| && InHour(points[j], h) ==> lo <= points[j].value <= hi
    ensures CountIn(points, h) as real * lo <= SumIn(points, h) <= CountIn(points, h) as real * hi
  {
    if points != [] {
      var last := |points| - 1;
      SumsWithin(points[..last], h, lo, hi);
      var n := CountIn(points[..last], h) as real;
      assert (n + 1.0) * lo == n * lo + lo && (n + 1.0) * hi == n * hi + hi;
    }
  }

  /** No slot lies outside the range of its points. */
  lemma SlotsWithinPoints(points: seq<Point>, out: seq<Slot>, i: nat, lo: real, hi: real)
    requires IsHourly(points, out) && i < |out|
    requires forall j :: 0 <= j < |points| && points[j].time.Some? && out[i].time <= points[j].time.value < out[i].time + 60 * MINUTE ==>
               lo <= points[j].value <= hi
    ensures 0.453592 * lo <= out[i].intensity <= 0.453592 * hi
  {
    var h := out[i].time;
    CountedHourIsAligned(points, h);
    forall j | 0 <= j < |points| && InHour(points[j], h) ensures lo <= points[j].value <= hi {
      assert h <= points[j].time.value < h + HOUR;
    }
    SumsWithin(points, h, lo, hi);
    MeanWithin(SumIn(points, h), CountIn(points, h), lo, hi);
  }

  /** A slot counts exactly the points of its sixty minutes. */
  lemma {:induction false} CountsItsHour(points: seq<Point>, h: int)
    requires h % HOUR == 0
    ensures CountIn(points, h) == |set j | 0 <= j < |points| && points[j].time.Some? && h <= points[j].time.value < h + 60 * MINUTE|
  {
    var counted := set j | 0 <= j < |points| && points[j].time.Some? && h <= points[j].time.value < h + 60 * MINUTE;
    if points == [] {
      assert counted == {};
    } else {
      var last := |points| - 1;
      CountsItsHour(points[..last], h);
      var before := set j | 0 <= j < last && points[..last][j].time.Some? && h <= points[..last][j].time.value < h + 60 * MINUTE;
      if points[last].time.Some? && h <= points[last].time.value < h + 60 * MINUTE {
        HourUnique(points[last].time.value, h);
        assert counted == before + {last};
      } else {
        assert counted == before;
      }
    }
  }
}
