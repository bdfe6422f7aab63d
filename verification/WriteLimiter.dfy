/** The per-client write limit: one fixed minute window per key, in memory or in Redis. */
module WriteLimiter {
  import opened Wrappers
  import opened Clock

  const PRUNE_ABOVE: int := 10000

  datatype Call = Call(key: string, now: int)

  datatype MemoryWindow = MemoryWindow(start: int, count: int)

  // ----- the reference: a plain counter per key and minute

  predicate Counts(c: Call, key: string, window: int) {
    c.key == key && MinuteOf(c.now) == window
  }

  function Count(calls: seq<Call>, key: string, window: int): nat {
    if calls == [] then 0
    else Count(calls[..|calls| - 1], key, window) + if Counts(calls[|calls| - 1], key, window) then 1 else 0
  }

  /** The i-th call is within the limit of its own minute, counting itself. */
  predicate Admitted(limit: int, calls: seq<Call>, i: nat)
    requires i < |calls|
  {
    Count(calls[..i + 1], calls[i].key, MinuteOf(calls[i].now)) <= limit
  }

  // ----- memoryLimiter

  /** Above 10000 keys, windows that have ended are dropped first. */
  function Pruned(hits: map<string, MemoryWindow>, window: int): map<string, MemoryWindow> {
    if |hits| > PRUNE_ABOVE then map k | k in hits && hits[k].start >= window :: hits[k] else hits
  }

  function Current(hits: map<string, MemoryWindow>, c: Call): MemoryWindow {
    var window := MinuteOf(c.now);
    if c.key in hits && hits[c.key].start == window then hits[c.key] else MemoryWindow(window, 0)
  }

  function MemoryStep(hits: map<string, MemoryWindow>, c: Call): map<string, MemoryWindow> {
    var pruned := Pruned(hits, MinuteOf(c.now));
    var w := Current(pruned, c);
    pruned[c.key := w.(count := w.count + 1)]
  }

  class MemoryLimiter {
    const limit: int
    var hits: map<string, MemoryWindow>

    constructor (limit: int)
      ensures this.limit == limit && hits == map[]
    {
      this.limit, this.hits := limit, map[];
    }

    method Allow(key: string, now: int) returns (ok: bool, retryAfter: int)
      modifies this
      ensures hits == MemoryStep(old(hits), Call(key, now))
      ensures ok <==> key in hits && hits[key].count <= limit
      ensures retryAfter == if ok then 0 else MinuteOf(now) + MINUTE - now
      ensures !ok ==> 0 < retryAfter <= 60 * SECOND && MinuteOf(now + retryAfter) == MinuteOf(now) + 60 * SECOND
    {
      var window := MinuteOf(now);
      if |hits| > PRUNE_ABOVE {
        var before := hits;
        var rest := hits.Keys;
        while rest != {}
          invariant rest <= before.Keys
          invariant forall k :: k in hits <==> k in before && (k in rest || before[k].start >= window)
          invariant forall k :: k in hits ==> hits[k] == before[k]
          decreases rest
        {
          HasKey(rest);
          var k :| k in rest;
          rest := rest - {k};
          if before[k].start < window {
            hits := hits - {k};
          }
        }
        assert hits == Pruned(before, window);
      }
      var w := if key in hits then hits[key] else MemoryWindow(window, 0);
      if w.start != window {
        w := MemoryWindow(window, 0);
      }
      w := w.(count := w.count + 1);
      hits := hits[key := w];
      if w.count > limit {
        RetryAfterReachesNextWindow(now);
        return false, window + MINUTE - now;
      }
      return true, 0;
    }
  }

  lemma HasKey(keys: set<string>)
    ensures keys == {} || exists k :: k in keys
  {
    if forall k :: k !in keys {
      assert keys == {};
    }
  }

  function HitsAfter(calls: seq<Call>): map<string, MemoryWindow> {
    if calls == [] then map[] else MemoryStep(HitsAfter(calls[..|calls| - 1]), calls[|calls| - 1])
  }

  predicate WindowsInOrder(calls: seq<Call>) {
    forall i, j :: 0 <= i < j < |calls| ==> MinuteOf(calls[i].now) <= MinuteOf(calls[j].now)
  }

  /**
   Call j makes the limiter forget the window (key, window): it moves the key to another window, or it
   prunes a map of more than 10000 keys in a later window.
   */
  predicate Forgets(calls: seq<Call>, j: nat, key: string, window: int)
    requires j < |calls|
  {
    || (calls[j].key == key && MinuteOf(calls[j].now) != window)
    || (|HitsAfter(calls[..j])| > PRUNE_ABOVE && MinuteOf(calls[j].now) > window)
  }

  /** Some call counted in (key, window) and a later one made the limiter forget it. */
  predicate Forgotten(calls: seq<Call>, key: string, window: int) {
    exists p, j :: 0 <= p < j < |calls| && Counts(calls[p], key, window) && Forgets(calls, j, key, window)
  }

  /** A call comes back to a window the limiter has forgotten. */
  predicate Returns(calls: seq<Call>) {
    exists i :: 0 <= i < |calls| && Forgotten(calls[..i], calls[i].key, MinuteOf(calls[i].now))
  }

  /** What is stored for a key is some of its calls in that window, and all of them unless forgotten. */
  ghost predicate HitsOk(calls: seq<Call>, key: string, window: int) {
    var hits, n := HitsAfter(calls), Count(calls, key, window);
    && (key in hits && hits[key].start == window ==> 1 <= hits[key].count <= n)
    && (n > 0 && !Forgotten(calls, key, window) ==> key in hits && hits[key] == MemoryWindow(window, n))
  }

  lemma ForgottenLasts(calls: seq<Call>, c: Call, key: string, window: int)
    requires Forgotten(calls, key, window)
    ensures Forgotten(calls + [c], key, window)
  {
    var p, j :| 0 <= p < j < |calls| && Counts(calls[p], key, window) && Forgets(calls, j, key, window);
    var longer := calls + [c];
    assert longer[..j] == calls[..j];
    assert Counts(longer[p], key, window) && Forgets(longer, j, key, window);
  }

  lemma {:induction false} CountedSomewhere(calls: seq<Call>, key: string, window: int) returns (p: nat)
    requires Count(calls, key, window) > 0
    ensures p < |calls| && Counts(calls[p], key, window)
  {
    p := |calls| - 1;
    if !Counts(calls[p], key, window) {
      p := CountedSomewhere(calls[..p], key, window);
    }
  }

  lemma {:induction false} HitsAreCounts(calls: seq<Call>, key: string, window: int)
    ensures HitsOk(calls, key, window)
  {
    if calls != [] {
      var last := |calls| - 1;
      var before, c := calls[..last], calls[last];
      HitsAreCounts(before, key, window);
      assert calls == before + [c];
      if Forgotten(before, key, window) {
        ForgottenLasts(before, c, key, window);
      }
      if Count(before, key, window) > 0 && !Forgotten(calls, key, window) {
        var p := CountedSomewhere(before, key, window);
        assert Counts(calls[p], key, window);
        assert !Forgets(calls, last, key, window);
      }
    }
  }

  /** Once the window of a key is not stored, only the calls after that can be. */
  lemma {:induction false} LostStaysLost(calls: seq<Call>, m: nat, key: string, window: int)
    requires m <= |calls|
    requires var hits := HitsAfter(calls[..m]); key in hits ==> hits[key].start != window
    ensures var hits := HitsAfter(calls);
            key in hits && hits[key].start == window ==>
              hits[key].count <= Count(calls, key, window) - Count(calls[..m], key, window)
    decreases |calls|
  {
    if m == |calls| {
      assert calls[..m] == calls;
    } else {
      var last := |calls| - 1;
      assert calls[..last][..m] == calls[..m];
      LostStaysLost(calls[..last], m, key, window);
      CountGrows(calls[..last], m, key, window);
    }
  }

  lemma {:induction false} CountGrows(calls: seq<Call>, m: nat, key: string, window: int)
    requires m <= |calls|
    ensures Count(calls[..m], key, window) <= Count(calls, key, window)
    decreases |calls|
  {
    if m == |calls| {
      assert calls[..m] == calls;
    } else {
      assert calls[..|calls| - 1][..m] == calls[..m];
      CountGrows(calls[..|calls| - 1], m, key, window);
    }
  }

  /** What the limiter has counted for the i-th call, itself included. */
  function Counted(calls: seq<Call>, i: nat): int
    requires i < |calls|
  {
    Current(Pruned(HitsAfter(calls[..i]), MinuteOf(calls[i].now)), calls[i]).count + 1
  }

  lemma CountedIsStored(calls: seq<Call>, i: nat)
    requires i < |calls|
    ensures calls[i].key in HitsAfter(calls[..i + 1])
    ensures HitsAfter(calls[..i + 1])[calls[i].key] == MemoryWindow(MinuteOf(calls[i].now), Counted(calls, i))
  {
    assert calls[..i + 1][..i] == calls[..i];
  }

  lemma CountOfNext(calls: seq<Call>, i: nat)
    requires i < |calls|
    ensures var key, window := calls[i].key, MinuteOf(calls[i].now);
            Count(calls[..i + 1], key, window) == Count(calls[..i], key, window) + 1
  {
    assert calls[..i + 1][..i] == calls[..i];
  }

  /** Pruning for a call keeps what the call itself needs. */
  lemma PruningKeepsCurrent(hits: map<string, MemoryWindow>, c: Call)
    ensures Current(Pruned(hits, MinuteOf(c.now)), c) == Current(hits, c)
  {
  }

  lemma ForgottenCountsLess(calls: seq<Call>, key: string, window: int)
    requires Forgotten(calls, key, window)
    ensures var hits := HitsAfter(calls);
            && Count(calls, key, window) >= 1
            && (key in hits && hits[key].start == window ==> hits[key].count < Count(calls, key, window))
  {
    var p, j :| 0 <= p < j < |calls| && Counts(calls[p], key, window) && Forgets(calls, j, key, window);
    WindowLost(calls, j, key, window);
    LostStaysLost(calls, j + 1, key, window);
    CountedBefore(calls, p, j + 1, key, window);
    CountGrows(calls, j + 1, key, window);
  }

  /** The limiter has the right count for a call exactly when the call does not come back to a forgotten window. */
  lemma CountedExactly(calls: seq<Call>, i: nat)
    requires i < |calls|
    ensures var key, window := calls[i].key, MinuteOf(calls[i].now);
            && Counted(calls, i) <= Count(calls[..i + 1], key, window)
            && (Counted(calls, i) == Count(calls[..i + 1], key, window) <==> !Forgotten(calls[..i], key, window))
  {
    var key, window, before := calls[i].key, MinuteOf(calls[i].now), calls[..i];
    HitsAreCounts(before, key, window);
    CountOfNext(calls, i);
    PruningKeepsCurrent(HitsAfter(before), calls[i]);
    if Forgotten(before, key, window) {
      ForgottenCountsLess(before, key, window);
    }
  }

  /** After a call that forgets it, the window is not stored. */
  lemma WindowLost(calls: seq<Call>, j: nat, key: string, window: int)
    requires j < |calls| && Forgets(calls, j, key, window)
    ensures var hits := HitsAfter(calls[..j + 1]); key in hits ==> hits[key].start != window
  {
    assert calls[..j + 1][..j] == calls[..j];
  }

  lemma CountedBefore(calls: seq<Call>, p: nat, m: nat, key: string, window: int)
    requires p < m <= |calls| && Counts(calls[p], key, window)
    ensures Count(calls[..m], key, window) >= 1
  {
    assert calls[..p + 1][..p] == calls[..p];
    assert calls[..m][..p + 1] == calls[..p + 1];
    CountGrows(calls[..m], p + 1, key, window);
  }

  /** The i-th answer of the limiter. */
  predicate MemoryAllows(limit: int, calls: seq<Call>, i: nat)
    requires i < |calls|
  {
    Counted(calls, i) <= limit
  }

  /**
   The in-memory limiter gives the answers of a plain counter, for every limit and despite its resets and
   pruning, exactly when no call comes back to a window the limiter has forgotten.
   */
  lemma MemoryAgreesIffNoReturn(calls: seq<Call>)
    ensures (forall limit, i :: 0 <= i < |calls| ==> (MemoryAllows(limit, calls, i) <==> Admitted(limit, calls, i)))
            <==> !Returns(calls)
  {
    if Returns(calls) {
      var i :| 0 <= i < |calls| && Forgotten(calls[..i], calls[i].key, MinuteOf(calls[i].now));
      CountedExactly(calls, i);
      var n := Count(calls[..i + 1], calls[i].key, MinuteOf(calls[i].now));
      assert MemoryAllows(n - 1, calls, i) && !Admitted(n - 1, calls, i);
    } else {
      forall limit, i | 0 <= i < |calls| ensures MemoryAllows(limit, calls, i) <==> Admitted(limit, calls, i) {
        CountedExactly(calls, i);
      }
    }
  }

  lemma InOrderNeverForgets(calls: seq<Call>, p: nat, j: nat, k: nat)
    requires WindowsInOrder(calls) && p < j < k < |calls| && Counts(calls[p], calls[k].key, MinuteOf(calls[k].now))
    ensures !Forgets(calls[..k], j, calls[k].key, MinuteOf(calls[k].now))
  {
    assert calls[..k][j] == calls[j];
    assert MinuteOf(calls[p].now) <= MinuteOf(calls[j].now) <= MinuteOf(calls[k].now);
  }

  /** In particular whenever the windows arrive in order. */
  lemma MemoryAgreesInOrder(limit: int, calls: seq<Call>, i: nat)
    requires WindowsInOrder(calls) && i < |calls|
    ensures MemoryAllows(limit, calls, i) <==> Admitted(limit, calls, i)
  {
    var key, window := calls[i].key, MinuteOf(calls[i].now);
    forall p, j | 0 <= p < j < i && Counts(calls[..i][p], key, window) ensures !Forgets(calls[..i], j, key, window) {
      assert calls[..i][p] == calls[p];
      InOrderNeverForgets(calls, p, j, i);
    }
    CountedExactly(calls, i);
  }

  /** Clock readings are taken before the lock, so windows can arrive out of order, and then calls are forgotten. */
  lemma MemoryForgetsOutOfOrder()
    ensures var calls := [Call("ip", 0), Call("ip", MINUTE), Call("ip", 1)];
            !WindowsInOrder(calls) && HitsAfter(calls)["ip"].count <= 1 && !Admitted(1, calls, 2)
  {
    var calls := [Call("ip", 0), Call("ip", MINUTE), Call("ip", 1)];
    assert calls[..2] == [Call("ip", 0), Call("ip", MINUTE)] && calls[..2][..1] == [Call("ip", 0)] && calls[..3] == calls;
    assert calls[..1][..0] == [];
    MinuteUnique(0, 0);
    MinuteUnique(1, 0);
    MinuteUnique(MINUTE, MINUTE);
    assert HitsAfter(calls[..1]) == map["ip" := MemoryWindow(0, 1)];
    assert HitsAfter(calls[..2]) == map["ip" := MemoryWindow(MINUTE, 1)];
    assert HitsAfter(calls) == map["ip" := MemoryWindow(0, 1)];
    assert Count(calls[..1], "ip", 0) == 1 && Count(calls[..2], "ip", 0) == 1 && Count(calls, "ip", 0) == 2;
    assert MinuteOf(calls[1].now) > MinuteOf(calls[2].now);
  }

  // ----- redisLimiter

  /**
   A call as Redis sees it. The key is made from a clock reading of the caller; Redis counts the hit when INCR
   arrives, at `at`, and starts the two minutes when EXPIRE arrives, at `expireAt`, if it does.
   */
  datatype Hit = Hit(call: Call, at: int, expireAt: Option<int>)

  /** INCR arrives after the clock reading its key is made from, and EXPIRE after INCR. */
  predicate Plausible(hits: seq<Hit>) {
    forall i :: 0 <= i < |hits| ==>
      hits[i].call.now <= hits[i].at && (hits[i].expireAt.Some? ==> hits[i].at <= hits[i].expireAt.value)
  }

  datatype RedisCounter = RedisCounter(count: int, expires: Option<int>)

  /** When the counter started by this hit is gone: never, if its EXPIRE got lost. */
  function Expiry(h: Hit): Option<int> {
    if h.expireAt.Some? then Some(h.expireAt.value + 2 * MINUTE) else None
  }

  predicate ExpiredAt(expires: Option<int>, t: int) {
    expires.Some? && expires.value <= t
  }

  function RedisKey(c: Call): (string, int) {
    (c.key, MinuteOf(c.now))
  }

  /** INCR on a key per client and window; the hit that starts a counter lets it expire. */
  function RedisStep(store: map<(string, int), RedisCounter>, h: Hit): map<(string, int), RedisCounter> {
    var key := RedisKey(h.call);
    if key in store && !ExpiredAt(store[key].expires, h.at) && store[key].count > 0
    then store[key := store[key].(count := store[key].count + 1)]
    else store[key := RedisCounter(1, Expiry(h))]
  }

  class RedisLimiter {
    const limit: int
    var store: map<(string, int), RedisCounter>

    constructor (limit: int)
      ensures this.limit == limit && store == map[]
    {
      this.limit, this.store := limit, map[];
    }

    /** A Redis error lets the write through uncounted; a lost EXPIRE goes unnoticed. */
    method Allow(key: string, now: int, at: int, expireAt: Option<int>, incrFails: bool) returns (ok: bool, retryAfter: int)
      requires forall k :: k in store ==> store[k].count > 0
      modifies this
      ensures forall k :: k in store ==> store[k].count > 0
      ensures incrFails ==> ok && store == old(store)
      ensures !incrFails ==> store == RedisStep(old(store), Hit(Call(key, now), at, expireAt))
                             && (ok <==> store[(key, MinuteOf(now))].count <= limit)
      ensures retryAfter == if ok then 0 else MinuteOf(now) + MINUTE - now
      ensures !ok ==> 0 < retryAfter <= 60 * SECOND && MinuteOf(now + retryAfter) == MinuteOf(now) + 60 * SECOND
    {
      if incrFails {
        return true, 0;
      }
      var window := MinuteOf(now);
      var redisKey := (key, window);
      var n, expires := 1, None;
      if redisKey in store && !ExpiredAt(store[redisKey].expires, at) {
        n, expires := store[redisKey].count + 1, store[redisKey].expires;
      }
      if n == 1 && expireAt.Some? {
        expires := Some(expireAt.value + 2 * MINUTE);
      }
      store := store[redisKey := RedisCounter(n, expires)];
      if n > limit {
        RetryAfterReachesNextWindow(now);
        return false, window + MINUTE - now;
      }
      return true, 0;
    }
  }

  function StoreAfter(hits: seq<Hit>): map<(string, int), RedisCounter> {
    if hits == [] then map[] else RedisStep(StoreAfter(hits[..|hits| - 1]), hits[|hits| - 1])
  }

  function CallsOf(hits: seq<Hit>): (calls: seq<Call>)
    ensures |calls| == |hits|
    ensures forall i :: 0 <= i < |hits| ==> calls[i] == hits[i].call
  {
    if hits == [] then [] else CallsOf(hits[..|hits| - 1]) + [hits[|hits| - 1].call]
  }

  /** What Redis has counted for the i-th hit, itself included. */
  function RedisCounted(hits: seq<Hit>, i: nat): int
    requires i < |hits|
  {
    var store := StoreAfter(hits[..i + 1]);
    assert hits[..i + 1][|hits[..i + 1]| - 1] == hits[i];
    store[RedisKey(hits[i].call)].count
  }

  /** Hit p is the first of its client and window. */
  predicate Starts(hits: seq<Hit>, p: nat)
    requires p < |hits|
  {
    forall q :: 0 <= q < p ==> RedisKey(hits[q].call) != RedisKey(hits[p].call)
  }

  /** Hit i comes when the counter that the first hit of its window started has expired. */
  predicate ComesLate(hits: seq<Hit>, p: nat, i: nat) {
    && p < i < |hits| && RedisKey(hits[p].call) == RedisKey(hits[i].call)
    && Starts(hits, p) && ExpiredAt(Expiry(hits[p]), hits[i].at)
  }

  ghost predicate Lapses(hits: seq<Hit>) {
    exists p: nat, i: nat :: ComesLate(hits, p, i)
  }

  lemma {:induction false} CallsOfPrefix(hits: seq<Hit>, n: nat)
    requires n <= |hits|
    ensures CallsOf(hits[..n]) == CallsOf(hits)[..n]
  {
  }

  /** Without a lapse each counter is the one its first hit started, and has counted everything since. */
  ghost predicate CountersOk(hits: seq<Hit>, key: (string, int)) {
    var store, n := StoreAfter(hits), Count(CallsOf(hits), key.0, key.1);
    if n == 0 then key !in store && forall p :: 0 <= p < |hits| ==> RedisKey(hits[p].call) != key
    else
      && key in store && store[key].count == n
      && exists p: nat :: p < |hits| && StartedBy(hits, p, key, store[key].expires)
  }

  predicate StartedBy(hits: seq<Hit>, p: nat, key: (string, int), expires: Option<int>)
    requires p < |hits|
  {
    RedisKey(hits[p].call) == key && Starts(hits, p) && expires == Expiry(hits[p])
  }

  /** What lapses early has lapsed for good. */
  lemma {:induction false} LapseLasts(hits: seq<Hit>, n: nat)
    requires n <= |hits| && !Lapses(hits)
    ensures !Lapses(hits[..n])
  {
    if p: nat, i: nat :| ComesLate(hits[..n], p, i) {
      assert hits[..n][p] == hits[p] && hits[..n][i] == hits[i];
      forall q | 0 <= q < p ensures RedisKey(hits[q].call) != RedisKey(hits[p].call) {
        assert hits[..n][q] == hits[q];
      }
      assert ComesLate(hits, p, i);
    }
  }

  lemma {:induction false} CountersAreCounts(hits: seq<Hit>, key: (string, int))
    requires !Lapses(hits) && key.1 % MINUTE == 0
    ensures CountersOk(hits, key)
  {
    if hits != [] {
      var last := |hits| - 1;
      var before, h := hits[..last], hits[last];
      assert before + [h] == hits;
      LapseLasts(hits, last);
      CountersAreCounts(before, key);
      CountedNext(before, h, key);
    }
  }

  lemma {:induction false} StartedStays(before: seq<Hit>, h: Hit, p: nat, key: (string, int), expires: Option<int>)
    requires p < |before| && StartedBy(before, p, key, expires)
    ensures StartedBy(before + [h], p, key, expires)
  {
    assert forall q :: 0 <= q <= p ==> (before + [h])[q] == before[q];
  }

  lemma {:induction false} CountedAnother(before: seq<Hit>, h: Hit, key: (string, int))
    ensures Count(CallsOf(before + [h]), key.0, key.1)
            == Count(CallsOf(before), key.0, key.1) + if RedisKey(h.call) == key then 1 else 0
  {
    var hits := before + [h];
    assert hits[..|before|] == before;
    assert CallsOf(hits)[..|before|] == CallsOf(before) && CallsOf(hits)[|before|] == h.call;
  }

  lemma {:induction false} StoredAnother(before: seq<Hit>, h: Hit)
    ensures StoreAfter(before + [h]) == RedisStep(StoreAfter(before), h)
  {
    assert (before + [h])[..|before|] == before;
  }

  /** One more hit in time. */
  lemma {:induction false} CountedNext(before: seq<Hit>, h: Hit, key: (string, int))
    requires CountersOk(before, key) && !Lapses(before + [h])
    ensures CountersOk(before + [h], key)
  {
    var hits, n := before + [h], |before|;
    CountedAnother(before, h, key);
    StoredAnother(before, h);
    if Count(CallsOf(before), key.0, key.1) > 0 {
      var p: nat :| p < |before| && StartedBy(before, p, key, StoreAfter(before)[key].expires);
      StartedStays(before, h, p, key, StoreAfter(before)[key].expires);
      assert RedisKey(h.call) == key ==> !ComesLate(hits, p, n);
    } else if RedisKey(h.call) == key {
      assert StartedBy(hits, n, key, Expiry(h));
    }
  }

  lemma {:induction false} CountOfHit(hits: seq<Hit>, i: nat)
    requires i < |hits|
    ensures Count(CallsOf(hits)[..i + 1], hits[i].call.key, MinuteOf(hits[i].call.now))
            == Count(CallsOf(hits)[..i], hits[i].call.key, MinuteOf(hits[i].call.now)) + 1
  {
    CountOfNext(CallsOf(hits), i);
  }

  /** A hit in time is counted right. */
  lemma {:induction false} InTimeIsCounted(hits: seq<Hit>, i: nat)
    requires i < |hits| && !Lapses(hits[..i + 1])
    ensures RedisCounted(hits, i) == Count(CallsOf(hits)[..i + 1], hits[i].call.key, MinuteOf(hits[i].call.now))
  {
    var seen := hits[..i + 1];
    assert seen[|seen| - 1] == hits[i];
    CallsOfPrefix(hits, i + 1);
    CountOfHit(hits, i);
    CountersAreCounts(seen, RedisKey(hits[i].call));
  }

  /** The first hit that comes late starts its counter again. */
  lemma {:induction false} LateIsMiscounted(hits: seq<Hit>, p: nat, i: nat)
    requires ComesLate(hits, p, i) && !Lapses(hits[..i])
    ensures RedisCounted(hits, i) == 1 && Count(CallsOf(hits)[..i + 1], hits[i].call.key, MinuteOf(hits[i].call.now)) >= 2
  {
    CountersAreCounts(hits[..i], RedisKey(hits[i].call));
    assert hits[..i][p] == hits[p];
    CounterExpired(hits, p, i);
    CallsOfPrefix(hits, i);
    CountOfHit(hits, i);
  }

  /** The counter that a late hit finds is the one of the first hit, and gone. */
  lemma {:induction false} CounterExpired(hits: seq<Hit>, p: nat, i: nat)
    requires ComesLate(hits, p, i) && CountersOk(hits[..i], RedisKey(hits[i].call))
    ensures RedisCounted(hits, i) == 1
  {
    var key, before := RedisKey(hits[i].call), hits[..i];
    assert hits[..i + 1][..i] == before && hits[..i + 1][i] == hits[i];
    assert before[p] == hits[p];
    if key in StoreAfter(before) {
      var q: nat :| q < |before| && StartedBy(before, q, key, StoreAfter(before)[key].expires);
      assert before[q] == hits[q] && q == p;
    }
  }

  /** The first i at which a lapse shows. */
  lemma {:induction false} FirstLapse(hits: seq<Hit>, n: nat) returns (p: nat, i: nat)
    requires n <= |hits| && Lapses(hits[..n])
    ensures i < n && ComesLate(hits, p, i) && !Lapses(hits[..i])
    decreases n
  {
    var last := n - 1;
    if n > 0 && Lapses(hits[..last]) {
      p, i := FirstLapse(hits, last);
    } else {
      p, i :| ComesLate(hits[..n], p, i);
      assert forall q :: 0 <= q < n ==> hits[..n][q] == hits[q];
      if i < last {
        assert forall q :: 0 <= q < last ==> hits[..last][q] == hits[q];
        assert ComesLate(hits[..last], p, i);
      }
    }
  }

  /**
   Redis gives the answers of a plain counter, for every limit and in every order of clock readings, exactly when
   no INCR arrives after the counter that the first hit of its window started has expired.
   */
  lemma {:induction false} RedisAgreesIffNoLapse(hits: seq<Hit>)
    ensures (forall limit, i :: 0 <= i < |hits| ==> (RedisCounted(hits, i) <= limit <==> Admitted(limit, CallsOf(hits), i)))
            <==> !Lapses(hits)
  {
    if Lapses(hits) {
      assert hits[..|hits|] == hits;
      var p, i := FirstLapse(hits, |hits|);
      LateIsMiscounted(hits, p, i);
      assert RedisCounted(hits, i) <= 1 && !Admitted(1, CallsOf(hits), i);
    } else {
      forall limit, i | 0 <= i < |hits| ensures RedisCounted(hits, i) <= limit <==> Admitted(limit, CallsOf(hits), i) {
        LapseLasts(hits, i + 1);
        InTimeIsCounted(hits, i);
      }
    }
  }

  /** In particular whenever each INCR arrives before two minutes after the start of its window. */
  lemma {:induction false} RedisAgreesWithinTwoMinutes(limit: int, hits: seq<Hit>, i: nat)
    requires Plausible(hits) && i < |hits|
    requires forall j :: 0 <= j < |hits| ==> hits[j].at < MinuteOf(hits[j].call.now) + 2 * MINUTE
    ensures RedisCounted(hits, i) <= limit <==> Admitted(limit, CallsOf(hits), i)
  {
    forall p: nat, j: nat ensures !ComesLate(hits, p, j) {
      if p < j < |hits| && RedisKey(hits[p].call) == RedisKey(hits[j].call) {
        assert MinuteOf(hits[p].call.now) <= hits[p].call.now;
      }
    }
    LapseLasts(hits, i + 1);
    InTimeIsCounted(hits, i);
  }

  /** A hit held up for more than two minutes finds its counter gone, and is let through beyond the limit. */
  lemma {:induction false} RedisForgetsLateHits()
    ensures var hits := [Hit(Call("ip", 30 * SECOND), 30 * SECOND, Some(30 * SECOND)), Hit(Call("ip", 45 * SECOND), 3 * MINUTE, None)];
            Plausible(hits) && RedisCounted(hits, 1) <= 1 && !Admitted(1, CallsOf(hits), 1)
  {
    var hits := [Hit(Call("ip", 30 * SECOND), 30 * SECOND, Some(30 * SECOND)), Hit(Call("ip", 45 * SECOND), 3 * MINUTE, None)];
    MinuteUnique(30 * SECOND, 0);
    MinuteUnique(45 * SECOND, 0);
    assert Starts(hits, 0);
    assert ComesLate(hits, 0, 1);
    assert !Lapses(hits[..1]);
    LateIsMiscounted(hits, 0, 1);
  }

  // ----- what the limit is worth

  /** How many calls of the key in the window are admitted. */
  function AdmittedIn(limit: int, calls: seq<Call>, key: string, window: int): nat {
    if calls == [] then 0
    else
      var last := |calls| - 1;
      AdmittedIn(limit, calls[..last], key, window) +
      if Counts(calls[last], key, window) && Admitted(limit, calls, last) then 1 else 0
  }

  /** Of the calls of one client in one minute exactly the first ones up to the limit are admitted. */
  lemma {:induction false} WindowLimited(limit: nat, calls: seq<Call>, key: string, window: int)
    ensures AdmittedIn(limit, calls, key, window)
         == if Count(calls, key, window) < limit then Count(calls, key, window) else limit
  {
    if calls != [] {
      var last := |calls| - 1;
      WindowLimited(limit, calls[..last], key, window);
      assert calls[..last + 1] == calls;
    }
  }

  /** How many calls of the key from time t on and less than a minute later are admitted. */
  function AdmittedWithin(limit: int, calls: seq<Call>, key: string, t: int): nat {
    if calls == [] then 0
    else
      var last := |calls| - 1;
      AdmittedWithin(limit, calls[..last], key, t) +
      if calls[last].key == key && t <= calls[last].now < t + MINUTE && Admitted(limit, calls, last) then 1 else 0
  }

  lemma {:induction false} SpanIsTwoWindows(limit: nat, calls: seq<Call>, key: string, t: int)
    ensures AdmittedWithin(limit, calls, key, t)
         <= AdmittedIn(limit, calls, key, MinuteOf(t)) + AdmittedIn(limit, calls, key, MinuteOf(t) + MINUTE)
  {
    if calls != [] {
      var last := |calls| - 1;
      SpanIsTwoWindows(limit, calls[..last], key, t);
      if t <= calls[last].now < t + MINUTE {
        if calls[last].now < MinuteOf(t) + MINUTE {
          MinuteUnique(calls[last].now, MinuteOf(t));
        } else {
          MinuteUnique(calls[last].now, MinuteOf(t) + MINUTE);
        }
      }
    }
  }

  /** No span of sixty seconds, wherever it starts, admits more than twice the limit of one client. */
  lemma SpanLimited(limit: nat, calls: seq<Call>, key: string, t: int)
    ensures AdmittedWithin(limit, calls, key, t) <= 2 * limit
  {
    SpanIsTwoWindows(limit, calls, key, t);
    WindowLimited(limit, calls, key, MinuteOf(t));
    WindowLimited(limit, calls, key, MinuteOf(t) + MINUTE);
  }

  // ----- and what the two limiters admit

  /** How many calls of the key in a span of sixty seconds from t the in-memory limiter admits. */
  function MemoryAdmits(limit: int, calls: seq<Call>, key: string, t: int): nat {
    if calls == [] then 0
    else
      var last := |calls| - 1;
      MemoryAdmits(limit, calls[..last], key, t) +
      if calls[last].key == key && t <= calls[last].now < t + MINUTE && MemoryAllows(limit, calls, last) then 1 else 0
  }

  lemma {:induction false} MemoryAdmitsAsCounted(limit: int, calls: seq<Call>, key: string, t: int)
    requires WindowsInOrder(calls)
    ensures MemoryAdmits(limit, calls, key, t) == AdmittedWithin(limit, calls, key, t)
  {
    if calls != [] {
      var last := |calls| - 1;
      MemoryAdmitsAsCounted(limit, calls[..last], key, t);
      MemoryAgreesInOrder(limit, calls, last);
    }
  }

  /** With windows in order, the in-memory limiter admits twice the limit at most in any sixty seconds. */
  lemma MemorySpanLimited(limit: nat, calls: seq<Call>, key: string, t: int)
    requires WindowsInOrder(calls)
    ensures MemoryAdmits(limit, calls, key, t) <= 2 * limit
  {
    MemoryAdmitsAsCounted(limit, calls, key, t);
    SpanLimited(limit, calls, key, t);
  }

  /** The same for hits counted by Redis, by the clock readings of their callers. */
  function RedisAdmits(limit: int, hits: seq<Hit>, key: string, t: int): nat {
    if hits == [] then 0
    else
      var last := |hits| - 1;
      RedisAdmits(limit, hits[..last], key, t) +
      if hits[last].call.key == key && t <= hits[last].call.now < t + MINUTE && RedisCounted(hits, last) <= limit then 1 else 0
  }

  lemma {:induction false} RedisAdmitsAsCounted(limit: int, hits: seq<Hit>, key: string, t: int)
    requires !Lapses(hits)
    ensures RedisAdmits(limit, hits, key, t) == AdmittedWithin(limit, CallsOf(hits), key, t)
  {
    if hits != [] {
      var last := |hits| - 1;
      LapseLasts(hits, last);
      RedisAdmitsAsCounted(limit, hits[..last], key, t);
      CallsOfPrefix(hits, last);
      assert hits[..last + 1] == hits;
      InTimeIsCounted(hits, last);
    }
  }

  /** With no hit after its counter expired, Redis admits twice the limit at most in any sixty seconds. */
  lemma {:induction false} RedisSpanLimited(limit: nat, hits: seq<Hit>, key: string, t: int)
    requires !Lapses(hits)
    ensures RedisAdmits(limit, hits, key, t) <= 2 * limit
  {
    RedisAdmitsAsCounted(limit, hits, key, t);
    SpanLimited(limit, CallsOf(hits), key, t);
  }

  /** Waiting as told leads into the next window, not beyond it. */
  lemma RetryAfterReachesNextWindow(now: int)
    ensures var wait := MinuteOf(now) + MINUTE - now; 0 < wait <= MINUTE && MinuteOf(now + wait) == MinuteOf(now) + MINUTE
  {
    MinuteUnique(MinuteOf(now) + MINUTE, MinuteOf(now) + MINUTE);
  }

  // ----- what is counted, and when it is dropped

  predicate InSixtySeconds(c: Call, key: string, window: int) {
    c.key == key && window <= c.now < window + 60 * SECOND
  }

  lemma CountsSixtySeconds(c: Call, key: string, window: int)
    requires window % MINUTE == 0
    ensures Counts(c, key, window) <==> InSixtySeconds(c, key, window)
  {
    if InSixtySeconds(c, key, window) {
      MinuteUnique(c.now, window);
    }
  }

  /** A client's calls of one minute are counted, and no others. */
  lemma {:induction false} CountIsOfOneMinute(calls: seq<Call>, key: string, window: int)
    requires window % MINUTE == 0
    ensures Count(calls, key, window) == |set i | 0 <= i < |calls| && InSixtySeconds(calls[i], key, window)|
  {
    var counted := set i | 0 <= i < |calls| && InSixtySeconds(calls[i], key, window);
    if calls == [] {
      assert counted == {};
    } else {
      var last := |calls| - 1;
      CountIsOfOneMinute(calls[..last], key, window);
      CountsSixtySeconds(calls[last], key, window);
      var before := set i | 0 <= i < last && InSixtySeconds(calls[..last][i], key, window);
      assert counted == if InSixtySeconds(calls[last], key, window) then before + {last} else before;
    }
  }

  /** Nothing is dropped at 10000 keys or fewer; above, exactly the windows that have ended. */
  lemma PrunesAboveTenThousand(hits: map<string, MemoryWindow>, window: int)
    ensures |hits| <= 10000 ==> Pruned(hits, window) == hits
    ensures |hits| > 10000 ==> forall k :: k in Pruned(hits, window) <==> k in hits && hits[k].start >= window
    ensures forall k :: k in Pruned(hits, window) ==> Pruned(hits, window)[k] == hits[k]
  {
  }

  /** A Redis counter lives for two minutes from its EXPIRE, to the moment. */
  lemma {:induction false} CounterLivesTwoMinutes(first: Hit, second: Hit)
    requires RedisKey(first.call) == RedisKey(second.call) && first.expireAt.Some?
    ensures RedisCounted([first, second], 1) == if second.at < first.expireAt.value + 120 * SECOND then 2 else 1
  {
    var hits := [first, second];
    assert hits[..2] == hits && hits[..1] == [first] && [first][..0] == [];
    assert StoreAfter([first]) == map[RedisKey(first.call) := RedisCounter(1, Expiry(first))];
  }
}
