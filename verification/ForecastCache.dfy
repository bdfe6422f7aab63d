/** The Redis-backed forecast cache in front of a provider. */
module ForecastCache {
  import opened Wrappers
  import opened Clock
  import opened Window
  import opened MockGrid

  datatype Entry = Entry(forecast: seq<Slot>, expires: int)

  /**
   One call. It reads the clock up to four times: when Redis looks the key up, inside the provider,
   for the TTL, and when Redis stores the entry. `getFails` and `setFails` are Redis errors or
   evictions, `early` is how much sooner than asked Redis drops the entry.
   */
  datatype Call = Call(zip: string, lookupAt: int, fetchAt: int, ttlAt: int, storeAt: int,
                       getFails: bool, setFails: bool, early: nat)

  type Reply = Result<seq<Slot>, string>

  function CacheKey(name: string, zip: string): string {
    "forecast:" + name + ":" + zip
  }

  /** The configured TTL, capped at the next hour boundary. */
  function CacheTTL(now: int, configured: int): int {
    var untilHour := HourOf(now) + HOUR - now;
    if untilHour < configured then untilHour else configured
  }

  predicate Hits(name: string, store: map<string, Entry>, c: Call) {
    var key := CacheKey(name, c.zip);
    !c.getFails && key in store && c.lookupAt < store[key].expires
  }

  /** What the call returns, given what the provider would answer. */
  function Served(name: string, store: map<string, Entry>, c: Call, inner: Reply): Reply {
    if Hits(name, store, c) then Ok(store[CacheKey(name, c.zip)].forecast) else inner
  }

  /** A call that missed and got a forecast stores it, unless less than a second is left or Redis errs. */
  predicate Puts(ttl: int, c: Call, inner: Reply) {
    inner.Ok? && CacheTTL(c.ttlAt, ttl) >= SECOND && !c.setFails
  }

  function AfterPut(name: string, ttl: int, store: map<string, Entry>, c: Call, inner: Reply): map<string, Entry> {
    if Puts(ttl, c, inner)
    then store[CacheKey(name, c.zip) := Entry(inner.value, c.storeAt + CacheTTL(c.ttlAt, ttl) - c.early)]
    else store
  }

  /** A whole call, with nobody else in between. */
  function NextStore(name: string, ttl: int, store: map<string, Entry>, c: Call, inner: Reply): map<string, Entry> {
    if Hits(name, store, c) then store else AfterPut(name, ttl, store, c, inner)
  }

  class Cached {
    const name: string
    const ttl: int
    var store: map<string, Entry>

    constructor (name: string, ttl: int)
      ensures this.name == name && this.ttl == ttl && store == map[]
    {
      this.name, this.ttl, this.store := name, ttl, map[];
    }

    method GetForecast(c: Call, inner: Reply) returns (r: Reply)
      modifies this
      ensures r == Served(name, old(store), c, inner)
      ensures store == NextStore(name, ttl, old(store), c, inner)
    {
      var key := CacheKey(name, c.zip);
      if !c.getFails && key in store && c.lookupAt < store[key].expires {
        return Ok(store[key].forecast);
      }
      if inner.Err? {
        return inner;
      }
      var untilHour := HourOf(c.ttlAt) + HOUR - c.ttlAt;
      var entryTTL := if untilHour < ttl then untilHour else ttl;
      if entryTTL >= SECOND {
        if !c.setFails {
          store := store[key := Entry(inner.value, c.storeAt + entryTTL - c.early)];
        }
      }
      r := inner;
    }
  }

  // ----- traces over the mock provider

  function InnerReply(hash: HashFn, c: Call): Reply {
    Ok(MockForecast(hash, c.zip, c.fetchAt))
  }

  /** Calls overlap: each looks its key up at one moment and, if it missed, stores at a later one. */
  datatype Event = Lookup(call: Call) | Put(call: Call)

  function TimeOf(e: Event): int {
    if e.Lookup? then e.call.lookupAt else e.call.storeAt
  }

  function StoreAfter(hash: HashFn, name: string, ttl: int, events: seq<Event>): map<string, Entry> {
    if events == [] then map[]
    else
      var e, before := events[|events| - 1], StoreAfter(hash, name, ttl, events[..|events| - 1]);
      if e.Put? then AfterPut(name, ttl, before, e.call, InnerReply(hash, e.call)) else before
  }

  /** A call made alone is its lookup, followed by its store when it missed. */
  function EventsOf(name: string, store: map<string, Entry>, c: Call): seq<Event> {
    if Hits(name, store, c) then [Lookup(c)] else [Lookup(c), Put(c)]
  }

  lemma AloneIsTwoEvents(hash: HashFn, name: string, ttl: int, events: seq<Event>, c: Call)
    ensures var store := StoreAfter(hash, name, ttl, events);
            StoreAfter(hash, name, ttl, events + EventsOf(name, store, c)) == NextStore(name, ttl, store, c, InnerReply(hash, c))
  {
    var store := StoreAfter(hash, name, ttl, events);
    var longer := events + [Lookup(c)];
    assert longer[..|events|] == events;
    assert StoreAfter(hash, name, ttl, longer) == store;
    if !Hits(name, store, c) {
      var whole := events + EventsOf(name, store, c);
      assert whole[..|events| + 1] == longer && whole[|events| + 1] == Put(c);
    }
  }

  /** When the answer of call c counts as given. */
  function Moment(name: string, store: map<string, Entry>, c: Call): int {
    if Hits(name, store, c) then c.lookupAt else c.fetchAt
  }

  /** The entry is gone by the end of the hour its forecast was made in. */
  predicate Prompt(ttl: int, c: Call) {
    c.storeAt + CacheTTL(c.ttlAt, ttl) <= HourOf(c.fetchAt) + HOUR
  }

  /** The events follow the clock, and each call reads it in its own order. */
  predicate InOrder(events: seq<Event>) {
    && (forall i :: 0 <= i < |events| ==>
          var c := events[i].call; c.lookupAt <= c.fetchAt <= c.ttlAt <= c.storeAt)
    && (forall i, j :: 0 <= i < j < |events| ==> TimeOf(events[i]) <= TimeOf(events[j]))
  }

  predicate AllPrompt(ttl: int, events: seq<Event>) {
    forall i :: 0 <= i < |events| && events[i].Put? ==> Prompt(ttl, events[i].call)
  }

  /** One clock reading per call makes every call prompt, whatever TTL is configured. */
  lemma OneReadingIsPrompt(ttl: int, c: Call)
    requires c.fetchAt == c.ttlAt == c.storeAt
    ensures Prompt(ttl, c)
  {
  }

  lemma KeysDiffer(name: string, zip: string, zip': string)
    requires CacheKey(name, zip) == CacheKey(name, zip')
    ensures zip == zip'
  {
    var prefix := "forecast:" + name + ":";
    assert CacheKey(name, zip) == prefix + zip && CacheKey(name, zip') == prefix + zip';
    assert zip == (prefix + zip)[|prefix|..] && zip' == (prefix + zip')[|prefix|..];
  }

  /** Each entry is a forecast of its zip made at some time, kept no longer than that hour. */
  ghost predicate EntryOk(hash: HashFn, e: Entry, zip: string, made: int, now: int) {
    e.forecast == MockForecast(hash, zip, made) && made <= now && e.expires <= HourOf(made) + HOUR
  }

  lemma {:induction false} EntriesOk(hash: HashFn, name: string, ttl: int, events: seq<Event>, zip: string, now: int)
    requires InOrder(events) && AllPrompt(ttl, events) && forall i :: 0 <= i < |events| ==> TimeOf(events[i]) <= now
    ensures var store := StoreAfter(hash, name, ttl, events);
            CacheKey(name, zip) in store ==> exists made :: EntryOk(hash, store[CacheKey(name, zip)], zip, made, now)
  {
    if events != [] {
      var last := |events| - 1;
      var before, c := StoreAfter(hash, name, ttl, events[..last]), events[last].call;
      EntriesOk(hash, name, ttl, events[..last], zip, now);
      if events[last].Put? && Puts(ttl, c, InnerReply(hash, c)) && CacheKey(name, c.zip) == CacheKey(name, zip) {
        KeysDiffer(name, c.zip, zip);
        assert TimeOf(events[last]) == c.storeAt;
        assert EntryOk(hash, StoreAfter(hash, name, ttl, events)[CacheKey(name, zip)], zip, c.fetchAt, now);
      }
    }
  }

  /**
   Cache agreement: however prompt calls overlap, with any TTL and any Redis failures, what a call is served is
   exactly what the mock provider gives at that moment.
   */
  lemma CacheAgrees(hash: HashFn, name: string, ttl: int, events: seq<Event>, i: nat)
    requires InOrder(events) && AllPrompt(ttl, events) && i < |events| && events[i].Lookup?
    ensures var c, store := events[i].call, StoreAfter(hash, name, ttl, events[..i]);
            Served(name, store, c, InnerReply(hash, c)) == Ok(MockForecast(hash, c.zip, Moment(name, store, c)))
  {
    var c, store := events[i].call, StoreAfter(hash, name, ttl, events[..i]);
    if Hits(name, store, c) {
      assert TimeOf(events[i]) == c.lookupAt;
      EntriesOk(hash, name, ttl, events[..i], c.zip, c.lookupAt);
      var made :| EntryOk(hash, store[CacheKey(name, c.zip)], c.zip, made, c.lookupAt);
      HourUnique(c.lookupAt, HourOf(made));
      MockDependsOnHour(hash, c.zip, made, c.lookupAt);
    }
  }

  /** No served slot has started, so every duration the API accepts can still be scheduled. */
  lemma ServedStaysSchedulable(hash: HashFn, name: string, ttl: int, events: seq<Event>, i: nat)
    requires InOrder(events) && AllPrompt(ttl, events) && i < |events| && events[i].Lookup?
    ensures var c, store := events[i].call, StoreAfter(hash, name, ttl, events[..i]);
            var served, now := Served(name, store, c, InnerReply(hash, c)), Moment(name, store, c);
            served.Ok? && forall duration, appliance, r ::
              0.0 < duration <= SLOTS as real && IsAnswer(UpcomingSlots(served.value, now), duration, appliance, name, r)
              ==> r.Ok? && now < r.value.start
  {
    var c, store := events[i].call, StoreAfter(hash, name, ttl, events[..i]);
    CacheAgrees(hash, name, ttl, events, i);
    MockIsUpcoming(hash, c.zip, Moment(name, store, c));
  }

  // ----- exactly when an entry can go stale

  /** An entry that is kept at all stays right for as long as it is kept exactly when its call was prompt. */
  lemma EntryStaysRightIffPrompt(hash: HashFn, name: string, ttl: int, c: Call, store: map<string, Entry>)
    requires c.lookupAt <= c.fetchAt <= c.ttlAt <= c.storeAt && c.early == 0
    requires Puts(ttl, c, InnerReply(hash, c))
    ensures var e := AfterPut(name, ttl, store, c, InnerReply(hash, c))[CacheKey(name, c.zip)];
            (forall t :: c.storeAt <= t < e.expires ==> e.forecast == MockForecast(hash, c.zip, t)) <==> Prompt(ttl, c)
  {
    var e := AfterPut(name, ttl, store, c, InnerReply(hash, c))[CacheKey(name, c.zip)];
    if Prompt(ttl, c) {
      forall t | c.storeAt <= t < e.expires ensures e.forecast == MockForecast(hash, c.zip, t) {
        HourUnique(t, HourOf(c.fetchAt));
        MockDependsOnHour(hash, c.zip, c.fetchAt, t);
      }
    } else {
      var t := e.expires - 1;
      MockDependsOnHour(hash, c.zip, c.fetchAt, t);
      assert c.storeAt <= t < e.expires && HourOf(t) != HourOf(c.fetchAt);
    }
  }

  /**
   A miss whose provider call ends before the hour and whose TTL is read after it caches the old hour's
   forecast for the new one: the next caller is served a slot that has started, and a 24-hour appliance
   cannot be scheduled.
   */
  lemma StraddlingMiss(hash: HashFn) returns (first: Call, second: Call)
    ensures InOrder([Lookup(first), Put(first), Lookup(second)])
    ensures var ttl := 15 * MINUTE;
            var store := StoreAfter(hash, "mock", ttl, [Lookup(first), Put(first)]);
            var served := Served("mock", store, second, InnerReply(hash, second));
            && Hits("mock", store, second) && served.Ok? && served.value != [] && served.value[0].time < second.lookupAt
            && forall r, a :: IsAnswer(UpcomingSlots(served.value, second.lookupAt), 24.0, a, "mock", r) ==> r.Err?
  {
    first := Call("85281", HOUR - 2, HOUR - 1, HOUR + 1, HOUR + 1, false, false, 0);
    second := Call("85281", HOUR + 2, HOUR + 2, HOUR + 2, HOUR + 2, false, false, 0);
    var events := [Lookup(first), Put(first)];
    assert events[..1] == [Lookup(first)] && events[..1][..0] == [];
    assert StoreAfter(hash, "mock", 15 * MINUTE, events[..1]) == map[];
    var store := StoreAfter(hash, "mock", 15 * MINUTE, events);
    HourUnique(HOUR - 1, 0);
    HourUnique(HOUR + 1, HOUR);
    assert Puts(15 * MINUTE, first, InnerReply(hash, first));
    var f := MockForecast(hash, "85281", HOUR - 1);
    assert store[CacheKey("mock", "85281")].forecast == f;
    assert f[0].time == HOUR;
    UpcomingIsSuffix(f, HOUR + 2);
    assert SlotCount(24.0) == 24;
  }

  // ----- what is stored

  /** The TTL is the configured one or the time to the next hour, whichever is less. */
  lemma TTLIsCapped(now: int, configured: int)
    ensures CacheTTL(now, configured) <= configured
    ensures now + CacheTTL(now, configured) <= HourOf(now) + 60 * MINUTE
    ensures CacheTTL(now, configured) == configured || now + CacheTTL(now, configured) == HourOf(now) + 60 * MINUTE
  {
  }

  /** A hit serves the entry of its own zip, unexpired; anything else is a miss and gets the provider's answer. */
  lemma ServedIsOwnEntryOrInner(name: string, store: map<string, Entry>, c: Call, inner: Reply)
    ensures var key := "forecast:" + name + ":" + c.zip;
            if key in store && !c.getFails && c.lookupAt < store[key].expires
            then Served(name, store, c, inner) == Ok(store[key].forecast)
            else Served(name, store, c, inner) == inner
  {
  }

  /**
   After a call the store holds what it held, but for a miss that got a forecast, with a second or more to keep it and
   no Redis error: then that forecast under the key of its zip, for the capped TTL or less.
   */
  lemma StoredForTheTTL(name: string, ttl: int, store: map<string, Entry>, c: Call, inner: Reply)
    ensures var key, kept := "forecast:" + name + ":" + c.zip, CacheTTL(c.ttlAt, ttl);
            var hit := key in store && !c.getFails && c.lookupAt < store[key].expires;
            NextStore(name, ttl, store, c, inner)
              == if !hit && inner.Ok? && kept >= 1_000_000_000 && !c.setFails
                 then store[key := Entry(inner.value, c.storeAt + kept - c.early)]
                 else store
  {
  }
}
