/** FetchMultiZone: a bounded pool of workers fed through an unbuffered channel. */
module WorkerPool {
  import opened Zones

  datatype Worker =
    | Idle                                        // waiting on the channel
    | Fetching(zip: string)
    | Storing(zip: string, result: FetchResult)   // fetched, about to take the mutex
    | Exited                                      // saw the channel closed

  /** `done` lists the zips stored so far. */
  datatype Pool = Pool(zips: seq<string>, sent: nat, closed: bool, workers: seq<Worker>,
                       out: map<string, FetchResult>, done: seq<string>, returned: bool)

  datatype Step =
    | Hand(w: nat)    // the sender and an idle worker meet
    | Fetch(w: nat)
    | Store(w: nat)
    | Close
    | Exit(w: nat)
    | Return          // wg.Wait() is over

  function Start(zips: seq<string>, workers: int): Pool {
    Pool(zips, 0, false, seq(PoolSize(workers), i => Idle), map[], [], false)
  }

  function PoolSize(workers: int): (n: nat)
    ensures n >= 1
  {
    if workers < 1 then 1 else workers
  }

  predicate Enabled(p: Pool, step: Step) {
    match step
    case Hand(w) => p.sent < |p.zips| && w < |p.workers| && p.workers[w].Idle?
    case Fetch(w) => w < |p.workers| && p.workers[w].Fetching?
    case Store(w) => w < |p.workers| && p.workers[w].Storing?
    case Close => p.sent >= |p.zips| && !p.closed
    case Exit(w) => p.closed && w < |p.workers| && p.workers[w].Idle?
    case Return => p.closed && !p.returned && forall w :: 0 <= w < |p.workers| ==> p.workers[w].Exited?
  }

  function Apply(fetch: string -> FetchResult, p: Pool, step: Step): Pool
    requires Enabled(p, step)
  {
    match step
    case Hand(w) => p.(sent := p.sent + 1, workers := p.workers[w := Fetching(p.zips[p.sent])])
    case Fetch(w) => p.(workers := p.workers[w := Storing(p.workers[w].zip, fetch(p.workers[w].zip))])
    case Store(w) => p.(workers := p.workers[w := Idle],
                        out := p.out[p.workers[w].zip := p.workers[w].result],
                        done := p.done + [p.workers[w].zip])
    case Close => p.(closed := true)
    case Exit(w) => p.(workers := p.workers[w := Exited])
    case Return => p.(returned := true)
  }

  // ----- what every schedule keeps

  predicate BusyWith(w: Worker, zip: string) {
    (w.Fetching? && w.zip == zip) || (w.Storing? && w.zip == zip)
  }

  /** How many workers are fetching or storing this zip. */
  function InFlight(workers: seq<Worker>, zip: string): nat {
    if workers == [] then 0
    else InFlight(workers[..|workers| - 1], zip) + if BusyWith(workers[|workers| - 1], zip) then 1 else 0
  }

  /** How many workers are fetching or storing anything. */
  function BusyCount(workers: seq<Worker>): nat {
    if workers == [] then 0
    else BusyCount(workers[..|workers| - 1]) +
         if workers[|workers| - 1].Fetching? || workers[|workers| - 1].Storing? then 1 else 0
  }

  /** Each zip is waiting, in flight or done as often as it was asked for. */
  ghost predicate Accounted(p: Pool) {
    && p.sent <= |p.zips|
    && forall zip: string :: multiset(p.zips[p.sent..])[zip] + InFlight(p.workers, zip) + multiset(p.done)[zip] == multiset(p.zips)[zip]
  }

  /** Nothing is lost or duplicated, and what is stored is what was fetched. */
  ghost predicate Conserved(fetch: string -> FetchResult, p: Pool) {
    && |p.workers| >= 1
    && Accounted(p)
    && (forall zip :: zip in p.out <==> zip in p.done)
    && (forall zip :: zip in p.out ==> p.out[zip] == fetch(zip))
    && (forall w :: 0 <= w < |p.workers| && p.workers[w].Storing? ==> p.workers[w].result == fetch(p.workers[w].zip))
    && (forall w :: 0 <= w < |p.workers| && p.workers[w].Exited? ==> p.closed)
    && (p.closed ==> p.sent == |p.zips|)
    && (p.returned ==> p.closed && forall w :: 0 <= w < |p.workers| ==> p.workers[w].Exited?)
  }

  lemma {:induction false} InFlightUpdated(workers: seq<Worker>, w: nat, x: Worker, zip: string)
    requires w < |workers|
    ensures InFlight(workers[w := x], zip) + (if BusyWith(workers[w], zip) then 1 else 0)
         == InFlight(workers, zip) + (if BusyWith(x, zip) then 1 else 0)
  {
    var last := |workers| - 1;
    if w < last {
      InFlightUpdated(workers[..last], w, x, zip);
      assert workers[w := x][..last] == workers[..last][w := x];
    } else {
      assert workers[w := x][..last] == workers[..last];
    }
  }

  lemma {:induction false} BusyBounded(workers: seq<Worker>)
    ensures BusyCount(workers) <= |workers|
  {
    if workers != [] {
      BusyBounded(workers[..|workers| - 1]);
    }
  }

  lemma {:induction false} NoneInFlight(workers: seq<Worker>, zip: string)
    requires forall w :: 0 <= w < |workers| ==> workers[w].Idle? || workers[w].Exited?
    ensures InFlight(workers, zip) == 0
  {
    if workers != [] {
      NoneInFlight(workers[..|workers| - 1], zip);
    }
  }

  lemma StartConserved(fetch: string -> FetchResult, zips: seq<string>, workers: int)
    ensures Conserved(fetch, Start(zips, workers))
  {
    forall zip: string ensures InFlight(Start(zips, workers).workers, zip) == 0 {
      NoneInFlight(Start(zips, workers).workers, zip);
    }
    assert zips[0..] == zips;
  }

  /** What waits, what is done, and what worker w has of one zip. */
  function Around(p: Pool, w: nat, zip: string): int
    requires p.sent <= |p.zips| && w < |p.workers|
  {
    multiset(p.zips[p.sent..])[zip] + multiset(p.done)[zip] + if BusyWith(p.workers[w], zip) then 1 else 0
  }

  /** One worker moves, and passes its zip on. */
  lemma MoveAccounted(p: Pool, p': Pool, w: nat)
    requires Accounted(p) && w < |p.workers| == |p'.workers| && p'.workers == p.workers[w := p'.workers[w]]
    requires p'.zips == p.zips && p'.sent <= |p.zips|
    requires forall zip: string :: Around(p', w, zip) == Around(p, w, zip)
    ensures Accounted(p')
  {
    forall zip: string
      ensures multiset(p'.zips[p'.sent..])[zip] + InFlight(p'.workers, zip) + multiset(p'.done)[zip] == multiset(p'.zips)[zip]
    {
      InFlightUpdated(p.workers, w, p'.workers[w], zip);
      assert Around(p', w, zip) == Around(p, w, zip);
    }
  }

  /** Handing, fetching, storing and leaving move a zip on without losing or doubling it. */
  lemma AroundKept(fetch: string -> FetchResult, p: Pool, step: Step, zip: string)
    requires p.sent <= |p.zips| && Enabled(p, step) && !step.Close? && !step.Return?
    ensures Around(Apply(fetch, p, step), step.w, zip) == Around(p, step.w, zip)
  {
    if step.Hand? {
      assert p.zips[p.sent..] == [p.zips[p.sent]] + p.zips[p.sent + 1..];
    }
  }

  lemma StepAccounted(fetch: string -> FetchResult, p: Pool, step: Step)
    requires Accounted(p) && Enabled(p, step)
    ensures Accounted(Apply(fetch, p, step))
  {
    if !step.Close? && !step.Return? {
      forall zip: string ensures Around(Apply(fetch, p, step), step.w, zip) == Around(p, step.w, zip) {
        AroundKept(fetch, p, step, zip);
      }
      MoveAccounted(p, Apply(fetch, p, step), step.w);
    }
  }

  lemma StepConserved(fetch: string -> FetchResult, p: Pool, step: Step)
    requires Conserved(fetch, p) && Enabled(p, step)
    ensures Conserved(fetch, Apply(fetch, p, step))
  {
    StepAccounted(fetch, p, step);
  }

  // ----- whole schedules

  ghost predicate IsSchedule(fetch: string -> FetchResult, zips: seq<string>, workers: int, trace: seq<Pool>, steps: seq<Step>) {
    && |trace| == |steps| + 1 && trace[0] == Start(zips, workers)
    && forall i :: 0 <= i < |steps| ==> Enabled(trace[i], steps[i]) && trace[i + 1] == Apply(fetch, trace[i], steps[i])
  }

  lemma {:induction false} ScheduleConserved(fetch: string -> FetchResult, zips: seq<string>, workers: int,
                                             trace: seq<Pool>, steps: seq<Step>, i: nat)
    requires IsSchedule(fetch, zips, workers, trace, steps) && i < |trace|
    ensures Conserved(fetch, trace[i]) && trace[i].zips == zips && |trace[i].workers| == PoolSize(workers)
  {
    if i == 0 {
      StartConserved(fetch, zips, workers);
    } else {
      ScheduleConserved(fetch, zips, workers, trace, steps, i - 1);
      StepConserved(fetch, trace[i - 1], steps[i - 1]);
    }
  }

  /** At most max(1, workers) fetches are under way, and waiting, in flight and done always make up the input. */
  lemma PoolIsBounded(fetch: string -> FetchResult, zips: seq<string>, workers: int, trace: seq<Pool>, steps: seq<Step>, i: nat)
    requires IsSchedule(fetch, zips, workers, trace, steps) && i < |trace|
    ensures BusyCount(trace[i].workers) <= if workers < 1 then 1 else workers
    ensures |set w | 0 <= w < |trace[i].workers| && (trace[i].workers[w].Fetching? || trace[i].workers[w].Storing?)|
            == BusyCount(trace[i].workers)
    ensures trace[i].zips == zips && Accounted(trace[i])
  {
    ScheduleConserved(fetch, zips, workers, trace, steps, i);
    BusyBounded(trace[i].workers);
    BusyIsCounted(trace[i].workers);
  }

  /** BusyCount counts the workers that have a zip in hand. */
  lemma {:induction false} BusyIsCounted(workers: seq<Worker>)
    ensures |set w | 0 <= w < |workers| && (workers[w].Fetching? || workers[w].Storing?)| == BusyCount(workers)
  {
    var busy := set w | 0 <= w < |workers| && (workers[w].Fetching? || workers[w].Storing?);
    if workers == [] {
      assert busy == {};
    } else {
      var last := |workers| - 1;
      BusyIsCounted(workers[..last]);
      var before := set w | 0 <= w < last && (workers[..last][w].Fetching? || workers[..last][w].Storing?);
      assert busy == if workers[last].Fetching? || workers[last].Storing? then before + {last} else before;
    }
  }

  /** The first n workers have the first n zips in hand, and the rest wait. */
  function Handed(zips: seq<string>, workers: int, n: nat): Pool
    requires n <= |zips| && n <= PoolSize(workers)
  {
    Start(zips, workers).(sent := n, workers := seq(PoolSize(workers), i requires 0 <= i < PoolSize(workers) =>
                                                      if i < n then Fetching(zips[i]) else Idle))
  }

  lemma {:induction false} HandedIsReached(fetch: string -> FetchResult, zips: seq<string>, workers: int, n: nat)
    returns (trace: seq<Pool>, steps: seq<Step>)
    requires n <= |zips| && n <= PoolSize(workers)
    ensures IsSchedule(fetch, zips, workers, trace, steps) && trace[|steps|] == Handed(zips, workers, n)
  {
    if n == 0 {
      trace, steps := [Start(zips, workers)], [];
      assert Handed(zips, workers, 0).workers == Start(zips, workers).workers;
    } else {
      trace, steps := HandedIsReached(fetch, zips, workers, n - 1);
      var p := trace[|steps|];
      var p' := Apply(fetch, p, Hand(n - 1));
      assert p'.workers == Handed(zips, workers, n).workers;
      trace, steps := trace + [p'], steps + [Hand(n - 1)];
    }
  }

  lemma {:induction false} HandedAreBusy(workers: seq<Worker>, n: nat)
    requires n <= |workers| && forall w :: 0 <= w < |workers| ==> if w < n then workers[w].Fetching? else workers[w].Idle?
    ensures BusyCount(workers) == n
  {
    if workers != [] {
      var last := |workers| - 1;
      HandedAreBusy(workers[..last], if n <= last then n else last);
    }
  }

  /** And the bound is reached: some schedule has as many fetches under way as there are workers asked for, or zips. */
  lemma PoolIsUsed(fetch: string -> FetchResult, zips: seq<string>, workers: int) returns (trace: seq<Pool>, steps: seq<Step>)
    ensures IsSchedule(fetch, zips, workers, trace, steps)
    ensures var asked := if workers < 1 then 1 else workers;
            BusyCount(trace[|steps|].workers) == if |zips| < asked then |zips| else asked
  {
    var asked: nat := if workers < 1 then 1 else workers;
    var n := if |zips| < asked then |zips| else asked;
    trace, steps := HandedIsReached(fetch, zips, workers, n);
    HandedAreBusy(trace[|steps|].workers, n);
  }

  /** Until it returns, some goroutine can move. */
  lemma NoDeadlock(fetch: string -> FetchResult, zips: seq<string>, workers: int, trace: seq<Pool>, steps: seq<Step>, i: nat)
    requires IsSchedule(fetch, zips, workers, trace, steps) && i < |trace| && !trace[i].returned
    ensures exists step :: Enabled(trace[i], step)
  {
    ScheduleConserved(fetch, zips, workers, trace, steps, i);
    var p := trace[i];
    if w :| 0 <= w < |p.workers| && p.workers[w].Fetching? {
      assert Enabled(p, Step.Fetch(w));
    } else if w :| 0 <= w < |p.workers| && p.workers[w].Storing? {
      assert Enabled(p, Store(w));
    } else if w :| 0 <= w < |p.workers| && p.workers[w].Idle? {
      assert Enabled(p, Hand(w)) || Enabled(p, Close) || Enabled(p, Exit(w));
    } else {
      assert p.workers[0].Exited?;
      assert Enabled(p, Return);
    }
  }

  function Rank(w: Worker): nat {
    match w
    case Fetching(_) => 3
    case Storing(_, _) => 2
    case Idle => 1
    case Exited => 0
  }

  function Ranks(workers: seq<Worker>): nat {
    if workers == [] then 0 else Ranks(workers[..|workers| - 1]) + Rank(workers[|workers| - 1])
  }

  /** Work left: every step takes some of it. */
  function Work(p: Pool): int {
    3 * (|p.zips| - p.sent) + Ranks(p.workers) + (if p.closed then 0 else 1) + (if p.returned then 0 else 1)
  }

  lemma {:induction false} RanksUpdated(workers: seq<Worker>, w: nat, x: Worker)
    requires w < |workers|
    ensures Ranks(workers[w := x]) == Ranks(workers) - Rank(workers[w]) + Rank(x)
  {
    var last := |workers| - 1;
    if w < last {
      RanksUpdated(workers[..last], w, x);
      assert workers[w := x][..last] == workers[..last][w := x];
    } else {
      assert workers[w := x][..last] == workers[..last];
    }
  }

  lemma StepWorks(fetch: string -> FetchResult, p: Pool, step: Step)
    requires Conserved(fetch, p) && Enabled(p, step)
    ensures 0 <= Work(Apply(fetch, p, step)) < Work(p)
  {
    if !step.Close? && !step.Return? {
      RanksUpdated(p.workers, step.w, Apply(fetch, p, step).workers[step.w]);
    }
  }

  /** Every schedule terminates: none is longer than the work it started with. */
  lemma {:induction false} SchedulesTerminate(fetch: string -> FetchResult, zips: seq<string>, workers: int,
                                              trace: seq<Pool>, steps: seq<Step>, i: nat)
    requires IsSchedule(fetch, zips, workers, trace, steps) && i < |trace|
    ensures i + Work(trace[i]) <= Work(Start(zips, workers)) && 0 <= Work(trace[i])
  {
    ScheduleConserved(fetch, zips, workers, trace, steps, i);
    if i > 0 {
      SchedulesTerminate(fetch, zips, workers, trace, steps, i - 1);
      ScheduleConserved(fetch, zips, workers, trace, steps, i - 1);
      StepWorks(fetch, trace[i - 1], steps[i - 1]);
    }
  }

  /** A returned pool holds exactly one entry per distinct zip, the one fetched for it, whatever the schedule was. */
  lemma ResultIsTheFetches(fetch: string -> FetchResult, zips: seq<string>, workers: int, trace: seq<Pool>, steps: seq<Step>, i: nat)
    requires IsSchedule(fetch, zips, workers, trace, steps) && i < |trace| && trace[i].returned
    ensures trace[i].out == map zip | zip in zips :: fetch(zip)
    ensures multiset(trace[i].done) == multiset(zips)
    ensures forall zip :: zip in zips ==> Lookup(trace[i].out, zip) == fetch(zip)
  {
    ScheduleConserved(fetch, zips, workers, trace, steps, i);
    var p := trace[i];
    assert p.zips[p.sent..] == [];
    forall zip: string ensures multiset(p.done)[zip] == multiset(zips)[zip] {
      NoneInFlight(p.workers, zip);
    }
    assert multiset(p.done) == multiset(zips);
    forall zip ensures zip in p.done <==> zip in zips {
      assert zip in p.done <==> zip in multiset(p.done);
    }
  }
}
