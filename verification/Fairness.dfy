/**
 Bounded overtaking: how long a due run can be kept out of the batches of fifty. Passes follow one another;
 inside a pass the goroutines interleave, and cancellations, deletes, bookings, crashes and lost writes may
 come at any moment.
 */
module Fairness {
  import opened RunTable
  import opened Backoff
  import opened Pigeonhole
  import opened Protocol
  import opened Ledger
  import opened Delivery
  import opened ExactlyOnce

  predicate Active(w: Worker) {
    w.pc == Found || Holds(w)
  }

  /** No goroutine is under way. */
  ghost predicate Idle(s: State) {
    forall k :: k in s.workers ==> !Active(s.workers[k])
  }

  /** A pass starts when the one before is over. */
  ghost predicate Orderly(s: State, step: Step) {
    step.Dispatch? ==> Idle(s)
  }

  // ----- what orderly steps keep

  /** A goroutine of the current pass still finds its run due or cancelled, or holds it alone. */
  ghost predicate InPass(s: State, k: WorkerId)
    requires k in s.workers
  {
    var w := s.workers[k];
    && k.pass < s.passes && k.run < s.tables.nextRun
    && (Active(w) ==> k.pass == s.passes - 1)
    && (w.pc == Found && k.run in s.tables.runs ==>
          s.tables.runs[k.run].status == Cancelled || Due(s.tables, k.run, w.tick))
    && (Holds(w) && k.run in s.tables.runs ==>
          var run := s.tables.runs[k.run];
          && w.attempt == run.attempts && !Notified(s.tables.notices, k.run)
          && (run.status == Fired || (run.status == Failed && w.pc == Notifying(false))))
  }

  ghost predicate Steady(cfg: Config, s: State) {
    && Clean(s.tables)
    && (forall k :: k in s.workers ==> InPass(s, k))
    && (forall k :: k in s.workers && s.workers[k].pc.Retrying? ==> s.workers[k].attempt < cfg.maxAttempts)
  }

  /** Between passes every state of a timely run is steady. */
  lemma IdleIsSteady(cfg: Config, trace: seq<State>, steps: seq<Step>, i: nat)
    requires IsTimelyTrace(cfg, trace, steps) && i < |trace| && Idle(trace[i])
    ensures Steady(cfg, trace[i])
  {
    TraceTimely(cfg, trace, steps, i);
    TimelyIsClean(cfg, trace[i]);
    forall k | k in trace[i].workers ensures InPass(trace[i], k) {
      assert WorkerOk(cfg, trace[i], k) && !Active(trace[i].workers[k]);
    }
  }

  // ----- the deliveries a run can still be given, less the one a goroutine is already on its way with

  function Share(cfg: Config, s: State, q: int): (n: int)
    ensures n >= 0
  {
    if q !in s.tables.runs || Finished(s.tables, q) then 0
    else
      var k, w := WorkerId(s.passes - 1, q), Weight(cfg, s.tables.runs[q]);
      if k in s.workers && s.workers[k].pc == Found then w - 1
      else if k in s.workers && Holds(s.workers[k]) then Max(0, cfg.maxAttempts - s.tables.runs[q].attempts)
      else w
  }

  /** The step loses a goroutine of run q on its way: it dies, its claim errs, or its notification is lost. */
  predicate Loses(s: State, step: Step, q: int) {
    (step.Crash? || step.ClaimError? || step.LoseNotice?) && step.k.run == q && step.k in s.workers && Active(s.workers[step.k])
  }

  /** The share that a step takes from q, or gives back: a lost goroutine returns one delivery at most. */
  function Change(s: State, step: Step, q: int): int {
    if Loses(s, step, q) then 1
    else if step.Dispatch? && q in step.batch then -1
    else 0
  }

  ghost predicate Bounded(cfg: Config, s: State, step: Step, q: int)
    requires Enabled(s, step)
  {
    Share(cfg, Apply(cfg, s, step), q) <= Share(cfg, s, q) + Change(s, step, q)
  }

  lemma FrameShare(cfg: Config, s: State, s': State, q: int)
    requires q in s.tables.runs
    requires q in s'.tables.runs ==> s'.tables.runs[q] == s.tables.runs[q] || s'.tables.runs[q].status == Cancelled
    requires q in s'.tables.runs ==> (Notified(s'.tables.notices, q) <==> Notified(s.tables.notices, q))
    requires s'.passes == s.passes
    requires var k := WorkerId(s.passes - 1, q);
             (k in s.workers <==> k in s'.workers) && (k in s.workers ==> s'.workers[k] == s.workers[k])
    ensures Share(cfg, s', q) <= Share(cfg, s, q)
  {
  }

  lemma TableShare(cfg: Config, s: State, step: Step, q: int)
    requires Steady(cfg, s) && Enabled(s, step) && q in s.tables.runs
    requires step.Advance? || step.AddAppliance? || step.DeleteAppliance? || step.Create? || step.Cancel?
    ensures Bounded(cfg, s, step, q)
  {
    if step.DeleteAppliance? && q in Apply(cfg, s, step).tables.runs {
      NoticesSurviveCascade(s.tables, step.appliance, q);
    }
    FrameShare(cfg, s, Apply(cfg, s, step), q);
  }

  lemma DispatchShare(cfg: Config, s: State, now: int, batch: seq<int>, q: int)
    requires Steady(cfg, s) && Idle(s) && Enabled(s, Dispatch(now, batch)) && q in s.tables.runs
    ensures Bounded(cfg, s, Dispatch(now, batch), q)
  {
    var s' := AfterDispatch(s, now, batch);
    var k := WorkerId(s.passes, q);
    assert k in s.workers ==> InPass(s, k);
    assert k in s'.workers <==> q in batch;
    if q in batch {
      assert Due(s.tables, q, now) && s'.workers[k].pc == Found;
    }
    IdleShare(cfg, s, q);
  }

  lemma IdleShare(cfg: Config, s: State, q: int)
    requires Idle(s) && q in s.tables.runs
    ensures Share(cfg, s, q) == if Finished(s.tables, q) then 0 else Weight(cfg, s.tables.runs[q])
  {
    assert WorkerId(s.passes - 1, q) in s.workers ==> !Active(s.workers[WorkerId(s.passes - 1, q)]);
  }

  lemma ClaimShare(cfg: Config, s: State, k: WorkerId)
    requires Steady(cfg, s) && At(s, k, Found) && k.run in s.tables.runs
    ensures Share(cfg, AfterClaim(cfg, s, k), k.run) <= Share(cfg, s, k.run)
  {
    assert InPass(s, k);
  }

  lemma OutcomeShare(cfg: Config, s: State, step: Step)
    requires Steady(cfg, s) && Enabled(s, step) && step.ByWorker() && step.k.run in s.tables.runs
    requires step.WriteRetry? || step.WriteFailed? || step.WriteNotice?
    ensures Bounded(cfg, s, step, step.k.run)
  {
    assert InPass(s, step.k);
    if step.WriteNotice? {
      NoticeAdded(s.tables, step.k.run, s.workers[step.k].pc.delivered, step.k.run);
    }
  }

  lemma GoneShare(cfg: Config, s: State, step: Step)
    requires Steady(cfg, s) && Enabled(s, step) && (step.ByWorker() || step.Crash?) && step.k.run in s.tables.runs
    requires !step.Claim? && !step.WriteRetry? && !step.WriteFailed? && !step.WriteNotice?
    ensures Bounded(cfg, s, step, step.k.run)
  {
    assert InPass(s, step.k);
  }

  lemma OthersFrame(cfg: Config, s: State, step: Step, q: int)
    requires Relational(s.tables) && Enabled(s, step) && (step.ByWorker() || step.Crash?) && step.k.run != q && q in s.tables.runs
    ensures var s' := Apply(cfg, s, step);
            && q in s'.tables.runs && s'.tables.runs[q] == s.tables.runs[q]
            && (Notified(s'.tables.notices, q) <==> Notified(s.tables.notices, q))
  {
    if step.WriteNotice? && step.k.run in s.tables.runs {
      NoticeAdded(s.tables, step.k.run, s.workers[step.k].pc.delivered, q);
    }
  }

  lemma OthersWorkers(cfg: Config, s: State, step: Step, k: WorkerId)
    requires Enabled(s, step) && (step.ByWorker() || step.Crash?) && step.k != k
    ensures var s' := Apply(cfg, s, step);
            s'.passes == s.passes && (k in s.workers <==> k in s'.workers) && (k in s.workers ==> s'.workers[k] == s.workers[k])
  {
  }

  lemma OthersShare(cfg: Config, s: State, step: Step, q: int)
    requires Relational(s.tables) && Enabled(s, step) && (step.ByWorker() || step.Crash?) && step.k.run != q && q in s.tables.runs
    ensures Bounded(cfg, s, step, q)
  {
    OthersFrame(cfg, s, step, q);
    OthersWorkers(cfg, s, step, WorkerId(s.passes - 1, q));
    FrameShare(cfg, s, Apply(cfg, s, step), q);
  }

  /** No orderly step adds to a share, but for what a mishap gives back; a dispatch takes one from each run of its batch. */
  lemma StepShare(cfg: Config, s: State, step: Step, q: int)
    requires Steady(cfg, s) && Enabled(s, step) && Orderly(s, step) && q in s.tables.runs
    ensures Bounded(cfg, s, step, q)
  {
    if step.Dispatch? {
      DispatchShare(cfg, s, step.now, step.batch, q);
    } else if !(step.ByWorker() || step.Crash?) {
      TableShare(cfg, s, step, q);
    } else if step.k.run != q {
      OthersShare(cfg, s, step, q);
    } else if step.Claim? {
      ClaimShare(cfg, s, step.k);
    } else if step.WriteRetry? || step.WriteFailed? || step.WriteNotice? {
      OutcomeShare(cfg, s, step);
    } else {
      GoneShare(cfg, s, step);
    }
  }

  // ----- steadiness

  lemma StepAttempts(cfg: Config, s: State, step: Step, r: int)
    requires Enabled(s, step) && r in Apply(cfg, s, step).tables.runs
    requires r in s.tables.runs ==> s.tables.runs[r].attempts >= 0
    ensures Apply(cfg, s, step).tables.runs[r].attempts >= 0
  {
  }

  /** A notified row is written by no goroutine but a claimer, and that only if it is due. */
  lemma StepPending(cfg: Config, s: State, step: Step, r: int)
    requires Steady(cfg, s) && Enabled(s, step)
    requires r in Apply(cfg, s, step).tables.runs && Apply(cfg, s, step).tables.runs[r].status == Pending
    ensures !Notified(Apply(cfg, s, step).tables.notices, r)
  {
    if step.ByWorker() {
      assert InPass(s, step.k);
      if step.WriteNotice? && step.k.run in s.tables.runs {
        NoticeAdded(s.tables, step.k.run, s.workers[step.k].pc.delivered, r);
      }
    } else if step.DeleteAppliance? {
      NoticesSurviveCascade(s.tables, step.appliance, r);
    }
  }

  lemma StepClean(cfg: Config, s: State, step: Step)
    requires Steady(cfg, s) && Enabled(s, step)
    ensures Clean(Apply(cfg, s, step).tables)
  {
    var t' := Apply(cfg, s, step).tables;
    RelationalStays(cfg, s, step);
    forall r | r in t'.runs ensures t'.runs[r].attempts >= 0 && (t'.runs[r].status == Pending ==> !Notified(t'.notices, r)) {
      StepAttempts(cfg, s, step, r);
      if t'.runs[r].status == Pending {
        StepPending(cfg, s, step, r);
      }
    }
  }

  lemma OwnInPass(cfg: Config, s: State, step: Step)
    requires Steady(cfg, s) && Enabled(s, step) && (step.ByWorker() || step.Crash?)
    ensures InPass(Apply(cfg, s, step), step.k)
  {
    assert InPass(s, step.k);
  }

  /** A goroutine stays in its pass through a step of somebody else on another run, or when it is over. */
  lemma OthersInPass(cfg: Config, s: State, step: Step, k: WorkerId)
    requires Steady(cfg, s) && Enabled(s, step) && k in s.workers
    requires (step.ByWorker() || step.Crash?) && step.k != k
    ensures k in Apply(cfg, s, step).workers && InPass(Apply(cfg, s, step), k)
  {
    assert InPass(s, k) && InPass(s, step.k);
    OthersWorkers(cfg, s, step, k);
    BookingsStay(cfg, s, step, k.run);
    if Active(s.workers[k]) && k.run in s.tables.runs {
      if step.k.run == k.run {
        assert !Active(s.workers[step.k]);
      } else {
        OthersFrame(cfg, s, step, k.run);
      }
    }
  }

  lemma TableInPass(cfg: Config, s: State, step: Step, k: WorkerId)
    requires Steady(cfg, s) && Enabled(s, step) && k in s.workers
    requires step.Advance? || step.AddAppliance? || step.DeleteAppliance? || step.Create? || step.Cancel?
    ensures k in Apply(cfg, s, step).workers && InPass(Apply(cfg, s, step), k)
  {
    assert InPass(s, k);
    if step.DeleteAppliance? && k.run in Apply(cfg, s, step).tables.runs {
      NoticesSurviveCascade(s.tables, step.appliance, k.run);
    }
  }

  lemma DispatchInPass(s: State, now: int, batch: seq<int>, k: WorkerId)
    requires Clean(s.tables) && Idle(s) && Enabled(s, Dispatch(now, batch))
    requires k in AfterDispatch(s, now, batch).workers && (k in s.workers ==> InPass(s, k))
    ensures InPass(AfterDispatch(s, now, batch), k)
  {
    if k !in s.workers {
      assert Due(s.tables, k.run, now);
    }
  }

  lemma StepSteady(cfg: Config, s: State, step: Step)
    requires Steady(cfg, s) && Enabled(s, step) && Orderly(s, step)
    ensures Steady(cfg, Apply(cfg, s, step))
  {
    var s' := Apply(cfg, s, step);
    StepClean(cfg, s, step);
    forall k | k in s'.workers ensures InPass(s', k) {
      if step.Dispatch? {
        DispatchInPass(s, step.now, step.batch, k);
      } else if !(step.ByWorker() || step.Crash?) {
        TableInPass(cfg, s, step, k);
      } else if step.k == k {
        OwnInPass(cfg, s, step);
      } else {
        OthersInPass(cfg, s, step, k);
      }
    }
    RetryingWithin(cfg, s, step);
  }

  lemma RetryingWithin(cfg: Config, s: State, step: Step)
    requires Enabled(s, step) && forall k :: k in s.workers && s.workers[k].pc.Retrying? ==> s.workers[k].attempt < cfg.maxAttempts
    ensures forall k :: k in Apply(cfg, s, step).workers && Apply(cfg, s, step).workers[k].pc.Retrying? ==>
              Apply(cfg, s, step).workers[k].attempt < cfg.maxAttempts
  {
  }

  // ----- the rivals of one run

  /** A run other than r that may be served before it, which starts at `start`. */
  predicate IsRival(t: Tables, r: int, start: int, q: int) {
    q in t.runs && q != r && t.runs[q].booking.start <= start
  }

  function RivalShare(cfg: Config, s: State, r: int, start: int, q: int): int {
    if IsRival(s.tables, r, start, q) then Share(cfg, s, q) else 0
  }

  /** All deliveries the rivals of r can still be given. */
  function Potential(cfg: Config, s: State, r: int, start: int): int {
    Sum(q => RivalShare(cfg, s, r, start, q), s.tables.nextRun)
  }

  /** The pass finds r due and leaves it out. */
  ghost predicate LeavesOut(s: State, step: Step, r: int) {
    step.Dispatch? && Due(s.tables, r, step.now) && r !in step.batch
  }

  /** The step loses a goroutine of a rival. */
  function RivalLoss(s: State, step: Step, r: int, start: int): int {
    if (step.Crash? || step.ClaimError? || step.LoseNotice?) && IsRival(s.tables, r, start, step.k.run) && Loses(s, step, step.k.run)
    then 1 else 0
  }

  /** The step books a new run that starts no later. */
  predicate BooksRival(s: State, step: Step, start: int) {
    step.Create? && step.booking.appliance in s.tables.appliances && step.booking.start <= start
  }

  /** A new run brings all its deliveries with it. */
  function Booked(cfg: Config, s: State, step: Step, start: int): int {
    if BooksRival(s, step, start) then cfg.maxAttempts else 0
  }

  lemma BookingsStay(cfg: Config, s: State, step: Step, q: int)
    requires Enabled(s, step)
    ensures s.tables.nextRun <= Apply(cfg, s, step).tables.nextRun
    ensures q in Apply(cfg, s, step).tables.runs && q != s.tables.nextRun ==>
              q in s.tables.runs && Apply(cfg, s, step).tables.runs[q].booking == s.tables.runs[q].booking
  {
  }

  lemma RivalStep(cfg: Config, s: State, step: Step, r: int, start: int, q: int)
    requires Steady(cfg, s) && Enabled(s, step) && Orderly(s, step) && q < s.tables.nextRun
    ensures RivalShare(cfg, Apply(cfg, s, step), r, start, q)
            <= RivalShare(cfg, s, r, start, q) + (if Loses(s, step, q) && IsRival(s.tables, r, start, q) then 1 else 0)
    ensures LeavesOut(s, step, r) && (r in s.tables.runs ==> s.tables.runs[r].booking.start == start) && q in step.batch ==>
              RivalShare(cfg, Apply(cfg, s, step), r, start, q) <= RivalShare(cfg, s, r, start, q) - 1
  {
    BookingsStay(cfg, s, step, q);
    if q in s.tables.runs {
      StepShare(cfg, s, step, q);
    }
    if LeavesOut(s, step, r) && q in step.batch {
      var i :| 0 <= i < |step.batch| && step.batch[i] == q;
      assert StartOf(s.tables, step.batch[i]) <= StartOf(s.tables, r) && Due(s.tables, q, step.now);
    }
  }

  /**
   A pass that leaves out r takes fifty deliveries from its rivals. Nothing adds any, but one for each of their
   goroutines lost, and those of a new run that starts no later.
   */
  lemma StepPotential(cfg: Config, s: State, step: Step, r: int, start: int)
    requires Steady(cfg, s) && Enabled(s, step) && Orderly(s, step)
    requires r < s.tables.nextRun && (r in s.tables.runs ==> s.tables.runs[r].booking.start == start)
    ensures Potential(cfg, Apply(cfg, s, step), r, start) + (if LeavesOut(s, step, r) then BATCH_LIMIT else 0)
            <= Potential(cfg, s, r, start) + RivalLoss(s, step, r, start) + Booked(cfg, s, step, start)
  {
    var s', n := Apply(cfg, s, step), s.tables.nextRun;
    var batch: set<int> := if LeavesOut(s, step, r) then set q | q in step.batch else {};
    var lucky: set<int> := if RivalLoss(s, step, r, start) == 1 then {step.k.run} else {};
    forall q | 0 <= q < n ensures RivalShare(cfg, s', r, start, q) <= RivalShare(cfg, s, r, start, q)
                       + (if q in lucky then 1 else 0) - (if q in batch then 1 else 0)
    {
      RivalStep(cfg, s, step, r, start, q);
    }
    if LeavesOut(s, step, r) {
      DistinctSize(step.batch);
      assert forall q :: q in batch ==> Due(s.tables, q, step.now);
    }
    SumChanges(q => RivalShare(cfg, s, r, start, q), q => RivalShare(cfg, s', r, start, q), n, batch, lucky);
    NewRivals(cfg, s, step, r, start);
  }

  /** What a booking adds. */
  lemma NewRivals(cfg: Config, s: State, step: Step, r: int, start: int)
    requires Steady(cfg, s) && Enabled(s, step)
    ensures Potential(cfg, Apply(cfg, s, step), r, start)
            <= Sum(q => RivalShare(cfg, Apply(cfg, s, step), r, start, q), s.tables.nextRun) + Booked(cfg, s, step, start)
  {
    var s', n := Apply(cfg, s, step), s.tables.nextRun;
    NewRun(cfg, s, step, n);
    if s'.tables.nextRun == n + 1 {
      var f := q => RivalShare(cfg, s', r, start, q);
      assert Sum(f, n + 1) == Sum(f, n) + f(n);
    }
  }

  lemma NewRun(cfg: Config, s: State, step: Step, n: int)
    requires Clean(s.tables) && Enabled(s, step) && n == s.tables.nextRun
    ensures var s' := Apply(cfg, s, step);
            && (s'.tables.nextRun == n || (s'.tables.nextRun == n + 1 && step.Create? && step.booking.appliance in s.tables.appliances))
            && (s'.tables.nextRun == n + 1 ==> n in s'.tables.runs && s'.tables.runs[n].booking == step.booking
                                               && Share(cfg, s', n) <= cfg.maxAttempts)
  {
  }

  /** Between passes: for each unfinished rival, the attempts it has left, but one at least. */
  lemma PotentialBetweenPasses(cfg: Config, s: State, r: int, start: int, q: int)
    requires Idle(s)
    ensures q in s.tables.runs && q != r && s.tables.runs[q].booking.start <= start
            && s.tables.runs[q].status in {Pending, Fired} && !Notified(s.tables.notices, q) ==>
              var left := cfg.maxAttempts - s.tables.runs[q].attempts;
              RivalShare(cfg, s, r, start, q) == if left < 1 then 1 else left
    ensures !(q in s.tables.runs && q != r && s.tables.runs[q].booking.start <= start
              && s.tables.runs[q].status in {Pending, Fired} && !Notified(s.tables.notices, q)) ==>
              RivalShare(cfg, s, r, start, q) == 0
  {
    if q in s.tables.runs {
      IdleShare(cfg, s, q);
    }
  }

  // ----- whole runs

  ghost predicate OrderlyRun(cfg: Config, s: State, steps: seq<Step>, states: seq<State>) {
    && Follows(cfg, s, steps, states)
    && forall i {:trigger steps[i]} :: 0 <= i < |steps| ==> Orderly(states[i], steps[i])
  }

  /** How many of the first n steps are passes that find r due and leave it out. */
  ghost function TimesLeftOut(states: seq<State>, steps: seq<Step>, r: int, n: nat): nat
    requires n <= |steps| < |states|
  {
    if n == 0 then 0 else TimesLeftOut(states, steps, r, n - 1) + if LeavesOut(states[n - 1], steps[n - 1], r) then 1 else 0
  }

  /** How many of the first n steps lose a goroutine of a rival. */
  function RivalLosses(states: seq<State>, steps: seq<Step>, r: int, start: int, n: nat): int
    requires n <= |steps| < |states|
  {
    if n == 0 then 0 else RivalLosses(states, steps, r, start, n - 1) + RivalLoss(states[n - 1], steps[n - 1], r, start)
  }

  /** The deliveries that come with the runs booked in the first n steps to start no later. */
  function AllBooked(cfg: Config, states: seq<State>, steps: seq<Step>, start: int, n: nat): int
    requires n <= |steps| < |states|
  {
    if n == 0 then 0 else AllBooked(cfg, states, steps, start, n - 1) + Booked(cfg, states[n - 1], steps[n - 1], start)
  }

  /** What holds of r itself at every moment: it keeps its start. */
  ghost predicate Starts(s: State, r: int, start: int) {
    r < s.tables.nextRun && (r in s.tables.runs ==> s.tables.runs[r].booking.start == start)
  }

  lemma {:induction false} SteadyRun(cfg: Config, s: State, steps: seq<Step>, states: seq<State>, r: int, start: int, n: nat)
    requires Steady(cfg, s) && Starts(s, r, start) && OrderlyRun(cfg, s, steps, states) && n <= |steps|
    ensures Steady(cfg, states[n]) && Starts(states[n], r, start)
  {
    if n > 0 {
      SteadyRun(cfg, s, steps, states, r, start, n - 1);
      StepSteady(cfg, states[n - 1], steps[n - 1]);
      BookingsStay(cfg, states[n - 1], steps[n - 1], r);
    }
  }

  /**
   Bounded overtaking: the passes that leave out a due run r number at most a fiftieth of the deliveries still
   open to the unfinished runs that start no later, now or once they are booked, plus one for each of their
   goroutines lost on the way.
   */
  lemma {:induction false} BoundedOvertaking(cfg: Config, s: State, steps: seq<Step>, states: seq<State>, r: int, start: int, n: nat)
    requires Steady(cfg, s) && Starts(s, r, start) && OrderlyRun(cfg, s, steps, states) && n <= |steps|
    ensures 50 * TimesLeftOut(states, steps, r, n) + Potential(cfg, states[n], r, start)
            <= Potential(cfg, s, r, start) + RivalLosses(states, steps, r, start, n) + AllBooked(cfg, states, steps, start, n)
    ensures 50 * TimesLeftOut(states, steps, r, n)
            <= Potential(cfg, s, r, start) + RivalLosses(states, steps, r, start, n) + AllBooked(cfg, states, steps, start, n)
  {
    if n > 0 {
      BoundedOvertaking(cfg, s, steps, states, r, start, n - 1);
      SteadyRun(cfg, s, steps, states, r, start, n - 1);
      StepPotential(cfg, states[n - 1], steps[n - 1], r, start);
    }
    SumIsNonnegative(q => RivalShare(cfg, states[n], r, start, q), states[n].tables.nextRun);
  }

  // ----- how long a run can wait

  /** How many of the first n steps are passes that find r due. */
  ghost function TimesDue(states: seq<State>, steps: seq<Step>, r: int, n: nat): nat
    requires n <= |steps| < |states|
  {
    if n == 0 then 0
    else TimesDue(states, steps, r, n - 1)
         + if steps[n - 1].Dispatch? && Due(states[n - 1].tables, r, steps[n - 1].now) then 1 else 0
  }

  /** How many of the first n steps lose a goroutine of r itself. */
  function OwnLosses(states: seq<State>, steps: seq<Step>, r: int, n: nat): nat
    requires n <= |steps| < |states|
  {
    if n == 0 then 0 else OwnLosses(states, steps, r, n - 1) + if Loses(states[n - 1], steps[n - 1], r) then 1 else 0
  }

  /** Each pass that finds r due serves it or leaves it out, and r is served at most as often as it has deliveries left. */
  lemma {:induction false} DueIsServedOrLeftOut(cfg: Config, s: State, steps: seq<Step>, states: seq<State>, r: int, start: int, n: nat)
    requires Steady(cfg, s) && Starts(s, r, start) && OrderlyRun(cfg, s, steps, states) && n <= |steps|
    ensures TimesDue(states, steps, r, n) + Share(cfg, states[n], r)
            <= Share(cfg, s, r) + OwnLosses(states, steps, r, n) + TimesLeftOut(states, steps, r, n)
  {
    if n > 0 {
      DueIsServedOrLeftOut(cfg, s, steps, states, r, start, n - 1);
      SteadyRun(cfg, s, steps, states, r, start, n - 1);
      OwnStep(cfg, states[n - 1], steps[n - 1], r);
    }
  }

  lemma OwnStep(cfg: Config, s: State, step: Step, r: int)
    requires Steady(cfg, s) && Enabled(s, step) && Orderly(s, step) && r < s.tables.nextRun
    ensures Share(cfg, Apply(cfg, s, step), r) + (if step.Dispatch? && Due(s.tables, r, step.now) && r in step.batch then 1 else 0)
            <= Share(cfg, s, r) + (if Loses(s, step, r) then 1 else 0)
  {
    if r in s.tables.runs {
      StepShare(cfg, s, step, r);
    } else {
      BookingsStay(cfg, s, step, r);
    }
  }

  /**
   No starvation: from any state of a timely run in which no pass is under way, the later passes that still find r
   due number at most the deliveries r has left, one for each of its own goroutines lost, and a fiftieth of what its
   rivals have, lose, and bring with them.
   */
  lemma NoStarvation(cfg: Config, trace: seq<State>, before: seq<Step>, i: nat, steps: seq<Step>, states: seq<State>, r: int, n: nat)
    requires IsTimelyTrace(cfg, trace, before) && i < |trace| && Idle(trace[i]) && r in trace[i].tables.runs
    requires OrderlyRun(cfg, trace[i], steps, states) && n <= |steps|
    ensures var run := trace[i].tables.runs[r];
            TimesDue(states, steps, r, n)
              <= Weight(cfg, run) + OwnLosses(states, steps, r, n)
                 + (Potential(cfg, trace[i], r, run.booking.start) + RivalLosses(states, steps, r, run.booking.start, n)
                    + AllBooked(cfg, states, steps, run.booking.start, n)) / 50
  {
    var s, start := trace[i], trace[i].tables.runs[r].booking.start;
    IdleIsSteady(cfg, trace, before, i);
    assert Starts(s, r, start);
    DueIsServedOrLeftOut(cfg, s, steps, states, r, start, n);
    BoundedOvertaking(cfg, s, steps, states, r, start, n);
    assert WorkerId(s.passes - 1, r) in s.workers ==> !Active(s.workers[WorkerId(s.passes - 1, r)]);
  }
}
