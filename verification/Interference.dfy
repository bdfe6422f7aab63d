/**
 With no timing assumption: exactly when a cancellation can be undone, and that a second notification takes
 a takeover from a goroutine that still holds the run.
 */
module Interference {
  import opened RunTable
  import opened Backoff
  import opened Pigeonhole
  import opened Protocol
  import opened Ledger
  import opened Budget
  import opened Lease

  // ----- cancellations

  /** The goroutine is about to fail its run, or will if its last delivery does not get through. */
  predicate Threatens(cfg: Config, w: Worker) {
    w.pc == Failing || (w.pc == Claimed && w.url != "" && w.attempt >= cfg.maxAttempts)
  }

  ghost predicate Threatened(cfg: Config, s: State, r: int) {
    exists k :: k in s.workers && k.run == r && Threatens(cfg, s.workers[k])
  }

  /** Some continuation takes the run, still there, out of `cancelled`. */
  ghost predicate CanBeUndone(cfg: Config, s: State, r: int) {
    exists steps, states :: Follows(cfg, s, steps, states) && Undone(states[|steps|], r)
  }

  predicate Undone(s: State, r: int) {
    r in s.tables.runs && s.tables.runs[r].status != Cancelled
  }

  /** Cancelled or deleted, with nobody who could fail it. */
  ghost predicate Withdrawn(cfg: Config, s: State, r: int) {
    r < s.tables.nextRun && !Undone(s, r) && !Threatened(cfg, s, r)
  }

  lemma WithdrawnRow(cfg: Config, s: State, step: Step, r: int)
    requires Withdrawn(cfg, s, r) && Enabled(s, step)
    ensures r < Apply(cfg, s, step).tables.nextRun && !Undone(Apply(cfg, s, step), r)
  {
    if step.WriteFailed? {
      assert step.k.run == r ==> Threatens(cfg, s.workers[step.k]);
    }
  }

  lemma NoNewThreat(cfg: Config, s: State, step: Step, k: WorkerId)
    requires Enabled(s, step) && k in Apply(cfg, s, step).workers && Threatens(cfg, Apply(cfg, s, step).workers[k])
    requires forall now :: !Due(s.tables, k.run, now)
    ensures k in s.workers && Threatens(cfg, s.workers[k])
  {
  }

  lemma WithdrawnStep(cfg: Config, s: State, step: Step, r: int)
    requires Withdrawn(cfg, s, r) && Enabled(s, step)
    ensures Withdrawn(cfg, Apply(cfg, s, step), r)
  {
    var s' := Apply(cfg, s, step);
    WithdrawnRow(cfg, s, step, r);
    forall k | k in s'.workers && k.run == r ensures !Threatens(cfg, s'.workers[k]) {
      if Threatens(cfg, s'.workers[k]) {
        NoNewThreat(cfg, s, step, k);
      }
    }
  }

  lemma {:induction false} WithdrawnForGood(cfg: Config, s: State, steps: seq<Step>, states: seq<State>, i: nat, r: int)
    requires Withdrawn(cfg, s, r) && Follows(cfg, s, steps, states) && i <= |steps|
    ensures Withdrawn(cfg, states[i], r)
  {
    if i > 0 {
      WithdrawnForGood(cfg, s, steps, states, i - 1, r);
      WithdrawnStep(cfg, states[i - 1], steps[i - 1], r);
    }
  }

  lemma ThreatUndoes(cfg: Config, s: State, r: int, k: WorkerId)
    requires r in s.tables.runs && k in s.workers && k.run == r && Threatens(cfg, s.workers[k])
    ensures CanBeUndone(cfg, s, r)
  {
    var steps: seq<Step>, states := [], [s];
    if s.workers[k].pc == Claimed {
      steps, states := Then(cfg, s, steps, states, SendFail(k, false));
    }
    var last := states[|steps|];
    assert At(last, k, Failing) && last.tables == s.tables;
    steps, states := Then(cfg, s, steps, states, WriteFailed(k, ""));
    assert Undone(states[|steps|], r);
  }

  /**
   A cancellation that takes effect can be undone exactly when some goroutine on the run is about to write
   its failure, or is on its last delivery.
   */
  lemma CancelUndoneExactlyWhenThreatened(cfg: Config, s: State, r: int)
    requires Relational(s.tables) && HasStatus(s, r, Pending)
    ensures CanBeUndone(cfg, Apply(cfg, s, Cancel(r)), r) <==> Threatened(cfg, s, r)
  {
    var s' := Apply(cfg, s, Cancel(r));
    if Threatened(cfg, s, r) {
      var k :| k in s.workers && k.run == r && Threatens(cfg, s.workers[k]);
      ThreatUndoes(cfg, s', r, k);
    } else if CanBeUndone(cfg, s', r) {
      var steps, states :| Follows(cfg, s', steps, states) && Undone(states[|steps|], r);
      WithdrawnForGood(cfg, s', steps, states, |steps|, r);
    }
  }

  // ----- notifications

  /** A takeover finds no other goroutine still holding the run, however late. */
  ghost predicate CleanTakeover(s: State, step: Step) {
    step.Claim? && step.k in s.workers && Due(s.tables, step.k.run, s.workers[step.k].tick)
    && s.tables.runs[step.k.run].status == Fired
    ==> forall j :: j in s.workers && j != step.k && j.run == step.k.run ==> !Holds(s.workers[j])
  }

  /** A holder owns its row, no matter how long it takes. */
  ghost predicate OwnsRow(s: State, k: WorkerId)
    requires k in s.workers
  {
    Holds(s.workers[k]) && k.run in s.tables.runs ==>
      var w, run := s.workers[k], s.tables.runs[k.run];
      && w.attempt == run.attempts
      && !Notified(s.tables.notices, k.run)
      && (run.status == Fired || (run.status == Failed && w.pc == Notifying(false)))
  }

  ghost predicate SoleHolders(s: State) {
    && OneNoticeEach(s.tables.notices)
    && (forall r :: r in s.tables.runs && Notified(s.tables.notices, r) ==> s.tables.runs[r].status in {Fired, Failed})
    && (forall k :: k in s.workers ==> OwnsRow(s, k))
  }

  lemma OnlyOneHolds(cfg: Config, s: State, k: WorkerId, j: WorkerId)
    requires WorkersOk(cfg, s) && SoleHolders(s)
    requires k in s.workers && j in s.workers && Holds(s.workers[k]) && Holds(s.workers[j]) && k.run == j.run && k.run in s.tables.runs
    ensures j == k
  {
    assert OwnsRow(s, k) && OwnsRow(s, j) && AttemptsDiffer(s, k, j);
  }

  /** Rows and notifications of runs that are held stay as they are, and nobody gains a hold. */
  lemma HoldsThinned(s: State, s': State)
    requires SoleHolders(s) && Thinned(s.tables, s'.tables)
    requires forall k :: k in s'.workers ==>
               !Holds(s'.workers[k])
               || (k in s.workers && Holds(s.workers[k]) && s'.workers[k].attempt == s.workers[k].attempt
                   && (s.workers[k].pc == Notifying(false) ==> s'.workers[k].pc == Notifying(false)))
    ensures SoleHolders(s')
  {
    forall k | k in s'.workers ensures OwnsRow(s', k) {
      if Holds(s'.workers[k]) {
        assert OwnsRow(s, k);
      }
    }
  }

  lemma ClaimHolds(cfg: Config, s: State, k: WorkerId)
    requires Untimed(cfg, s) && SoleHolders(s) && At(s, k, Found) && CleanTakeover(s, Claim(k))
    requires Due(s.tables, k.run, s.workers[k].tick)
    ensures SoleHolders(AfterClaim(cfg, s, k))
  {
    var s' := AfterClaim(cfg, s, k);
    assert RowOk(s.tables.runs[k.run], s.history[k.run]);
    forall j | j in s'.workers ensures OwnsRow(s', j) {
      if j != k {
        assert OwnsRow(s, j);
      }
    }
  }

  /** The holder writes to its own row, and is done or goes on to notify of a failure. */
  lemma OwnWriteHolds(cfg: Config, s: State, s': State, k: WorkerId)
    requires WorkersOk(cfg, s) && SoleHolders(s) && k in s.workers && Holds(s.workers[k]) && k.run in s.tables.runs
    requires k in s'.workers && s'.workers == s.workers[k := s'.workers[k]]
    requires s'.tables.runs.Keys == s.tables.runs.Keys
    requires forall r :: r in s'.tables.runs && r != k.run ==>
               s'.tables.runs[r] == s.tables.runs[r] && (Notified(s'.tables.notices, r) <==> Notified(s.tables.notices, r))
    requires OneNoticeEach(s'.tables.notices)
    requires Notified(s'.tables.notices, k.run) ==> s'.tables.runs[k.run].status in {Fired, Failed}
    requires OwnsRow(s', k)
    ensures SoleHolders(s')
  {
    forall j | j in s'.workers ensures OwnsRow(s', j) {
      if j != k {
        assert OwnsRow(s, j);
        if j.run == k.run && Holds(s.workers[j]) {
          OnlyOneHolds(cfg, s, k, j);
        }
      }
    }
  }

  lemma NoticeHolds(cfg: Config, s: State, k: WorkerId)
    requires Untimed(cfg, s) && SoleHolders(s) && k in s.workers && s.workers[k].pc.Notifying? && k.run in s.tables.runs
    ensures SoleHolders(AfterWriteNotice(s, k))
  {
    var s' := AfterWriteNotice(s, k);
    assert OwnsRow(s, k);
    forall r ensures Notified(s'.tables.notices, r) <==> Notified(s.tables.notices, r) || r == k.run {
      NoticeAdded(s.tables, k.run, s.workers[k].pc.delivered, r);
    }
    OwnWriteHolds(cfg, s, s', k);
  }

  lemma StepHolds(cfg: Config, s: State, step: Step)
    requires Untimed(cfg, s) && SoleHolders(s) && Enabled(s, step) && CleanTakeover(s, step)
    ensures SoleHolders(Apply(cfg, s, step))
  {
    var s' := Apply(cfg, s, step);
    if step.WriteNotice? && step.k.run in s.tables.runs {
      NoticeHolds(cfg, s, step.k);
    } else if step.Claim? && Due(s.tables, step.k.run, s.workers[step.k].tick) {
      ClaimHolds(cfg, s, step.k);
    } else if (step.WriteRetry? || step.WriteFailed?) && step.k.run in s.tables.runs {
      assert OwnsRow(s, step.k);
      OwnWriteHolds(cfg, s, s', step.k);
    } else if step.Create? {
      BookingHolds(cfg, s, step.booking);
    } else {
      ThinningStep(cfg, s, step, s');
      HoldsThinned(s, s');
    }
  }

  lemma BookingHolds(cfg: Config, s: State, b: Booking)
    requires Untimed(cfg, s) && SoleHolders(s)
    ensures SoleHolders(AfterCreate(s, b))
  {
    forall k | k in s.workers ensures OwnsRow(AfterCreate(s, b), k) {
      assert WorkerOk(cfg, s, k) && OwnsRow(s, k);
    }
  }

  lemma ThinningStep(cfg: Config, s: State, step: Step, s': State)
    requires Enabled(s, step) && s' == Apply(cfg, s, step) && !step.Create?
    requires step.WriteNotice? || step.WriteRetry? || step.WriteFailed? ==> step.k.run !in s.tables.runs
    requires step.Claim? ==> !Due(s.tables, step.k.run, s.workers[step.k].tick)
    ensures Thinned(s.tables, s'.tables)
    ensures forall k :: k in s'.workers ==>
              !Holds(s'.workers[k])
              || (k in s.workers && Holds(s.workers[k]) && s'.workers[k].attempt == s.workers[k].attempt
                  && (s.workers[k].pc == Notifying(false) ==> s'.workers[k].pc == Notifying(false)))
  {
    if step.DeleteAppliance? {
      forall r | r in s'.tables.runs ensures Notified(s'.tables.notices, r) <==> Notified(s.tables.notices, r) {
        NoticesSurviveCascade(s.tables, step.appliance, r);
      }
    }
    forall k | k in s'.workers && Holds(s'.workers[k])
      ensures k in s.workers && Holds(s.workers[k]) && s'.workers[k].attempt == s.workers[k].attempt
      ensures s.workers[k].pc == Notifying(false) ==> s'.workers[k].pc == Notifying(false)
    {
      HoldKept(cfg, s, step, k);
    }
  }

  lemma HoldKept(cfg: Config, s: State, step: Step, k: WorkerId)
    requires Enabled(s, step) && k in Apply(cfg, s, step).workers && Holds(Apply(cfg, s, step).workers[k])
    requires step.Claim? ==> !Due(s.tables, step.k.run, s.workers[step.k].tick)
    ensures k in s.workers && Holds(s.workers[k]) && Apply(cfg, s, step).workers[k].attempt == s.workers[k].attempt
    ensures s.workers[k].pc == Notifying(false) ==> Apply(cfg, s, step).workers[k].pc == Notifying(false)
  {
  }

  /**
   If every takeover finds the earlier claimer gone, late or not, no run is ever notified twice, and at every
   moment one goroutine at most holds a run, and none a cancelled one.
   */
  lemma {:induction false} CleanTakeoversMeanOneNotice(cfg: Config, trace: seq<State>, steps: seq<Step>, i: nat)
    requires IsTrace(cfg, trace, steps) && i < |trace|
    requires forall j :: 0 <= j < i ==> CleanTakeover(trace[j], steps[j])
    ensures OneNoticeEach(trace[i].tables.notices)
    ensures SoleHolders(trace[i])
  {
    if i > 0 {
      CleanTakeoversMeanOneNotice(cfg, trace, steps, i - 1);
      TraceUntimed(cfg, trace, steps, i - 1);
      StepHolds(cfg, trace[i - 1], steps[i - 1]);
    }
  }

  /** And then a cancelled run stays cancelled for as long as it exists. */
  lemma CleanTakeoversKeepCancellations(cfg: Config, trace: seq<State>, steps: seq<Step>, i: nat, r: int)
    requires IsTrace(cfg, trace, steps) && i < |steps|
    requires forall j :: 0 <= j < i ==> CleanTakeover(trace[j], steps[j])
    ensures HasStatus(trace[i], r, Cancelled) && r in trace[i + 1].tables.runs ==> HasStatus(trace[i + 1], r, Cancelled)
  {
    if HasStatus(trace[i], r, Cancelled) {
      CleanTakeoversMeanOneNotice(cfg, trace, steps, i);
      TraceUntimed(cfg, trace, steps, i);
      CancelledIsWithdrawn(cfg, trace[i], r);
      WithdrawnStep(cfg, trace[i], steps[i], r);
    }
  }

  lemma CancelledIsWithdrawn(cfg: Config, s: State, r: int)
    requires Relational(s.tables) && SoleHolders(s) && HasStatus(s, r, Cancelled)
    ensures Withdrawn(cfg, s, r)
  {
    forall k | k in s.workers && k.run == r ensures !Threatens(cfg, s.workers[k]) {
      assert OwnsRow(s, k);
    }
  }

  // ----- the converse

  /** A continuation in which every takeover is clean. */
  ghost predicate CleanRun(cfg: Config, s: State, steps: seq<Step>, states: seq<State>) {
    && Follows(cfg, s, steps, states)
    && forall i {:trigger steps[i]} :: 0 <= i < |steps| ==> CleanTakeover(states[i], steps[i])
  }

  lemma CleanThen(cfg: Config, s: State, steps: seq<Step>, states: seq<State>, step: Step)
    returns (steps': seq<Step>, states': seq<State>)
    requires CleanRun(cfg, s, steps, states) && Enabled(states[|steps|], step) && CleanTakeover(states[|steps|], step)
    ensures CleanRun(cfg, s, steps', states') && states'[|steps'|] == Apply(cfg, states[|steps|], step)
  {
    steps', states' := Then(cfg, s, steps, states, step);
  }

  /** Some continuation with clean takeovers notifies a run twice. */
  ghost predicate CanNotifyTwice(cfg: Config, s: State) {
    exists steps: seq<Step>, states: seq<State> :: CleanRun(cfg, s, steps, states) && !OneNoticeEach(states[|steps|].tables.notices)
  }

  lemma {:induction false} CleanRunHolds(cfg: Config, s: State, steps: seq<Step>, states: seq<State>, i: nat)
    requires Untimed(cfg, s) && SoleHolders(s) && CleanRun(cfg, s, steps, states) && i <= |steps|
    ensures Untimed(cfg, states[i]) && SoleHolders(states[i])
  {
    if i > 0 {
      CleanRunHolds(cfg, s, steps, states, i - 1);
      StepUntimed(cfg, states[i - 1], steps[i - 1]);
      StepHolds(cfg, states[i - 1], steps[i - 1]);
    }
  }

  /** The goroutine holds its run and can get to its notification without another pass. */
  predicate CanNotify(w: Worker) {
    Holds(w) && !w.pc.Retrying?
  }

  /** Only goroutine k moved on, and it inserted one notification of its run. */
  ghost predicate NotifiedBy(s: State, s': State, k: WorkerId) {
    && k in s.workers && k in s'.workers && s'.workers == s.workers[k := s'.workers[k]]
    && s'.tables.runs.Keys == s.tables.runs.Keys && s'.tables.nextNotice == s.tables.nextNotice + 1
    && exists delivered :: s'.tables.notices == s.tables.notices[s.tables.nextNotice := Notice(k.run, delivered)]
  }

  lemma GoOnToNotify(cfg: Config, s0: State, steps0: seq<Step>, states0: seq<State>, k: WorkerId)
    returns (steps: seq<Step>, states: seq<State>)
    requires CleanRun(cfg, s0, steps0, states0)
    requires k in states0[|steps0|].workers && k.run in states0[|steps0|].tables.runs && CanNotify(states0[|steps0|].workers[k])
    ensures CleanRun(cfg, s0, steps, states) && NotifiedBy(states0[|steps0|], states[|steps|], k)
  {
    steps, states := steps0, states0;
    var w := states[|steps|].workers[k];
    if w.pc == Failing {
      steps, states := CleanThen(cfg, s0, steps, states, WriteFailed(k, ""));
    } else if w.pc == Claimed {
      steps, states := CleanThen(cfg, s0, steps, states, if w.url == "" then SkipSend(k) else SendOk(k));
    }
    steps, states := CleanThen(cfg, s0, steps, states, WriteNotice(k));
  }

  /** Two goroutines that can notify of one run both do. */
  lemma BothNotify(cfg: Config, s0: State, steps0: seq<Step>, states0: seq<State>, j: WorkerId, k: WorkerId)
    requires CleanRun(cfg, s0, steps0, states0) && j != k && j.run == k.run
    requires var s := states0[|steps0|];
             j in s.workers && k in s.workers && CanNotify(s.workers[j]) && CanNotify(s.workers[k]) && k.run in s.tables.runs
    ensures CanNotifyTwice(cfg, s0)
  {
    var n := states0[|steps0|].tables.nextNotice;
    var steps1, states1 := GoOnToNotify(cfg, s0, steps0, states0, j);
    assert states1[|steps1|].workers[k] == states0[|steps0|].workers[k];
    var steps, states := GoOnToNotify(cfg, s0, steps1, states1, k);
    var notices := states[|steps|].tables.notices;
    assert n in notices && n + 1 in notices && notices[n].run == notices[n + 1].run == k.run;
  }

  // ----- a holder about to write its retry: the run goes back and a third goroutine claims it

  /** Nothing but cancellations of runs other than r. */
  ghost predicate OnlyCancelled(s: State, s': State, r: int) {
    && s'.workers == s.workers && s'.clock == s.clock && s'.passes == s.passes && s'.tables.notices == s.tables.notices
    && s'.tables.runs.Keys == s.tables.runs.Keys
    && forall q :: q in s.tables.runs ==>
         s'.tables.runs[q] == s.tables.runs[q] || (q != r && s'.tables.runs[q].status == Cancelled)
  }

  lemma {:induction false} CancelOthers(cfg: Config, s0: State, steps0: seq<Step>, states0: seq<State>, r: int, todo: set<int>)
    returns (steps: seq<Step>, states: seq<State>)
    requires CleanRun(cfg, s0, steps0, states0) && todo <= states0[|steps0|].tables.runs.Keys - {r}
    ensures CleanRun(cfg, s0, steps, states) && OnlyCancelled(states0[|steps0|], states[|steps|], r)
    ensures forall q :: q in todo ==> states[|steps|].tables.runs[q].status != Pending
    decreases |todo|
  {
    steps, states := steps0, states0;
    HasMember(todo);
    if todo != {} {
      var q :| q in todo;
      steps, states := CleanThen(cfg, s0, steps, states, Cancel(q));
      assert OnlyCancelled(states0[|steps0|], states[|steps|], r);
      steps, states := CancelOthers(cfg, s0, steps, states, r, todo - {q});
    }
  }

  /** The run is pending, and no other run will be due at T once the pending ones are cancelled. */
  ghost predicate DueAloneAt(s: State, r: int, T: int) {
    && s.clock < T
    && r in s.tables.runs && s.tables.runs[r].status == Pending && DueRow(s.tables.runs[r], false, T)
    && forall q :: q in s.tables.runs && s.tables.runs[q].status == Fired ==>
         s.tables.runs[q].firedAt.Some? && s.tables.runs[q].firedAt.value <= T - RECLAIM_WINDOW
  }

  /** So late that every claim made so far is past recovery. */
  function LateEnough(s: State, r: int): int
    requires r in s.tables.runs
  {
    var run := s.tables.runs[r];
    Max(Max(run.booking.start, if run.nextAttempt.Some? then run.nextAttempt.value else 0), s.clock + 1) + RECLAIM_WINDOW
  }

  lemma LateIsAlone(cfg: Config, s: State, r: int)
    requires Untimed(cfg, s) && r in s.tables.runs && s.tables.runs[r].status == Pending
    ensures DueAloneAt(s, r, LateEnough(s, r))
  {
    forall q | q in s.tables.runs && s.tables.runs[q].status == Fired
      ensures s.tables.runs[q].firedAt.Some? && s.tables.runs[q].firedAt.value <= s.clock
    {
      assert RowOk(s.tables.runs[q], s.history[q]) && HistoryOk(cfg, s.clock, s.history[q]);
    }
  }

  lemma AloneIsABatch(s: State, r: int, T: int)
    requires s.clock == T && r in s.tables.runs && Due(s.tables, r, T)
    requires forall q :: q in s.tables.runs && q != r ==> !Due(s.tables, q, T)
    ensures Enabled(s, Dispatch(T, [r]))
  {
  }

  /** After a last pass over nothing but this pending run, a new goroutine holds it too. */
  lemma ClaimOnceMore(cfg: Config, s0: State, steps0: seq<Step>, states0: seq<State>, r: int)
    returns (steps: seq<Step>, states: seq<State>, m: WorkerId)
    requires CleanRun(cfg, s0, steps0, states0)
    requires var s := states0[|steps0|]; Untimed(cfg, s) && r in s.tables.runs && s.tables.runs[r].status == Pending
    ensures CleanRun(cfg, s0, steps, states)
    ensures var s, s' := states0[|steps0|], states[|steps|];
            && m.run == r && m !in s.workers && At(s', m, Claimed) && r in s'.tables.runs
            && forall k :: k in s.workers ==> k in s'.workers && s'.workers[k] == s.workers[k]
  {
    var s := states0[|steps0|];
    var T := LateEnough(s, r);
    LateIsAlone(cfg, s, r);
    steps, states := CleanThen(cfg, s0, steps0, states0, Advance(T));
    var others := set q | q in s.tables.runs && q != r;
    steps, states := CancelOthers(cfg, s0, steps, states, r, others);
    var alone := states[|steps|];
    assert OnlyCancelled(s.(clock := T), alone, r);
    AloneIsABatch(alone, r, T);
    m := WorkerId(alone.passes, r);
    assert m in s.workers ==> WorkerOk(cfg, s, m);
    steps, states := CleanThen(cfg, s0, steps, states, Dispatch(T, [r]));
    steps, states := CleanThen(cfg, s0, steps, states, Claim(m));
  }

  /** A takeover from any goroutine that still holds the run can lead to two notifications. */
  lemma TakeoverFromHolderCanNotifyTwice(cfg: Config, s: State, k: WorkerId, j: WorkerId)
    requires Untimed(cfg, s) && At(s, k, Found) && Due(s.tables, k.run, s.workers[k].tick) && s.tables.runs[k.run].status == Fired
    requires j in s.workers && j != k && j.run == k.run && Holds(s.workers[j])
    ensures CanNotifyTwice(cfg, AfterClaim(cfg, s, k))
  {
    var claimed := AfterClaim(cfg, s, k);
    assert At(claimed, k, Claimed) && claimed.workers[j] == s.workers[j];
    if CanNotify(s.workers[j]) {
      BothNotify(cfg, claimed, [], [claimed], j, k);
    } else {
      StepUntimed(cfg, s, Claim(k));
      var steps, states := CleanThen(cfg, claimed, [], [claimed], WriteRetry(j, ""));
      StepUntimed(cfg, claimed, WriteRetry(j, ""));
      var m;
      steps, states, m := ClaimOnceMore(cfg, claimed, steps, states, k.run);
      BothNotify(cfg, claimed, steps, states, m, k);
    }
  }

  /**
   The exact condition: as long as every takeover was clean, the next one opens the way to a second notification
   exactly when another goroutine still holds the run, that is, when it is not clean.
   */
  lemma TwiceExactlyWhenNotClean(cfg: Config, s: State, k: WorkerId)
    requires Untimed(cfg, s) && SoleHolders(s)
    requires At(s, k, Found) && Due(s.tables, k.run, s.workers[k].tick) && s.tables.runs[k.run].status == Fired
    ensures CanNotifyTwice(cfg, AfterClaim(cfg, s, k)) <==> !CleanTakeover(s, Claim(k))
  {
    var claimed := AfterClaim(cfg, s, k);
    if CleanTakeover(s, Claim(k)) {
      StepUntimed(cfg, s, Claim(k));
      StepHolds(cfg, s, Claim(k));
      if CanNotifyTwice(cfg, claimed) {
        var steps: seq<Step>, states: seq<State> :| CleanRun(cfg, claimed, steps, states) && !OneNoticeEach(states[|steps|].tables.notices);
        CleanRunHolds(cfg, claimed, steps, states, |steps|);
      }
    } else {
      var j :| j in s.workers && j != k && j.run == k.run && Holds(s.workers[j]);
      TakeoverFromHolderCanNotifyTwice(cfg, s, k, j);
    }
  }
}
