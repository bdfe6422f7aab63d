/** How the requests of a run relate to its claims and notifications in every timely run. */
module Deliveries {
  import opened RunTable
  import opened Backoff
  import opened Protocol
  import opened Ledger
  import opened Lease
  import opened ExactlyOnce

  ghost predicate Increasing(s: seq<int>) {
    forall i, j :: 0 <= i < j < |s| ==> s[i] < s[j]
  }

  lemma Appended(s: seq<int>, x: int)
    requires Increasing(s)
    ensures (forall y :: y in s ==> y < x) ==> Increasing(s + [x])
  {
    assert forall i :: 0 <= i < |s| ==> s[i] in s;
  }

  // ----- how the deliveries of a run relate to its claims and notifications

  /** An attempt is recorded as delivered exactly while its holder is about to report the delivery. */
  ghost predicate HolderOk(s: State, k: WorkerId)
    requires k in s.workers && k.run in s.history
  {
    var w, h := s.workers[k], s.history[k.run];
    && (Holds(w) ==> (w.attempt in h.deliveries <==> w.pc == Notifying(true)))
    && (Live(s, k) ==> w.attempt == |h.claims| && h.announced == [])
  }

  ghost predicate HoldersOk(s: State, r: int)
    requires r in s.history
  {
    forall k :: k in s.workers && k.run == r ==> HolderOk(s, k)
  }

  /** Deliveries follow the order of the claims, and only the last attempt can have been announced. */
  ghost predicate OutcomesOk(h: History) {
    && Increasing(h.arrivals) && Increasing(h.deliveries)
    && (forall d :: d in h.arrivals ==> d in h.sends && 1 <= d <= |h.claims|)
    && (forall d :: d in h.deliveries ==> d in h.arrivals && d !in h.retryWrites)
    && (h.announced == [] || h.announced == [|h.claims|])
  }

  ghost predicate RowMatches(s: State, r: int)
    requires r in s.history
  {
    r in s.tables.runs ==>
      var run, h := s.tables.runs[r], s.history[r];
      && (Notified(s.tables.notices, r) <==> h.announced != [])
      && (run.status == Pending && run.attempts >= 1 ==> run.attempts in h.retryWrites)
  }

  ghost predicate Reported(s: State, r: int) {
    r in s.history ==> OutcomesOk(s.history[r]) && RowMatches(s, r) && HoldersOk(s, r)
  }

  // ----- preservation

  /** What a step of somebody else leaves alone. */
  ghost predicate SameFor(s: State, s': State, r: int) {
    && r in s.history && r in s'.history && s'.history[r] == s.history[r]
    && (r in s'.tables.runs ==> r in s.tables.runs && (Notified(s'.tables.notices, r) <==> Notified(s.tables.notices, r))
                                && (s'.tables.runs[r] == s.tables.runs[r] || s'.tables.runs[r].status == Cancelled))
    && s'.clock >= s.clock
    && (forall k :: k in s'.workers && k.run == r ==> (k in s.workers && s'.workers[k] == s.workers[k]) || !Holds(s'.workers[k]))
  }

  lemma SameKeeps(s: State, s': State, r: int)
    requires Reported(s, r) && SameFor(s, s', r)
    ensures Reported(s', r)
  {
    forall k | k in s'.workers && k.run == r ensures HolderOk(s', k) {
      if k in s.workers {
        assert HolderOk(s, k);
      }
    }
  }

  lemma OthersKeep(cfg: Config, s: State, step: Step, r: int)
    requires Untimed(cfg, s) && Enabled(s, step) && r in s.history
    requires !(step.ByWorker() && step.k.run == r)
    ensures SameFor(s, Apply(cfg, s, step), r)
  {
    if step.ByWorker() || step.Crash? {
      OtherWorkersKeep(cfg, s, step, r);
    } else if step.DeleteAppliance? && r in Apply(cfg, s, step).tables.runs {
      NoticesSurviveCascade(s.tables, step.appliance, r);
    }
  }

  lemma OtherWorkersKeep(cfg: Config, s: State, step: Step, r: int)
    requires (forall n :: n in s.tables.notices ==> n < s.tables.nextNotice) && Enabled(s, step) && r in s.history
    requires step.ByWorker() || step.Crash?
    requires step.ByWorker() ==> step.k.run != r
    ensures SameFor(s, Apply(cfg, s, step), r)
  {
    if step.WriteNotice? && step.k.run in s.tables.runs {
      NoticeAdded(s.tables, step.k.run, s.workers[step.k].pc.delivered, r);
    }
  }

  /** A goroutine leaving without an outcome. */
  lemma LeavingKeeps(cfg: Config, s: State, step: Step, r: int)
    requires Enabled(s, step) && r in s.history && step.ByWorker() && step.k.run == r
    requires step.ClaimError? || step.LoseRetry? || step.LoseNotice? || (step.Claim? && !Due(s.tables, r, s.workers[step.k].tick))
    ensures SameFor(s, Apply(cfg, s, step), r)
  {
  }

  lemma ClaimReported(cfg: Config, s: State, k: WorkerId)
    requires Untimed(cfg, s) && Timely(s) && Reported(s, k.run) && At(s, k, Found) && Due(s.tables, k.run, s.workers[k].tick)
    ensures Reported(AfterClaim(cfg, s, k), k.run)
  {
    var s' := AfterClaim(cfg, s, k);
    var h, h' := s.history[k.run], s'.history[k.run];
    assert WorkerOk(cfg, s, k) && RowOk(s.tables.runs[k.run], h);
    assert RowTimely(s.tables.runs[k.run], Notified(s.tables.notices, k.run));
    assert h.announced == [];
    assert s'.workers[k].attempt == |h'.claims|;
    forall j | j in s'.workers && j.run == k.run ensures HolderOk(s', j) {
      if j != k {
        DueMeansNoLive(cfg, s, k.run, s.workers[k].tick, j);
        assert HolderOk(s, j);
      }
    }
  }

  /** What the send of the last attempt adds to the outcomes of its run. */
  lemma SendOutcomes(h: History, attempt: int, h': History)
    requires OutcomesOk(h) && attempt == |h.claims| >= 1 && attempt !in h.sends && attempt !in h.retryWrites && h.announced == []
    requires h'.claims == h.claims && h'.retryWrites == h.retryWrites && h'.announced == [] && h'.sends == h.sends + [attempt]
    requires h'.arrivals == h.arrivals || h'.arrivals == h.arrivals + [attempt]
    requires h'.deliveries == h.deliveries || (h'.deliveries == h.deliveries + [attempt] && h'.arrivals == h.arrivals + [attempt])
    ensures OutcomesOk(h')
  {
    Appended(h.arrivals, attempt);
    Appended(h.deliveries, attempt);
  }

  /** The holder moves on to an outcome of its send. */
  lemma SendReported(cfg: Config, s: State, k: WorkerId, pc: Pc, arrived: bool)
    requires WorkersOk(cfg, s) && Reported(s, k.run) && At(s, k, Claimed) && Live(s, k)
    requires (pc == Notifying(true) && arrived) || pc.Retrying? || pc == Failing
    ensures Reported(AfterSend(s, k, pc, arrived), k.run)
  {
    var s' := AfterSend(s, k, pc, arrived);
    assert WorkerOk(cfg, s, k) && HolderOk(s, k);
    SendOutcomes(s.history[k.run], s.workers[k].attempt, s'.history[k.run]);
    forall j | j in s'.workers && j.run == k.run ensures HolderOk(s', j) {
      assert HolderOk(s, j) && AttemptsDiffer(s, j, k);
    }
  }

  /** The holder prepares to notify without having delivered. */
  lemma FallThroughReported(s: State, k: WorkerId, t: Tables)
    requires k in s.workers && k.run in s.history && Reported(s, k.run)
    requires s.workers[k].pc == Claimed || s.workers[k].pc == Failing
    requires t.notices == s.tables.notices && t.runs.Keys == s.tables.runs.Keys
    requires k.run in t.runs ==> t.runs[k.run] == s.tables.runs[k.run] || t.runs[k.run].status == Failed
    ensures Reported(Goto(s.(tables := t), k, Notifying(false)), k.run)
  {
    var s' := Goto(s.(tables := t), k, Notifying(false));
    forall j | j in s'.workers && j.run == k.run ensures HolderOk(s', j) {
      assert HolderOk(s, j);
    }
  }

  lemma RetryReported(cfg: Config, s: State, k: WorkerId, error: string)
    requires Untimed(cfg, s) && Timely(s) && Reported(s, k.run) && Live(s, k) && s.workers[k].pc.Retrying?
    ensures Reported(AfterWriteRetry(s, k, error), k.run)
  {
    var s' := AfterWriteRetry(s, k, error);
    assert WorkerOk(cfg, s, k) && LiveOk(s, k) && HolderOk(s, k);
    forall j | j in s'.workers && j.run == k.run ensures HolderOk(s', j) {
      assert HolderOk(s, j);
    }
  }

  lemma NoticeReported(cfg: Config, s: State, k: WorkerId)
    requires Untimed(cfg, s) && Timely(s) && Reported(s, k.run) && Live(s, k) && s.workers[k].pc.Notifying?
    ensures Reported(AfterWriteNotice(s, k), k.run)
  {
    var s' := AfterWriteNotice(s, k);
    assert WorkerOk(cfg, s, k) && LiveOk(s, k) && HolderOk(s, k);
    if k.run in s.tables.runs {
      NoticeAdded(s.tables, k.run, s.workers[k].pc.delivered, k.run);
    }
    forall j | j in s'.workers && j.run == k.run ensures HolderOk(s', j) {
      assert HolderOk(s, j) && AttemptsDiffer(s, j, k);
    }
  }

  lemma StepReported(cfg: Config, s: State, step: Step, r: int)
    requires Untimed(cfg, s) && Timely(s) && Enabled(s, step) && InLease(s, step) && Reported(s, r)
    ensures Reported(Apply(cfg, s, step), r)
  {
    var s' := Apply(cfg, s, step);
    if r !in s.history {
      NewRunReported(cfg, s, step, r);
    } else if !(step.ByWorker() && step.k.run == r) {
      OthersKeep(cfg, s, step, r);
      SameKeeps(s, s', r);
    } else {
      OwnStepReported(cfg, s, step);
    }
  }

  lemma OwnStepReported(cfg: Config, s: State, step: Step)
    requires Untimed(cfg, s) && Timely(s) && Enabled(s, step) && step.ByWorker() && InLease(s, step) && Reported(s, step.k.run)
    requires step.k.run in s.history
    ensures Reported(Apply(cfg, s, step), step.k.run)
  {
    var s', r := Apply(cfg, s, step), step.k.run;
    if step.ClaimError? || step.LoseRetry? || step.LoseNotice? || (step.Claim? && !Due(s.tables, r, s.workers[step.k].tick)) {
      LeavingKeeps(cfg, s, step, r);
      SameKeeps(s, s', r);
    } else {
      match step
      case Claim(k) => ClaimReported(cfg, s, k);
      case SkipSend(k) => FallThroughReported(s, k, s.tables);
      case SendOk(k) => SendReported(cfg, s, k, Notifying(true), true);
      case SendFail(k, arrived) => SendReported(cfg, s, k, FailPc(cfg, s.clock, s.workers[k].attempt), arrived);
      case WriteRetry(k, error) => RetryReported(cfg, s, k, error);
      case WriteFailed(k, error) => FallThroughReported(s, k, FailRun(s.tables, r, error));
      case LoseFailed(k) => FallThroughReported(s, k, s.tables);
      case WriteNotice(k) => NoticeReported(cfg, s, k);
    }
  }

  /** A run starts with nothing delivered and nobody working on it. */
  lemma NewRunReported(cfg: Config, s: State, step: Step, r: int)
    requires Untimed(cfg, s) && Enabled(s, step) && r !in s.history
    ensures Reported(Apply(cfg, s, step), r)
  {
    forall k | k in s.workers ensures k.run in s.history {
      assert WorkerOk(cfg, s, k);
    }
    if r in Apply(cfg, s, step).history {
      OnlyBookingAdds(cfg, s, step, r);
    }
  }

  lemma OnlyBookingAdds(cfg: Config, s: State, step: Step, r: int)
    requires Enabled(s, step) && Relational(s.tables) && (forall k :: k in s.workers ==> k.run in s.history)
    requires r !in s.history && r in Apply(cfg, s, step).history
    ensures step.Create? && Apply(cfg, s, step).history[r] == NO_HISTORY && Reported(Apply(cfg, s, step), r)
  {
  }

  lemma {:induction false} TraceReported(cfg: Config, trace: seq<State>, steps: seq<Step>, i: nat, r: int)
    requires IsTimelyTrace(cfg, trace, steps) && i < |trace|
    ensures Reported(trace[i], r)
  {
    if i > 0 {
      TraceReported(cfg, trace, steps, i - 1, r);
      TraceTimely(cfg, trace, steps, i - 1);
      StepReported(cfg, trace[i - 1], steps[i - 1], r);
    }
  }
}
