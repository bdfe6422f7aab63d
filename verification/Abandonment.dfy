/** How a claimed run ends up with nobody to report it: the exact steps, and what they leave behind. */
module Abandonment {
  import opened Clock
  import opened RunTable
  import opened Backoff
  import opened Protocol
  import opened Ledger
  import opened Budget
  import opened Lease
  import opened ExactlyOnce

  /** The run is fired or failed and nobody has been notified of it. */
  ghost predicate Unreported(s: State, r: int) {
    r in s.tables.runs && s.tables.runs[r].status in {Fired, Failed} && !Notified(s.tables.notices, r)
  }

  ghost predicate Attended(s: State, r: int) {
    exists k: WorkerId :: k.run == r && Live(s, k)
  }

  /** Unreported, and nobody left to report it within a lease. */
  ghost predicate Abandoned(s: State, r: int) {
    Unreported(s, r) && !Attended(s, r)
  }

  /** The step ends k's hold on its run without an outcome: a lost write, a crash, or the end of its lease. */
  predicate LetsGo(s: State, step: Step, k: WorkerId)
    requires k in s.workers
  {
    || step == LoseNotice(k) || step == LoseRetry(k) || step == Crash(k)
    || (step.Advance? && step.to >= s.workers[k].tick + CLAIM_LEASE)
  }

  lemma LettingGoAbandons(cfg: Config, s: State, step: Step, r: int, k: WorkerId)
    requires Untimed(cfg, s) && Timely(s) && Enabled(s, step)
    requires Unreported(s, r) && k.run == r && Live(s, k) && LetsGo(s, step, k)
    ensures Abandoned(Apply(cfg, s, step), r)
    ensures Apply(cfg, s, step).tables == s.tables && Apply(cfg, s, step).history == s.history
  {
    var s' := Apply(cfg, s, step);
    forall j: WorkerId | j.run == r ensures !Live(s', j) {
      if Live(s', j) {
        assert Live(s, j);
        OnlyOneLive(cfg, s, k, j);
      }
    }
  }

  /** A goroutine's own step keeps its hold, lets go, or leaves an outcome. */
  lemma OwnStepStays(cfg: Config, s: State, step: Step, k: WorkerId)
    requires (forall n :: n in s.tables.notices ==> n < s.tables.nextNotice) && Enabled(s, step)
    requires step.ByWorker() && step.k == k && Live(s, k) && LiveOk(s, k) && Unreported(s, k.run) && !LetsGo(s, step, k)
    requires Unreported(Apply(cfg, s, step), k.run)
    ensures Live(Apply(cfg, s, step), k)
  {
    if step.WriteNotice? {
      NoticeAdded(s.tables, k.run, s.workers[k].pc.delivered, k.run);
    }
  }

  /** No other step takes the holder away without leaving an outcome. */
  lemma HolderStays(cfg: Config, s: State, step: Step, k: WorkerId)
    requires Untimed(cfg, s) && Timely(s) && Enabled(s, step)
    requires Unreported(s, k.run) && Live(s, k) && !LetsGo(s, step, k)
    requires Unreported(Apply(cfg, s, step), k.run)
    ensures Live(Apply(cfg, s, step), k)
  {
    assert LiveOk(s, k) && WorkerOk(cfg, s, k);
    if step.ByWorker() && step.k == k {
      OwnStepStays(cfg, s, step, k);
    } else {
      OthersStepStays(cfg, s, step, k);
    }
  }

  lemma OthersStepStays(cfg: Config, s: State, step: Step, k: WorkerId)
    requires Enabled(s, step) && Live(s, k) && k.pass < s.passes
    requires !LetsGo(s, step, k) && !(step.ByWorker() && step.k == k)
    ensures Live(Apply(cfg, s, step), k)
  {
  }

  /**
   A run that somebody is about to report is abandoned exactly by a step that lets go of it: the holder's
   notification or retry is lost, it dies, or the clock passes the end of its lease.
   */
  lemma AbandonedExactlyByLettingGo(cfg: Config, s: State, step: Step, r: int)
    requires Untimed(cfg, s) && Timely(s) && Enabled(s, step) && InLease(s, step)
    requires Unreported(s, r) && Attended(s, r) && r in Apply(cfg, s, step).tables.runs
    ensures Abandoned(Apply(cfg, s, step), r) <==> exists k: WorkerId :: k.run == r && Live(s, k) && LetsGo(s, step, k)
  {
    var s' := Apply(cfg, s, step);
    if k: WorkerId :| k.run == r && Live(s, k) && LetsGo(s, step, k) {
      LettingGoAbandons(cfg, s, step, r, k);
    } else if Abandoned(s', r) {
      var k: WorkerId :| k.run == r && Live(s, k);
      HolderStays(cfg, s, step, k);
    }
  }

  lemma WhoLetGo(cfg: Config, s: State, step: Step, r: int) returns (k: WorkerId)
    requires Untimed(cfg, s) && Timely(s) && Enabled(s, step) && InLease(s, step)
    requires Unreported(s, r) && Attended(s, r) && Abandoned(Apply(cfg, s, step), r)
    ensures k.run == r && Live(s, k) && LetsGo(s, step, k)
  {
    AbandonedExactlyByLettingGo(cfg, s, step, r);
    k :| k.run == r && Live(s, k) && LetsGo(s, step, k);
  }

  // ----- whole runs

  /** Some earlier step let go of the run, and its row has not changed since. */
  ghost predicate LetGoBefore(trace: seq<State>, steps: seq<Step>, i: nat, r: int)
    requires |trace| == |steps| + 1 && i < |trace|
  {
    r in trace[i].tables.runs &&
    exists j, k :: 0 <= j < i && LetGoAt(trace, steps, j, k, r, trace[i].tables.runs[r])
  }

  ghost predicate LetGoAt(trace: seq<State>, steps: seq<Step>, j: int, k: WorkerId, r: int, run: Run)
    requires |trace| == |steps| + 1 && 0 <= j < |steps|
  {
    && k.run == r && Live(trace[j], k) && LetsGo(trace[j], steps[j], k)
    && r in trace[j].tables.runs && trace[j].tables.runs[r] == run
  }

  /** Nobody in its lease holds an abandoned run, so all that its goroutines can do is claim it. */
  lemma OnlyClaimsAct(s: State, step: Step)
    requires Enabled(s, step) && InLease(s, step) && step.ByWorker() && Abandoned(s, step.k.run)
    ensures step.Claim? || step.ClaimError?
  {
    assert !Live(s, step.k);
  }

  /** An abandoned row only changes by being claimed again, and then somebody attends to it. */
  lemma AbandonedStep(cfg: Config, s: State, step: Step, r: int)
    requires Enabled(s, step) && InLease(s, step) && Abandoned(s, r) && r < s.tables.nextRun
    requires r in Apply(cfg, s, step).tables.runs
    ensures var s' := Apply(cfg, s, step); Attended(s', r) || s'.tables.runs[r] == s.tables.runs[r]
  {
    if step.ByWorker() && step.k.run == r {
      OnlyClaimsAct(s, step);
      if step.Claim? && Due(s.tables, r, s.workers[step.k].tick) {
        assert Live(AfterClaim(cfg, s, step.k), step.k);
      }
    }
  }

  /** A run becomes unreported by a claim, and the claimer attends to it. */
  lemma UnreportedIsAttended(cfg: Config, s: State, step: Step, r: int)
    requires Untimed(cfg, s) && Timely(s) && Enabled(s, step) && InLease(s, step)
    requires Unreported(Apply(cfg, s, step), r) && !Unreported(s, r)
    ensures Attended(Apply(cfg, s, step), r)
  {
    if r in s.tables.runs {
      if Notified(s.tables.notices, r) {
        NotifiedStays(cfg, s, step, r);
      }
      UnreportedByClaim(cfg, s, step, r);
    }
  }

  lemma UnreportedByClaim(cfg: Config, s: State, step: Step, r: int)
    requires (forall n :: n in s.tables.notices ==> n < s.tables.nextNotice) && LiveTimely(s) && Enabled(s, step) && InLease(s, step)
    requires r in s.tables.runs && s.tables.runs[r].status !in {Fired, Failed} && Unreported(Apply(cfg, s, step), r)
    ensures Attended(Apply(cfg, s, step), r)
  {
    if step.ByWorker() && step.k.run == r {
      assert LiveOk(s, step.k);
      assert Live(Apply(cfg, s, step), step.k);
    }
  }

  lemma NotifiedStays(cfg: Config, s: State, step: Step, r: int)
    requires Relational(s.tables) && Enabled(s, step) && Notified(s.tables.notices, r)
    requires r in Apply(cfg, s, step).tables.runs
    ensures Notified(Apply(cfg, s, step).tables.notices, r)
  {
    if step.WriteNotice? && step.k.run in s.tables.runs {
      NoticeAdded(s.tables, step.k.run, s.workers[step.k].pc.delivered, r);
    } else if step.DeleteAppliance? {
      NoticesSurviveCascade(s.tables, step.appliance, r);
    }
  }

  /** Where an unreported run without anybody attending to it comes from. */
  lemma AbandonedComesFrom(cfg: Config, s: State, step: Step, r: int)
    requires Untimed(cfg, s) && Timely(s) && Enabled(s, step) && InLease(s, step)
    requires Abandoned(Apply(cfg, s, step), r)
    ensures r in s.tables.runs && Apply(cfg, s, step).tables.runs[r] == s.tables.runs[r]
    ensures Abandoned(s, r) || exists k: WorkerId :: k.run == r && Live(s, k) && LetsGo(s, step, k)
  {
    if !Unreported(s, r) {
      UnreportedIsAttended(cfg, s, step, r);
    } else if Attended(s, r) {
      AbandonedExactlyByLettingGo(cfg, s, step, r);
      var k: WorkerId :| k.run == r && Live(s, k) && LetsGo(s, step, k);
      LettingGoAbandons(cfg, s, step, r, k);
    } else {
      AbandonedStep(cfg, s, step, r);
    }
  }

  /**
   In a timely run, a fired or failed run is notified, or somebody is about to report it, or a step that
   let go of it lies behind and its row is as that step left it.
   */
  lemma {:induction false} NobodyAttendsOnlyIfLetGo(cfg: Config, trace: seq<State>, steps: seq<Step>, i: nat, r: int)
    requires IsTimelyTrace(cfg, trace, steps) && i < |trace| && Abandoned(trace[i], r)
    ensures LetGoBefore(trace, steps, i, r)
  {
    if i > 0 {
      TraceTimely(cfg, trace, steps, i - 1);
      AbandonedComesFrom(cfg, trace[i - 1], steps[i - 1], r);
      if Abandoned(trace[i - 1], r) {
        NobodyAttendsOnlyIfLetGo(cfg, trace, steps, i - 1, r);
        var j, k :| 0 <= j < i - 1 && LetGoAt(trace, steps, j, k, r, trace[i - 1].tables.runs[r]);
        assert LetGoAt(trace, steps, j, k, r, trace[i].tables.runs[r]);
      } else {
        var k: WorkerId :| k.run == r && Live(trace[i - 1], k) && LetsGo(trace[i - 1], steps[i - 1], k);
        assert LetGoAt(trace, steps, i - 1, k, r, trace[i].tables.runs[r]);
      }
    }
  }

  // ----- the two kinds of abandoned runs

  /** Failed, without a notification, and nobody left to write one. */
  ghost predicate Silent(s: State, r: int) {
    HasStatus(s, r, Failed) && Abandoned(s, r)
  }

  /** Claimed, and nobody left to write its outcome. */
  ghost predicate Orphaned(s: State, r: int) {
    HasStatus(s, r, Fired) && Abandoned(s, r)
  }

  /** The step loses the notification that live holder k is to write: lost, crashed, or out of time. */
  ghost predicate LosesReport(s: State, step: Step, r: int, k: WorkerId) {
    && k.run == r && Live(s, k)
    && (step == LoseNotice(k) || step == Crash(k) || (step.Advance? && step.to >= s.workers[k].tick + CLAIM_LEASE))
  }

  /**
   A failure is never silent, except: a failed run falls silent exactly when the notification of its holder is
   lost, the holder dies, or its lease runs out, between the failure write and the notification.
   */
  lemma SilentExactlyWhenLetGo(cfg: Config, s: State, step: Step, r: int)
    requires Untimed(cfg, s) && Timely(s) && Enabled(s, step) && InLease(s, step)
    requires HasStatus(s, r, Failed) && !Notified(s.tables.notices, r) && !Silent(s, r) && r in Apply(cfg, s, step).tables.runs
    ensures Silent(Apply(cfg, s, step), r) <==> exists k :: LosesReport(s, step, r, k)
  {
    if k :| LosesReport(s, step, r, k) {
      LosingSilences(cfg, s, step, r, k);
    } else if Silent(Apply(cfg, s, step), r) {
      var k := WhoLetGo(cfg, s, step, r);
      FailedHolderNotifies(s, step, r, k);
    }
  }

  lemma LosingSilences(cfg: Config, s: State, step: Step, r: int, k: WorkerId)
    requires Untimed(cfg, s) && Timely(s) && Enabled(s, step) && HasStatus(s, r, Failed) && !Notified(s.tables.notices, r)
    requires LosesReport(s, step, r, k)
    ensures Silent(Apply(cfg, s, step), r)
  {
    LettingGoAbandons(cfg, s, step, r, k);
  }

  lemma FailedHolderNotifies(s: State, step: Step, r: int, k: WorkerId)
    requires Timely(s) && Enabled(s, step) && HasStatus(s, r, Failed) && k.run == r && Live(s, k) && LetsGo(s, step, k)
    ensures LosesReport(s, step, r, k)
  {
    assert LiveOk(s, k);
  }

  /** A failed run of a timely run is notified, or about to be, or went silent by such a step. */
  lemma FailedIsReportedOrLetGo(cfg: Config, trace: seq<State>, steps: seq<Step>, i: nat, r: int)
    requires IsTimelyTrace(cfg, trace, steps) && i < |trace| && HasStatus(trace[i], r, Failed)
    ensures Notified(trace[i].tables.notices, r)
         || (exists k: WorkerId :: k.run == r && Live(trace[i], k) && trace[i].workers[k].pc == Notifying(false))
         || LetGoBefore(trace, steps, i, r)
  {
    if Abandoned(trace[i], r) {
      NobodyAttendsOnlyIfLetGo(cfg, trace, steps, i, r);
    } else if k: WorkerId :| k.run == r && Live(trace[i], k) {
      TraceTimely(cfg, trace, steps, i);
      assert LiveOk(trace[i], k);
    }
  }

  /** An orphan is due exactly from the end of its lease until a day after its claim. */
  lemma OrphanIsDueInItsWindow(cfg: Config, s: State, r: int, tick: int)
    requires Untimed(cfg, s) && Orphaned(s, r)
    ensures s.tables.runs[r].firedAt.Some?
    ensures var claimed := s.tables.runs[r].firedAt.value;
            Due(s.tables, r, tick) <==> claimed + 5 * MINUTE <= tick < claimed + 24 * HOUR
  {
    assert RowOk(s.tables.runs[r], s.history[r]);
  }

  // ----- silence is for good

  /** A silent row is not due, so only a notification could end the silence, and that takes a live holder. */
  lemma SilentStep(cfg: Config, s: State, step: Step, r: int)
    requires Relational(s.tables) && Silent(s, r) && Enabled(s, step) && InLease(s, step)
    requires r in Apply(cfg, s, step).tables.runs
    ensures !Notified(Apply(cfg, s, step).tables.notices, r)
  {
    if step.WriteNotice? && step.k.run in s.tables.runs {
      assert step.k.run == r ==> Live(s, step.k);
      NoticeAdded(s.tables, step.k.run, s.workers[step.k].pc.delivered, r);
    } else if step.DeleteAppliance? {
      NoticesSurviveCascade(s.tables, step.appliance, r);
    }
  }

  lemma NoNewHolder(cfg: Config, s: State, step: Step, r: int, k: WorkerId)
    requires Silent(s, r) && Enabled(s, step)
    requires k.run == r && k in Apply(cfg, s, step).workers
    ensures !Live(Apply(cfg, s, step), k)
  {
    assert k in s.workers ==> !Live(s, k);
  }

  ghost predicate SilentOrGone(s: State, r: int) {
    r in s.history && (r in s.tables.runs ==> Silent(s, r))
  }

  lemma SilentOrGoneStep(cfg: Config, s: State, step: Step, r: int)
    requires Untimed(cfg, s) && SilentOrGone(s, r) && Enabled(s, step) && InLease(s, step)
    ensures SilentOrGone(Apply(cfg, s, step), r)
  {
    var s' := Apply(cfg, s, step);
    if r !in s.tables.runs {
      GoneStaysStep(cfg, s, step, r);
    } else if r in s'.tables.runs {
      FailedStaysStep(cfg, s, step, r);
      SilentStep(cfg, s, step, r);
      forall k: WorkerId | k.run == r ensures !Live(s', k) {
        if k in s'.workers {
          NoNewHolder(cfg, s, step, r, k);
        }
      }
    }
  }

  /** Nothing ever recovers it: the failed run stays silent for as long as it exists. */
  lemma {:induction false} SilentForGood(cfg: Config, trace: seq<State>, steps: seq<Step>, i: nat, j: nat, r: int)
    requires IsTimelyTrace(cfg, trace, steps) && i <= j < |trace| && Silent(trace[i], r)
    ensures SilentOrGone(trace[j], r)
    decreases j
  {
    if i == j {
      TraceUntimed(cfg, trace, steps, i);
    } else {
      SilentForGood(cfg, trace, steps, i, j - 1, r);
      TraceUntimed(cfg, trace, steps, j - 1);
      SilentOrGoneStep(cfg, trace[j - 1], steps[j - 1], r);
    }
  }
}
