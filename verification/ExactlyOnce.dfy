/** The results that rest on the timing assumption: one holder, final outcomes, spacing, and the pass postcondition. */
module ExactlyOnce {
  import opened Wrappers
  import opened Clock
  import opened RunTable
  import opened Backoff
  import opened Protocol
  import opened Ledger
  import opened Budget
  import opened Lease

  lemma {:induction false} TraceTimely(cfg: Config, trace: seq<State>, steps: seq<Step>, i: nat)
    requires IsTimelyTrace(cfg, trace, steps) && i < |trace|
    ensures Untimed(cfg, trace[i]) && Timely(trace[i])
  {
    TraceUntimed(cfg, trace, steps, i);
    if i > 0 {
      TraceTimely(cfg, trace, steps, i - 1);
      StepTimely(cfg, trace[i - 1], steps[i - 1]);
    }
  }

  /**
   Single holder: at most one live goroutine holds a run, it works on the run's current attempt,
   and the run is fired and unnotified until that goroutine itself writes the outcome.
   */
  lemma SingleHolder(cfg: Config, trace: seq<State>, steps: seq<Step>, i: nat, k: WorkerId, k': WorkerId)
    requires IsTimelyTrace(cfg, trace, steps) && i < |trace|
    requires Live(trace[i], k) && Live(trace[i], k') && k.run == k'.run && k.run in trace[i].tables.runs
    ensures k == k'
    ensures var run := trace[i].tables.runs[k.run];
            && trace[i].workers[k].attempt == run.attempts
            && run.firedAt == Some(trace[i].workers[k].tick)
            && !Notified(trace[i].tables.notices, k.run)
            && (run.status == Fired || (run.status == Failed && trace[i].workers[k].pc == Notifying(false)))
  {
    var s := trace[i];
    TraceTimely(cfg, trace, steps, i);
    OnlyOneLive(cfg, s, k, k');
    assert LiveOk(s, k) && WorkerOk(cfg, s, k) && RowOk(s.tables.runs[k.run], s.history[k.run]);
  }

  // ----- final means final

  /** The row of a run, whether it is notified, and its claims are all as they were. */
  ghost predicate Frozen(s: State, s': State, r: int) {
    && r in s.history && r in s'.history && s'.history[r].claims == s.history[r].claims
    && (r in s'.tables.runs ==> r in s.tables.runs && s'.tables.runs[r] == s.tables.runs[r]
                                && (Notified(s'.tables.notices, r) <==> Notified(s.tables.notices, r)))
  }

  /** Nothing can act on the run any more: it was notified, cancelled or deleted. */
  ghost predicate Final(s: State, r: int) {
    && r in s.history
    && (r in s.tables.runs ==> Notified(s.tables.notices, r) || s.tables.runs[r].status == Cancelled)
  }

  lemma FinalHasNoLive(s: State, r: int, k: WorkerId)
    requires Timely(s) && Final(s, r) && k.run == r && Live(s, k)
    ensures r !in s.tables.runs
  {
    assert LiveOk(s, k);
  }

  lemma FinalIsNotDue(s: State, r: int, now: int)
    requires Timely(s) && Final(s, r)
    ensures !Due(s.tables, r, now)
  {
    assert r in s.tables.runs ==> RowTimely(s.tables.runs[r], Notified(s.tables.notices, r));
  }

  /** A goroutine acting within its lease cannot change a final run. */
  lemma FinalResistsItsWorkers(cfg: Config, s: State, step: Step, r: int)
    requires Untimed(cfg, s) && Timely(s) && Enabled(s, step) && InLease(s, step) && Final(s, r)
    requires step.ByWorker() && step.k.run == r
    ensures Frozen(s, Apply(cfg, s, step), r)
  {
    if Holds(s.workers[step.k]) && r in s.tables.runs {
      FinalHasNoLive(s, r, step.k);
    }
    FinalIsNotDue(s, r, s.workers[step.k].tick);
  }

  lemma FinalFrozenStep(cfg: Config, s: State, step: Step, r: int)
    requires Untimed(cfg, s) && Timely(s) && Enabled(s, step) && InLease(s, step) && Final(s, r)
    ensures Frozen(s, Apply(cfg, s, step), r)
  {
    if step.ByWorker() && step.k.run == r {
      FinalResistsItsWorkers(cfg, s, step, r);
    } else if step.WriteNotice? && step.k.run in s.tables.runs {
      NoticeAdded(s.tables, step.k.run, s.workers[step.k].pc.delivered, r);
    } else if step.DeleteAppliance? && r in RemoveAppliance(s.tables, step.appliance).runs {
      NoticesSurviveCascade(s.tables, step.appliance, r);
    }
  }

  /**
   Final means final: once a run is notified, cancelled or deleted, no later state claims it,
   changes its row, or notifies it again; at most its row disappears with its appliance.
   */
  lemma {:induction false} FinalMeansFinal(cfg: Config, trace: seq<State>, steps: seq<Step>, i: nat, j: nat, r: int)
    requires IsTimelyTrace(cfg, trace, steps) && i <= j < |trace| && Final(trace[i], r)
    ensures Final(trace[j], r) && Frozen(trace[i], trace[j], r)
    decreases j
  {
    if i < j {
      FinalMeansFinal(cfg, trace, steps, i, j - 1, r);
      TraceTimely(cfg, trace, steps, j - 1);
      FinalFrozenStep(cfg, trace[j - 1], steps[j - 1], r);
    }
  }

  lemma AtMostOneNotification(cfg: Config, trace: seq<State>, steps: seq<Step>, i: nat, n: int, n': int)
    requires IsTimelyTrace(cfg, trace, steps) && i < |trace|
    requires n in trace[i].tables.notices && n' in trace[i].tables.notices
    requires trace[i].tables.notices[n].run == trace[i].tables.notices[n'].run
    ensures n == n'
    ensures var r := trace[i].tables.notices[n].run; HasStatus(trace[i], r, Fired) || HasStatus(trace[i], r, Failed)
  {
    TraceTimely(cfg, trace, steps, i);
    var t := trace[i].tables;
    assert Notified(t.notices, t.notices[n].run);
    assert RowTimely(t.runs[t.notices[n].run], true);
  }

  // ----- claim spacing

  /** The least time between the first claim and the n-th. */
  function GapSum(n: int): int {
    if n <= 1 then 0 else GapSum(n - 1) + Gap(n - 1)
  }

  lemma {:induction false} SpacedSum(claims: seq<ClaimRecord>, n: int)
    requires Spaced(claims) && 1 <= n <= |claims|
    ensures claims[0].tick + GapSum(n) <= claims[n - 1].tick
  {
    if n > 1 {
      SpacedSum(claims, n - 1);
      assert claims[n - 2].tick + Gap(n - 1) <= claims[n - 2 + 1].tick;
    }
  }

  /**
   Claim spacing: successive claims of a run are at least the backoff of the earlier attempt or
   the lease apart, whichever is less, so the n-th claim is at least the sum of those gaps after the first.
   */
  lemma ClaimSpacing(cfg: Config, trace: seq<State>, steps: seq<Step>, i: nat, r: int, n: int)
    requires IsTimelyTrace(cfg, trace, steps) && i < |trace| && r in trace[i].history
    requires 1 <= n <= |trace[i].history[r].claims|
    ensures var claims := trace[i].history[r].claims;
            && claims[0].tick + GapSum(n) <= claims[n - 1].tick
            && (n < |claims| ==> claims[n - 1].tick + Gap(n) <= claims[n].tick && claims[n - 1].tick < claims[n].tick)
  {
    TraceTimely(cfg, trace, steps, i);
    var claims := trace[i].history[r].claims;
    SpacedSum(claims, n);
    RetryDelayIsCappedDoubling(n);
    assert n < |claims| ==> claims[n - 1].tick + Gap(n - 1 + 1) <= claims[n - 1 + 1].tick;
  }

  /** The gaps are the backoffs, cut at five minutes. */
  lemma GapsWrittenOut(n: int)
    requires n >= 1
    ensures Gap(n) == if RetryDelay(n) < 5 * MINUTE then RetryDelay(n) else 5 * MINUTE
    ensures GapSum(1) == 0 && GapSum(n + 1) == GapSum(n) + Gap(n)
  {
  }

  /** One, two, four, and then five minutes each. */
  lemma {:induction false} GapSumInMinutes(n: int)
    requires n >= 4
    ensures RetryDelay(n) >= 8 * MINUTE && GapSum(n) == 7 * MINUTE + (n - 4) * 5 * MINUTE
    decreases n
  {
    if n == 4 {
      RetryDelayDoubles(1);
      RetryDelayDoubles(2);
      RetryDelayDoubles(3);
      assert GapSum(4) == Gap(1) + Gap(2) + Gap(3);
    } else {
      GapSumInMinutes(n - 1);
      RetryDelayDoubles(n - 1);
    }
  }

  /** So the n-th claim of a run, from the fourth on, comes at least 7 + 5 (n - 4) minutes after the first. */
  lemma ClaimsInMinutes(cfg: Config, trace: seq<State>, steps: seq<Step>, i: nat, r: int, n: int)
    requires IsTimelyTrace(cfg, trace, steps) && i < |trace| && r in trace[i].history
    requires 4 <= n <= |trace[i].history[r].claims|
    ensures var claims := trace[i].history[r].claims;
            claims[0].tick + 7 * MINUTE + (n - 4) * 5 * MINUTE <= claims[n - 1].tick
  {
    ClaimSpacing(cfg, trace, steps, i, r, n);
    GapSumInMinutes(n);
  }

  // ----- the pass postcondition

  /** Every goroutine of the pass returned; none died and no claim ended in a database error. */
  ghost predicate PassReturned(s: State, pass: int) {
    forall k :: k in s.workers && k.pass == pass ==> s.workers[k].pc == Done
  }

  /** A goroutine keeps the time of its pass, and goroutines are only ever added. */
  lemma {:induction false} WorkerStays(cfg: Config, trace: seq<State>, steps: seq<Step>, d: nat, i: nat, k: WorkerId)
    requires IsTrace(cfg, trace, steps) && d <= i < |trace| && k in trace[d].workers
    ensures k in trace[i].workers && trace[i].workers[k].tick == trace[d].workers[k].tick
    decreases i
  {
    if d < i {
      WorkerStays(cfg, trace, steps, d, i - 1, k);
      TraceUntimed(cfg, trace, steps, i - 1);
      assert WorkerOk(cfg, trace[i - 1], k);
      WorkerStaysStep(cfg, trace[i - 1], steps[i - 1], k);
    }
  }

  lemma WorkerStaysStep(cfg: Config, s: State, step: Step, k: WorkerId)
    requires Enabled(s, step) && k in s.workers && k.pass < s.passes
    ensures k in Apply(cfg, s, step).workers && Apply(cfg, s, step).workers[k].tick == s.workers[k].tick
  {
  }

  /**
   When RunOnce returns, no run of its batch is due at the time of the pass, whatever other
   passes, instances, cancellations, deletes and crashes elsewhere did meanwhile.
   */
  lemma PassLeavesNothingDue(cfg: Config, trace: seq<State>, steps: seq<Step>, d: nat, i: nat, r: int)
    requires IsTimelyTrace(cfg, trace, steps) && d < i < |trace|
    requires steps[d].Dispatch? && r in steps[d].batch && PassReturned(trace[i], trace[d].passes)
    ensures !Due(trace[i].tables, r, steps[d].now)
  {
    var k := WorkerId(trace[d].passes, r);
    assert k in trace[d + 1].workers && trace[d + 1].workers[k].tick == steps[d].now;
    WorkerStays(cfg, trace, steps, d + 1, i, k);
    TraceTimely(cfg, trace, steps, i);
    assert PassOk(trace[i], k);
  }
}
