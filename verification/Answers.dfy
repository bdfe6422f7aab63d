/** What becomes of the answers to webhook requests: acted on, about to be, or let go of. */
module Answers {
  import opened RunTable
  import opened Backoff
  import opened Protocol
  import opened Ledger
  import opened Budget
  import opened Lease
  import opened ExactlyOnce
  import opened Abandonment
  import opened Deliveries

  // ----- what became of each send

  /** The goroutine has the answer to this attempt, delivered or not, and is about to act on it. */
  ghost predicate Finishing(s: State, k: WorkerId, r: int, attempt: int, ok: bool) {
    && k.run == r && Live(s, k) && s.workers[k].pc != Claimed && s.workers[k].attempt == attempt
    && (s.workers[k].pc == Notifying(true) <==> ok)
  }

  /** A step let go of the goroutine that had the answer to the attempt, before it had acted on it. */
  ghost predicate LostBefore(trace: seq<State>, steps: seq<Step>, i: nat, r: int, attempt: int, ok: bool)
    requires |trace| == |steps| + 1 && i < |trace|
  {
    exists j, k :: 0 <= j < i && Finishing(trace[j], k, r, attempt, ok) && LetsGo(trace[j], steps[j], k)
  }

  /** The attempt was sent, and the answer was that it was delivered, or not. */
  predicate Answered(s: State, r: int, attempt: int, ok: bool) {
    r in s.history && attempt in s.history[r].sends && (attempt in s.history[r].deliveries <==> ok)
  }

  lemma LostStays(trace: seq<State>, steps: seq<Step>, i: nat, r: int, attempt: int, ok: bool)
    requires |trace| == |steps| + 1 && 0 < i < |trace| && LostBefore(trace, steps, i - 1, r, attempt, ok)
    ensures LostBefore(trace, steps, i, r, attempt, ok)
  {
    var j, k :| 0 <= j < i - 1 && Finishing(trace[j], k, r, attempt, ok) && LetsGo(trace[j], steps[j], k);
  }

  /** The answer was acted on, or is about to be, or the run is deleted. */
  ghost predicate Accounted(s: State, r: int, attempt: int, ok: bool)
    requires r in s.history
  {
    || attempt in s.history[r].announced
    || attempt in s.history[r].retryWrites
    || r !in s.tables.runs
    || exists k :: Finishing(s, k, r, attempt, ok)
  }

  /** An attempt stays accounted for unless the step lets go of it. */
  lemma AccountedStep(cfg: Config, s: State, step: Step, r: int, attempt: int, ok: bool)
    requires WorkersOk(cfg, s) && HistoriesOk(cfg, s) && LiveTimely(s) && Enabled(s, step)
    requires r in s.history && Accounted(s, r, attempt, ok)
    ensures r in Apply(cfg, s, step).history
    ensures Accounted(Apply(cfg, s, step), r, attempt, ok)
         || exists k :: Finishing(s, k, r, attempt, ok) && LetsGo(s, step, k)
  {
    if exists k :: Finishing(s, k, r, attempt, ok) && LetsGo(s, step, k) {
      HistoryStep(cfg, s, step, r);
    } else if r !in s.tables.runs || attempt in s.history[r].announced || attempt in s.history[r].retryWrites {
      RecordedStep(cfg, s, step, r, attempt, ok);
    } else {
      var k :| Finishing(s, k, r, attempt, ok);
      FinishingStep(cfg, s, step, r, attempt, ok, k);
    }
  }

  lemma RecordedStep(cfg: Config, s: State, step: Step, r: int, attempt: int, ok: bool)
    requires Enabled(s, step) && r in s.history && r < s.tables.nextRun
    requires r !in s.tables.runs || attempt in s.history[r].announced || attempt in s.history[r].retryWrites
    ensures r in Apply(cfg, s, step).history && Accounted(Apply(cfg, s, step), r, attempt, ok)
  {
    RecordsStay(cfg, s, step, r, attempt);
    if r !in s.tables.runs {
      GoneStaysStep(cfg, s, step, r);
    }
  }

  lemma RecordsStay(cfg: Config, s: State, step: Step, r: int, attempt: int)
    requires Enabled(s, step) && r in s.history && r < s.tables.nextRun
    ensures r in Apply(cfg, s, step).history
    ensures attempt in s.history[r].announced ==> attempt in Apply(cfg, s, step).history[r].announced
    ensures attempt in s.history[r].retryWrites ==> attempt in Apply(cfg, s, step).history[r].retryWrites
  {
  }

  lemma FinishingStep(cfg: Config, s: State, step: Step, r: int, attempt: int, ok: bool, k: WorkerId)
    requires WorkersOk(cfg, s) && HistoriesOk(cfg, s) && LiveOk(s, k) && Enabled(s, step)
    requires Finishing(s, k, r, attempt, ok) && !LetsGo(s, step, k)
    ensures r in Apply(cfg, s, step).history && Accounted(Apply(cfg, s, step), r, attempt, ok)
  {
    assert WorkerOk(cfg, s, k);
    HistoryStep(cfg, s, step, r);
    if step.ByWorker() && step.k == k {
      OwnFinishingStep(cfg, s, step, r, attempt, ok);
    } else {
      OthersFinishingStep(cfg, s, step, r, attempt, ok, k);
    }
  }

  lemma OthersFinishingStep(cfg: Config, s: State, step: Step, r: int, attempt: int, ok: bool, k: WorkerId)
    requires Enabled(s, step) && k.pass < s.passes && Finishing(s, k, r, attempt, ok) && !LetsGo(s, step, k)
    requires !(step.ByWorker() && step.k == k)
    ensures Finishing(Apply(cfg, s, step), k, r, attempt, ok)
  {
    OthersStepStays(cfg, s, step, k);
  }

  lemma OwnFinishingStep(cfg: Config, s: State, step: Step, r: int, attempt: int, ok: bool)
    requires Enabled(s, step) && step.ByWorker() && r in s.history && LiveOk(s, step.k)
    ensures Finishing(s, step.k, r, attempt, ok) && !LetsGo(s, step, step.k) ==>
              r in Apply(cfg, s, step).history && Accounted(Apply(cfg, s, step), r, attempt, ok)
  {
    if Finishing(s, step.k, r, attempt, ok) && (step.WriteFailed? || step.LoseFailed?) {
      assert Finishing(Apply(cfg, s, step), step.k, r, attempt, ok);
    }
  }

  /** An answer comes to the live goroutine of the last claim. */
  lemma NewAnswer(cfg: Config, s: State, step: Step, r: int, attempt: int, ok: bool)
    requires Enabled(s, step) && InLease(s, step) && Reported(s, r) && (r in s.history ==> r < s.tables.nextRun)
    requires step.ByWorker() ==> WorkerOk(cfg, s, step.k)
    ensures !Answered(s, r, attempt, ok) && Answered(Apply(cfg, s, step), r, attempt, ok) ==>
              && (step.SendOk? || step.SendFail?)
              && Finishing(Apply(cfg, s, step), step.k, r, attempt, ok) && attempt == |Apply(cfg, s, step).history[r].claims|
  {
    if step.ByWorker() && !Answered(s, r, attempt, ok) && Answered(Apply(cfg, s, step), r, attempt, ok) {
      assert (step.SendOk? || step.SendFail?) && step.k.run == r;
      assert HolderOk(s, step.k);
    }
  }

  lemma AnswerStep(cfg: Config, s: State, step: Step, r: int, attempt: int, ok: bool)
    requires Untimed(cfg, s) && Timely(s) && Reported(s, r) && Enabled(s, step) && InLease(s, step)
    requires Answered(s, r, attempt, ok) ==> Accounted(s, r, attempt, ok)
    ensures Answered(Apply(cfg, s, step), r, attempt, ok) ==>
              Accounted(Apply(cfg, s, step), r, attempt, ok)
              || exists k :: Finishing(s, k, r, attempt, ok) && LetsGo(s, step, k)
  {
    if Answered(s, r, attempt, ok) {
      AccountedStep(cfg, s, step, r, attempt, ok);
    } else {
      NewAnswer(cfg, s, step, r, attempt, ok);
    }
  }

  /** One step of a whole run. */
  lemma AnswerTraceStep(cfg: Config, trace: seq<State>, steps: seq<Step>, i: nat, r: int, attempt: int, ok: bool)
    requires IsTimelyTrace(cfg, trace, steps) && 0 < i < |trace| && Answered(trace[i], r, attempt, ok)
    requires Answered(trace[i - 1], r, attempt, ok) ==> Accounted(trace[i - 1], r, attempt, ok)
    ensures Accounted(trace[i], r, attempt, ok) || LostBefore(trace, steps, i, r, attempt, ok)
  {
    TraceTimely(cfg, trace, steps, i - 1);
    TraceReported(cfg, trace, steps, i - 1, r);
    AnswerStep(cfg, trace[i - 1], steps[i - 1], r, attempt, ok);
  }

  /** An answered attempt was acted on, or is about to be, or was let go of, or the run is deleted. */
  lemma {:induction false} AnswerIsAccountedOrLost(cfg: Config, trace: seq<State>, steps: seq<Step>, i: nat, r: int, attempt: int, ok: bool)
    requires IsTimelyTrace(cfg, trace, steps) && i < |trace| && Answered(trace[i], r, attempt, ok)
    ensures Accounted(trace[i], r, attempt, ok) || LostBefore(trace, steps, i, r, attempt, ok)
  {
    if i > 0 {
      if Answered(trace[i - 1], r, attempt, ok) {
        AnswerIsAccountedOrLost(cfg, trace, steps, i - 1, r, attempt, ok);
      }
      if LostBefore(trace, steps, i - 1, r, attempt, ok) {
        LostStays(trace, steps, i, r, attempt, ok);
      } else {
        AnswerTraceStep(cfg, trace, steps, i, r, attempt, ok);
      }
    }
  }

  /** The attempt was answered, and the run was claimed again after it. */
  predicate Superseded(s: State, r: int, attempt: int, ok: bool) {
    Answered(s, r, attempt, ok) && attempt < |s.history[r].claims|
  }

  lemma ClaimsGrowByClaiming(cfg: Config, s: State, step: Step, r: int)
    requires Enabled(s, step) && r in s.history && r < s.tables.nextRun
    requires r in Apply(cfg, s, step).history && |s.history[r].claims| < |Apply(cfg, s, step).history[r].claims|
    ensures step.Claim? && step.k.run == r && Due(s.tables, r, s.workers[step.k].tick)
  {
  }

  /** A due run whose last attempt was answered was handed back, or nobody accounts for that attempt. */
  lemma DueIsUnaccounted(cfg: Config, s: State, r: int, tick: int, attempt: int, ok: bool)
    requires Untimed(cfg, s) && Timely(s) && Reported(s, r) && Due(s.tables, r, tick) && tick <= s.clock
    requires Answered(s, r, attempt, ok) && attempt == |s.history[r].claims|
    ensures attempt in s.history[r].retryWrites || !Accounted(s, r, attempt, ok)
  {
    assert RowOk(s.tables.runs[r], s.history[r]);
    assert RowTimely(s.tables.runs[r], Notified(s.tables.notices, r));
    assert s.history[r].announced == [];
    forall k ensures !Finishing(s, k, r, attempt, ok) {
      if k.run == r {
        DueMeansNoLive(cfg, s, r, tick, k);
      }
    }
  }

  /** An answer is followed by another claim only when it was handed back or nobody accounts for it. */
  lemma LastAnswerReclaimed(cfg: Config, s: State, step: Step, s': State, r: int, attempt: int, ok: bool)
    requires Untimed(cfg, s) && Timely(s) && Reported(s, r)
    requires Enabled(s, step) && InLease(s, step) && s' == Apply(cfg, s, step)
    ensures !Superseded(s, r, attempt, ok) && Superseded(s', r, attempt, ok) ==>
              Answered(s, r, attempt, ok) && (attempt in s.history[r].retryWrites || !Accounted(s, r, attempt, ok))
  {
    if Superseded(s', r, attempt, ok) && !Answered(s, r, attempt, ok) {
      NewAnswer(cfg, s, step, r, attempt, ok);
    } else if Superseded(s', r, attempt, ok) && !Superseded(s, r, attempt, ok) {
      assert HistoryOk(cfg, s.clock, s.history[r]);
      assert attempt <= |s.history[r].claims|;
      ClaimsGrowByClaiming(cfg, s, step, r);
      assert WorkerOk(cfg, s, step.k);
      DueIsUnaccounted(cfg, s, r, s.workers[step.k].tick, attempt, ok);
    }
  }

  lemma SupersededTraceStep(cfg: Config, trace: seq<State>, steps: seq<Step>, i: nat, r: int, attempt: int, ok: bool)
    requires IsTimelyTrace(cfg, trace, steps) && 0 < i < |trace|
    requires !Superseded(trace[i - 1], r, attempt, ok) && Superseded(trace[i], r, attempt, ok)
    ensures Answered(trace[i - 1], r, attempt, ok)
    ensures attempt in trace[i - 1].history[r].retryWrites || !Accounted(trace[i - 1], r, attempt, ok)
  {
    TraceReported(cfg, trace, steps, i - 1, r);
    TraceTimely(cfg, trace, steps, i - 1);
    LastAnswerReclaimed(cfg, trace[i - 1], steps[i - 1], trace[i], r, attempt, ok);
  }

  /** Handed back by a retry write, or let go of. */
  ghost predicate GivenUp(trace: seq<State>, steps: seq<Step>, i: nat, r: int, attempt: int, ok: bool)
    requires |trace| == |steps| + 1 && i < |trace| && r in trace[i].history
  {
    attempt in trace[i].history[r].retryWrites || LostBefore(trace, steps, i, r, attempt, ok)
  }

  lemma JustSuperseded(cfg: Config, trace: seq<State>, steps: seq<Step>, i: nat, r: int, attempt: int, ok: bool)
    requires IsTimelyTrace(cfg, trace, steps) && 0 < i < |trace|
    requires !Superseded(trace[i - 1], r, attempt, ok) && Superseded(trace[i], r, attempt, ok)
    ensures r in trace[i - 1].history && GivenUp(trace, steps, i - 1, r, attempt, ok)
  {
    SupersededTraceStep(cfg, trace, steps, i, r, attempt, ok);
    AnswerIsAccountedOrLost(cfg, trace, steps, i - 1, r, attempt, ok);
  }

  lemma GivenUpStays(cfg: Config, trace: seq<State>, steps: seq<Step>, i: nat, r: int, attempt: int, ok: bool)
    requires IsTimelyTrace(cfg, trace, steps) && 0 < i < |trace|
    requires r in trace[i - 1].history && GivenUp(trace, steps, i - 1, r, attempt, ok)
    ensures r in trace[i].history && GivenUp(trace, steps, i, r, attempt, ok)
  {
    TraceUntimed(cfg, trace, steps, i - 1);
    RecordsStay(cfg, trace[i - 1], steps[i - 1], r, attempt);
    if LostBefore(trace, steps, i - 1, r, attempt, ok) {
      LostStays(trace, steps, i, r, attempt, ok);
    }
  }

  /**
   A run is claimed again after an answer only if the attempt was handed back by a retry write, or a step let go
   of the goroutine that had the answer: its write was lost, it died, or its lease ended first.
   */
  lemma {:induction false} ClaimedAgainOnlyIfGivenUp(cfg: Config, trace: seq<State>, steps: seq<Step>, i: nat, r: int, attempt: int, ok: bool)
    requires IsTimelyTrace(cfg, trace, steps) && i < |trace| && Superseded(trace[i], r, attempt, ok)
    ensures GivenUp(trace, steps, i, r, attempt, ok)
  {
    if i > 0 {
      if Superseded(trace[i - 1], r, attempt, ok) {
        ClaimedAgainOnlyIfGivenUp(cfg, trace, steps, i - 1, r, attempt, ok);
      } else {
        JustSuperseded(cfg, trace, steps, i, r, attempt, ok);
      }
      GivenUpStays(cfg, trace, steps, i, r, attempt, ok);
    }
  }

  /** After a send that came back as delivered only the second is possible. */
  lemma ClaimedAgainOnlyIfLost(cfg: Config, trace: seq<State>, steps: seq<Step>, i: nat, r: int, attempt: int)
    requires IsTimelyTrace(cfg, trace, steps) && i < |trace| && Superseded(trace[i], r, attempt, true)
    ensures LostBefore(trace, steps, i, r, attempt, true)
  {
    ClaimedAgainOnlyIfGivenUp(cfg, trace, steps, i, r, attempt, true);
    TraceReported(cfg, trace, steps, i, r);
  }
}
