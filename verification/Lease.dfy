/**
 What every timely interleaving keeps. The timing assumption is that a goroutine acts only
 before its tick time plus the lease; crashes, lost writes and clock steps stay unrestricted.
 */
module Lease {
  import opened RunTable
  import opened Backoff
  import opened Protocol
  import opened Ledger

  predicate Live(s: State, k: WorkerId) {
    k in s.workers && Holds(s.workers[k]) && s.clock < s.workers[k].tick + CLAIM_LEASE
  }

  /** A live holder owns its row: current attempt, still fired until its own write, nothing notified yet. */
  ghost predicate LiveOk(s: State, k: WorkerId) {
    Live(s, k) && k.run in s.tables.runs ==>
      var w, run := s.workers[k], s.tables.runs[k.run];
      && w.attempt == run.attempts
      && !Notified(s.tables.notices, k.run)
      && (run.status == Fired || (run.status == Failed && w.pc == Notifying(false)))
  }

  /** Notified rows are final, and a row waiting for a retry waits out its backoff. */
  ghost predicate RowTimely(run: Run, notified: bool) {
    && (notified ==> run.status == Fired || run.status == Failed)
    && (run.status == Pending && run.attempts >= 1 ==>
          run.firedAt.Some? && run.nextAttempt.Some?
          && run.firedAt.value + RetryDelay(run.attempts) <= run.nextAttempt.value)
  }

  function Gap(claim: Attempt): int {
    if RetryDelay(claim) < CLAIM_LEASE then RetryDelay(claim) else CLAIM_LEASE
  }

  ghost predicate Spaced(claims: seq<ClaimRecord>) {
    forall i :: 0 <= i < |claims| - 1 ==> claims[i].tick + Gap(i + 1) <= claims[i + 1].tick
  }

  /** Not due at `now`, and no live holder is about to make it so. */
  ghost predicate Settled(s: State, r: int, now: int) {
    r in s.tables.runs ==>
      var run := s.tables.runs[r];
      && (run.status == Fired ==> Notified(s.tables.notices, r) || (run.firedAt.Some? && now - CLAIM_LEASE < run.firedAt.value))
      && (run.status == Pending ==> now < run.booking.start || (run.nextAttempt.Some? && now < run.nextAttempt.value))
      && forall j :: j in s.workers && j.run == r && Live(s, j) && s.workers[j].pc.Retrying? ==> now < s.workers[j].pc.next
  }

  ghost predicate PassOk(s: State, k: WorkerId)
    requires k in s.workers
  {
    || s.workers[k].pc == Dead
    || (s.workers[k].pc == Found && Due(s.tables, k.run, s.workers[k].tick))
    || Settled(s, k.run, s.workers[k].tick)
  }

  ghost predicate OneNoticeEach(notices: map<int, Notice>) {
    forall n, n' :: n in notices && n' in notices && notices[n].run == notices[n'].run ==> n == n'
  }

  ghost predicate RowsTimely(t: Tables) {
    && OneNoticeEach(t.notices)
    && forall r :: r in t.runs ==> RowTimely(t.runs[r], Notified(t.notices, r))
  }

  ghost predicate HistoriesTimely(s: State) {
    forall r :: r in s.history ==> Spaced(s.history[r].claims)
  }

  ghost predicate LiveTimely(s: State) {
    forall k :: k in s.workers ==> LiveOk(s, k)
  }

  ghost predicate PassesTimely(s: State) {
    forall k :: k in s.workers ==> PassOk(s, k)
  }

  ghost predicate Timely(s: State) {
    RowsTimely(s.tables) && HistoriesTimely(s) && LiveTimely(s) && PassesTimely(s)
  }

  // ----- what liveness implies

  lemma OnlyOneLive(cfg: Config, s: State, k: WorkerId, j: WorkerId)
    requires WorkersOk(cfg, s) && LiveTimely(s)
    requires Live(s, k) && Live(s, j) && k.run == j.run && k.run in s.tables.runs
    ensures j == k
  {
    assert LiveOk(s, k) && LiveOk(s, j) && AttemptsDiffer(s, k, j);
  }

  /** A run due at a past instant has no live holder: the lease it would hold is over. */
  lemma DueMeansNoLive(cfg: Config, s: State, r: int, now: int, k: WorkerId)
    requires Untimed(cfg, s) && LiveTimely(s)
    requires Due(s.tables, r, now) && now <= s.clock && k.run == r
    ensures !Live(s, k)
  {
    if k in s.workers && Holds(s.workers[k]) {
      assert LiveOk(s, k) && WorkerOk(cfg, s, k) && RowOk(s.tables.runs[r], s.history[r]);
    }
  }

  // ----- steps that only touch tables

  /** Rows may vanish or be cancelled while pending; everything else is untouched. */
  ghost predicate Thinned(t: Tables, t': Tables) {
    && t'.runs.Keys <= t.runs.Keys
    && (forall r :: r in t'.runs ==>
          t'.runs[r] == t.runs[r] || (t.runs[r].status == Pending && t'.runs[r] == t.runs[r].(status := Cancelled)))
    && (forall r :: r in t'.runs ==> (Notified(t'.notices, r) <==> Notified(t.notices, r)))
    && (forall n :: n in t'.notices ==> n in t.notices && t'.notices[n] == t.notices[n])
  }

  lemma ThinnedTimely(cfg: Config, s: State, t: Tables)
    requires Untimed(cfg, s) && Timely(s) && Thinned(s.tables, t)
    ensures Timely(s.(tables := t))
  {
    var s' := s.(tables := t);
    forall k | k in s'.workers ensures LiveOk(s', k) {
      assert LiveOk(s, k);
    }
    forall k | k in s'.workers ensures PassOk(s', k) {
      assert PassOk(s, k) && WorkerOk(cfg, s, k);
      if k.run in t.runs && t.runs[k.run] != s.tables.runs[k.run] {
        forall j | j in s.workers && j.run == k.run ensures !Live(s', j) {
          assert LiveOk(s, j);
        }
        assert Settled(s', k.run, s.workers[k].tick);
      } else if s.workers[k].pc == Found && Due(s.tables, k.run, s.workers[k].tick) {
        assert k.run in t.runs ==> Due(t, k.run, s.workers[k].tick);
      } else {
        assert s.workers[k].pc != Dead ==> Settled(s', k.run, s.workers[k].tick);
      }
    }
  }

  lemma TableStepTimely(cfg: Config, s: State, step: Step)
    requires Untimed(cfg, s) && Timely(s)
    requires step.AddAppliance? || step.DeleteAppliance? || step.Cancel?
    ensures Timely(Apply(cfg, s, step))
  {
    var t := Apply(cfg, s, step).tables;
    if step.DeleteAppliance? {
      forall r | r in t.runs ensures Notified(t.notices, r) <==> Notified(s.tables.notices, r) {
        NoticesSurviveCascade(s.tables, step.appliance, r);
      }
    }
    ThinnedTimely(cfg, s, t);
  }

  lemma CreateTimely(cfg: Config, s: State, b: Booking)
    requires Untimed(cfg, s) && Timely(s)
    ensures Timely(AfterCreate(s, b))
  {
    var s' := AfterCreate(s, b);
    var r := s.tables.nextRun;
    assert !Notified(s.tables.notices, r);
    forall k | k in s'.workers ensures LiveOk(s', k) && PassOk(s', k) {
      assert WorkerOk(cfg, s, k) && LiveOk(s, k) && PassOk(s, k);
      assert k.run != r;
      assert Settled(s, k.run, s.workers[k].tick) ==> Settled(s', k.run, s.workers[k].tick);
    }
  }

  lemma AdvanceTimely(s: State, to: int)
    requires Timely(s) && s.clock < to
    ensures Timely(s.(clock := to))
  {
    var s' := s.(clock := to);
    forall k | k in s'.workers ensures LiveOk(s', k) && PassOk(s', k) {
      assert LiveOk(s, k) && PassOk(s, k);
      assert Settled(s, k.run, s.workers[k].tick) ==> Settled(s', k.run, s.workers[k].tick);
    }
  }

  lemma DispatchTimely(s: State, now: int, batch: seq<int>)
    requires Timely(s) && Enabled(s, Dispatch(now, batch))
    requires forall k :: k in s.workers ==> k.pass < s.passes
    ensures Timely(AfterDispatch(s, now, batch))
  {
    var s' := AfterDispatch(s, now, batch);
    forall k | k in s'.workers ensures LiveOk(s', k) && PassOk(s', k) {
      if k in s.workers {
        assert s'.workers[k] == s.workers[k];
        assert LiveOk(s, k) && PassOk(s, k);
        assert Settled(s, k.run, s.workers[k].tick) ==> Settled(s', k.run, s.workers[k].tick);
      }
    }
  }

  // ----- steps of one goroutine

  /** Moving on without touching the tables, and without planning a retry. */
  lemma GotoTimely(s: State, k: WorkerId, pc: Pc)
    requires Timely(s) && k in s.workers && !pc.Retrying? && pc != Found
    requires pc == Dead || (pc == Done && s.workers[k].pc != Dead) || Holds(s.workers[k])
    requires Holds(Worker(0, pc, 1, "")) ==> s.workers[k].pc != Notifying(false) || pc == Notifying(false)
    requires pc == Dead || s.workers[k].pc != Found || !Due(s.tables, k.run, s.workers[k].tick)
    ensures Timely(Goto(s, k, pc))
  {
    var s' := Goto(s, k, pc);
    forall j | j in s'.workers ensures LiveOk(s', j) && PassOk(s', j) {
      assert LiveOk(s, j) && PassOk(s, j);
      assert Settled(s, j.run, s.workers[j].tick) ==> Settled(s', j.run, s.workers[j].tick);
    }
  }

  lemma ClaimTimely(cfg: Config, s: State, k: WorkerId)
    requires Untimed(cfg, s) && Timely(s) && At(s, k, Found) && InLease(s, Claim(k))
    ensures Timely(AfterClaim(cfg, s, k))
  {
    var tick := s.workers[k].tick;
    if !Due(s.tables, k.run, tick) {
      GotoTimely(s, k, Done);
      return;
    }
    assert WorkerOk(cfg, s, k);
    var s' := AfterClaim(cfg, s, k);
    var run := s.tables.runs[k.run];
    assert RowTimely(run, Notified(s.tables.notices, k.run)) && RowOk(run, s.history[k.run]);
    assert Spaced(s'.history[k.run].claims);
    forall j | j in s'.workers ensures LiveOk(s', j) && PassOk(s', j) {
      assert WorkerOk(cfg, s, j);
      if j.run == k.run {
        ClaimSettles(cfg, s, k, s.workers[j].tick);
        DueMeansNoLive(cfg, s, k.run, tick, j);
      } else {
        assert LiveOk(s, j) && PassOk(s, j);
        assert Settled(s, j.run, s.workers[j].tick) ==> Settled(s', j.run, s.workers[j].tick);
      }
    }
  }

  /** After a claim the run is not due at any tick read so far. */
  lemma ClaimSettles(cfg: Config, s: State, k: WorkerId, now: int)
    requires Untimed(cfg, s) && Timely(s) && At(s, k, Found) && InLease(s, Claim(k))
    requires Due(s.tables, k.run, s.workers[k].tick) && now <= s.clock
    ensures Settled(AfterClaim(cfg, s, k), k.run, now)
  {
    var s' := AfterClaim(cfg, s, k);
    assert WorkerOk(cfg, s, k);
    forall j | j in s'.workers && j.run == k.run && Live(s', j) ensures !s'.workers[j].pc.Retrying? {
      if j != k {
        DueMeansNoLive(cfg, s, k.run, s.workers[k].tick, j);
      }
    }
  }

  lemma SendTimely(cfg: Config, s: State, k: WorkerId, pc: Pc, arrived: bool)
    requires Untimed(cfg, s) && Timely(s) && At(s, k, Claimed)
    requires pc == Notifying(true) || pc == Failing || (pc.Retrying? && s.clock < pc.next)
    ensures Timely(AfterSend(s, k, pc, arrived))
  {
    var s' := AfterSend(s, k, pc, arrived);
    assert WorkerOk(cfg, s, k);
    forall j | j in s'.workers ensures LiveOk(s', j) && PassOk(s', j) {
      assert LiveOk(s, j) && PassOk(s, j) && WorkerOk(cfg, s, j);
      assert Settled(s, j.run, s.workers[j].tick) ==> Settled(s', j.run, s.workers[j].tick);
    }
  }

  lemma SendFailTimely(cfg: Config, s: State, k: WorkerId, arrived: bool)
    requires Untimed(cfg, s) && Timely(s) && At(s, k, Claimed)
    ensures Timely(AfterSend(s, k, FailPc(cfg, s.clock, s.workers[k].attempt), arrived))
  {
    RetryDelayIsCappedDoubling(s.workers[k].attempt);
    SendTimely(cfg, s, k, FailPc(cfg, s.clock, s.workers[k].attempt), arrived);
  }

  /** A write to its row by the live holder: nobody else is live, and a due run has no live holder. */
  lemma OwnWriteTimely(cfg: Config, s: State, k: WorkerId, t: Tables, pc: Pc)
    requires Untimed(cfg, s) && Timely(s) && Live(s, k) && k.run in s.tables.runs
    requires t.runs.Keys == s.tables.runs.Keys
    requires forall r :: r in t.runs && r != k.run ==>
               t.runs[r] == s.tables.runs[r] && (Notified(t.notices, r) <==> Notified(s.tables.notices, r))
    requires RowsTimely(t)
    requires pc == Done || (pc == Notifying(false) && t.runs[k.run] == s.tables.runs[k.run].(status := Failed, lastError := t.runs[k.run].lastError)
                            && t.notices == s.tables.notices)
    requires forall now :: now <= s.clock && Settled(s, k.run, now) ==> Settled(Goto(s.(tables := t), k, pc), k.run, now)
    ensures Timely(Goto(s.(tables := t), k, pc))
  {
    var s' := Goto(s.(tables := t), k, pc);
    forall j | j in s'.workers ensures LiveOk(s', j) && PassOk(s', j) {
      assert LiveOk(s, j) && PassOk(s, j) && WorkerOk(cfg, s, j);
      if j.run == k.run {
        if Live(s, j) {
          OnlyOneLive(cfg, s, k, j);
        }
        if Due(s.tables, k.run, s.workers[j].tick) {
          DueMeansNoLive(cfg, s, k.run, s.workers[j].tick, k);
        }
      } else {
        assert Settled(s, j.run, s.workers[j].tick) ==> Settled(s', j.run, s.workers[j].tick);
      }
    }
  }

  /** The retry written by a live holder is later than any tick at which the run counts as settled. */
  lemma RetrySettles(s: State, k: WorkerId, error: string, now: int)
    requires Live(s, k) && s.workers[k].pc.Retrying? && k.run in s.tables.runs && Settled(s, k.run, now)
    ensures Settled(Goto(s.(tables := RetryRun(s.tables, k.run, error, s.workers[k].pc.next)), k, Done), k.run, now)
  {
  }

  lemma WriteRetryTimely(cfg: Config, s: State, k: WorkerId, error: string)
    requires Untimed(cfg, s) && Timely(s) && k in s.workers && s.workers[k].pc.Retrying? && InLease(s, WriteRetry(k, error))
    ensures Timely(AfterWriteRetry(s, k, error))
  {
    if k.run in s.tables.runs {
      assert LiveOk(s, k) && WorkerOk(cfg, s, k) && RowOk(s.tables.runs[k.run], s.history[k.run]);
      forall now | now <= s.clock && Settled(s, k.run, now)
        ensures Settled(Goto(s.(tables := RetryRun(s.tables, k.run, error, s.workers[k].pc.next)), k, Done), k.run, now)
      {
        RetrySettles(s, k, error, now);
      }
      OwnWriteTimely(cfg, s, k, RetryRun(s.tables, k.run, error, s.workers[k].pc.next), Done);
    } else {
      GotoTimely(s, k, Done);
    }
  }

  lemma WriteFailedTimely(cfg: Config, s: State, k: WorkerId, error: string)
    requires Untimed(cfg, s) && Timely(s) && At(s, k, Failing) && InLease(s, WriteFailed(k, error))
    ensures Timely(Goto(s.(tables := FailRun(s.tables, k.run, error)), k, Notifying(false)))
  {
    if k.run in s.tables.runs {
      assert LiveOk(s, k);
      var t := FailRun(s.tables, k.run, error);
      OwnWriteTimely(cfg, s, k, t, Notifying(false));
    } else {
      GotoTimely(s, k, Notifying(false));
    }
  }

  /** Only the claims of a history matter here. */
  lemma RecordTimely(s: State, r: int, h: History)
    requires Timely(s) && r in s.history && h.claims == s.history[r].claims
    ensures Timely(Record(s, r, h))
  {
    var s' := Record(s, r, h);
    forall k | k in s'.workers ensures LiveOk(s', k) && PassOk(s', k) {
      assert LiveOk(s, k) && PassOk(s, k);
      assert Settled(s, k.run, s.workers[k].tick) ==> Settled(s', k.run, s.workers[k].tick);
    }
  }

  lemma WriteNoticeTimely(cfg: Config, s: State, k: WorkerId)
    requires Untimed(cfg, s) && Timely(s) && k in s.workers && s.workers[k].pc.Notifying? && InLease(s, WriteNotice(k))
    ensures Timely(AfterWriteNotice(s, k))
  {
    if k.run in s.tables.runs {
      assert LiveOk(s, k);
      var delivered := s.workers[k].pc.delivered;
      var t := InsertNotice(s.tables, k.run, delivered);
      forall r ensures Notified(t.notices, r) <==> Notified(s.tables.notices, r) || r == k.run {
        NoticeAdded(s.tables, k.run, delivered, r);
      }
      forall r | r in t.runs ensures RowTimely(t.runs[r], Notified(t.notices, r)) {
        assert RowTimely(s.tables.runs[r], Notified(s.tables.notices, r));
      }
      OwnWriteTimely(cfg, s, k, t, Done);
      assert WorkerOk(cfg, s, k);
      var h := s.history[k.run];
      RecordTimely(Goto(s.(tables := t), k, Done), k.run, h.(announced := h.announced + [s.workers[k].attempt]));
    } else {
      GotoTimely(s, k, Done);
    }
  }

  lemma WorkerStepTimely(cfg: Config, s: State, step: Step)
    requires Untimed(cfg, s) && Timely(s) && Enabled(s, step) && InLease(s, step) && (step.ByWorker() || step.Crash?)
    ensures Timely(Apply(cfg, s, step))
  {
    match step
    case Claim(k) => ClaimTimely(cfg, s, k);
    case ClaimError(k) => GotoTimely(s, k, Dead);
    case SkipSend(k) => GotoTimely(s, k, Notifying(false));
    case SendOk(k) => SendTimely(cfg, s, k, Notifying(true), true);
    case SendFail(k, arrived) => SendFailTimely(cfg, s, k, arrived);
    case WriteRetry(k, error) => WriteRetryTimely(cfg, s, k, error);
    case LoseRetry(k) => GotoTimely(s, k, Done);
    case WriteFailed(k, error) => WriteFailedTimely(cfg, s, k, error);
    case LoseFailed(k) => GotoTimely(s, k, Notifying(false));
    case WriteNotice(k) => WriteNoticeTimely(cfg, s, k);
    case LoseNotice(k) => GotoTimely(s, k, Done);
    case Crash(k) => GotoTimely(s, k, Dead);
  }

  lemma StepTimely(cfg: Config, s: State, step: Step)
    requires Untimed(cfg, s) && Timely(s) && Enabled(s, step) && InLease(s, step)
    ensures Timely(Apply(cfg, s, step))
  {
    match step
    case Advance(to) => AdvanceTimely(s, to);
    case AddAppliance(_, _) => TableStepTimely(cfg, s, step);
    case DeleteAppliance(_) => TableStepTimely(cfg, s, step);
    case Create(b) => CreateTimely(cfg, s, b);
    case Cancel(_) => TableStepTimely(cfg, s, step);
    case Dispatch(now, batch) =>
      forall k | k in s.workers ensures k.pass < s.passes {
        assert WorkerOk(cfg, s, k);
      }
      DispatchTimely(s, now, batch);
    case _ => WorkerStepTimely(cfg, s, step);
  }
}
