/**
 What every interleaving keeps with no timing assumption at all: the retry budget,
 the attempt numbering, and the references between the tables.
 */
module Ledger {
  import opened Wrappers
  import opened RunTable
  import opened Backoff
  import opened Protocol
  import opened Pigeonhole

  /** The goroutine has claimed its run and not yet let go of it. */
  predicate Holds(w: Worker) {
    w.pc.Claimed? || w.pc.Retrying? || w.pc.Failing? || w.pc.Notifying?
  }

  function Reclaims(claims: seq<ClaimRecord>): nat {
    if claims == [] then 0
    else Reclaims(claims[..|claims| - 1]) + if claims[|claims| - 1].reclaim then 1 else 0
  }

  ghost predicate HistoryOk(cfg: Config, clock: int, h: History) {
    && Distinct(h.retryWrites)
    && (forall i :: 0 <= i < |h.retryWrites| ==> 1 <= h.retryWrites[i] < cfg.maxAttempts && h.retryWrites[i] <= |h.claims|)
    && Distinct(h.sends)
    && (forall i :: 0 <= i < |h.sends| ==> 1 <= h.sends[i] <= |h.claims|)
    && (forall i :: 0 <= i < |h.claims| ==> h.claims[i].tick <= clock)
  }

  /** Each claim from pending used up the creation or one retry write. */
  ghost predicate RowOk(run: Run, h: History) {
    && run.attempts == |h.claims|
    && (|h.claims| > 0 ==> run.firedAt == Some(h.claims[|h.claims| - 1].tick) && run.booking.start <= h.claims[0].tick)
    && (run.status == Fired ==> |h.claims| > 0)
    && |h.claims| - Reclaims(h.claims) + (if run.status == Pending then 1 else 0) <= 1 + |h.retryWrites|
  }

  ghost predicate WorkerOk(cfg: Config, s: State, k: WorkerId)
    requires k in s.workers
  {
    var w := s.workers[k];
    && k.pass < s.passes
    && k.run in s.history
    && w.tick <= s.clock
    && (Holds(w) ==>
          && w.attempt <= |s.history[k.run].claims|
          && s.history[k.run].claims[w.attempt - 1].tick == w.tick
          && w.attempt !in s.history[k.run].retryWrites)
    && (w.pc == Claimed ==> w.attempt !in s.history[k.run].sends)
    && (w.pc.Retrying? ==> w.attempt < cfg.maxAttempts && w.tick + RetryDelay(w.attempt) <= w.pc.next)
    && (w.pc == Failing ==> w.attempt >= cfg.maxAttempts)
  }

  /** Two goroutines on one run never work on the same attempt. */
  ghost predicate AttemptsDiffer(s: State, k: WorkerId, k': WorkerId)
    requires k in s.workers && k' in s.workers
  {
    k != k' && k.run == k'.run && Holds(s.workers[k]) && Holds(s.workers[k']) ==>
      s.workers[k].attempt != s.workers[k'].attempt
  }

  /** Every reference between the tables resolves, and the sequences are ahead of the keys. */
  ghost predicate Relational(t: Tables) {
    && (forall r :: r in t.runs ==> t.runs[r].booking.appliance in t.appliances)
    && (forall n :: n in t.notices ==> t.notices[n].run in t.runs)
    && (forall a :: a in t.appliances ==> a < t.nextAppliance)
    && (forall r :: r in t.runs ==> 0 <= r < t.nextRun) && 0 <= t.nextRun
    && (forall n :: n in t.notices ==> n < t.nextNotice)
  }

  ghost predicate HistoriesOk(cfg: Config, s: State) {
    && (forall r :: r in s.history ==> r < s.tables.nextRun && HistoryOk(cfg, s.clock, s.history[r]))
    && (forall r :: r in s.tables.runs ==> r in s.history && RowOk(s.tables.runs[r], s.history[r]))
  }

  ghost predicate WorkersOk(cfg: Config, s: State) {
    && (forall k :: k in s.workers ==> WorkerOk(cfg, s, k))
    && (forall k, k' :: k in s.workers && k' in s.workers ==> AttemptsDiffer(s, k, k'))
  }

  ghost predicate Untimed(cfg: Config, s: State) {
    Relational(s.tables) && HistoriesOk(cfg, s) && WorkersOk(cfg, s)
  }

  // ----- preservation, one shape of step at a time

  lemma AdvanceUntimed(cfg: Config, s: State, to: int)
    requires Untimed(cfg, s) && s.clock < to
    ensures Untimed(cfg, s.(clock := to))
  {
    WorkersKept(cfg, s, s.(clock := to));
  }

  /** A step that leaves clock, workers and history alone, and rewrites rows without touching their claims. */
  lemma TablesUntimed(cfg: Config, s: State, t: Tables)
    requires Untimed(cfg, s)
    requires Relational(t) && t.nextRun == s.tables.nextRun
    requires forall r :: r in t.runs ==> r in s.tables.runs && RowOk(t.runs[r], s.history[r])
    ensures Untimed(cfg, s.(tables := t))
  {
    WorkersKept(cfg, s, s.(tables := t));
  }

  lemma CreateUntimed(cfg: Config, s: State, b: Booking)
    requires Untimed(cfg, s)
    ensures Untimed(cfg, AfterCreate(s, b))
  {
    if b.appliance in s.tables.appliances {
      var s' := AfterCreate(s, b);
      assert Relational(s'.tables);
      forall r | r in s'.history ensures r < s'.tables.nextRun && HistoryOk(cfg, s'.clock, s'.history[r]) {
        assert r != s.tables.nextRun ==> r in s.history;
      }
      forall r | r in s'.tables.runs ensures r in s'.history && RowOk(s'.tables.runs[r], s'.history[r]) {
        assert r != s.tables.nextRun ==> r in s.tables.runs;
      }
      WorkersKept(cfg, s, s');
    }
  }

  /** Goroutines keep their part when histories they hold on to stay as they are. */
  lemma WorkersKept(cfg: Config, s: State, s': State)
    requires WorkersOk(cfg, s)
    requires s'.workers == s.workers && s'.passes == s.passes && s'.clock >= s.clock
    requires forall r :: r in s.history ==> r in s'.history && s'.history[r] == s.history[r]
    ensures WorkersOk(cfg, s')
  {
    forall k | k in s'.workers ensures WorkerOk(cfg, s', k) {
      assert WorkerOk(cfg, s, k);
    }
    forall k, k' | k in s'.workers && k' in s'.workers ensures AttemptsDiffer(s', k, k') {
      assert AttemptsDiffer(s, k, k');
    }
  }

  lemma DispatchUntimed(cfg: Config, s: State, now: int, batch: seq<int>)
    requires WorkersOk(cfg, s) && now <= s.clock
    requires forall r :: r in batch ==> r in s.history
    ensures WorkersOk(cfg, AfterDispatch(s, now, batch))
  {
    var s' := AfterDispatch(s, now, batch);
    forall k | k in s'.workers ensures WorkerOk(cfg, s', k) {
      assert k in s.workers ==> WorkerOk(cfg, s, k);
    }
    forall k, k' | k in s'.workers && k' in s'.workers ensures AttemptsDiffer(s', k, k') {
      if k in s.workers && k' in s.workers {
        assert WorkerOk(cfg, s, k) && WorkerOk(cfg, s, k') && AttemptsDiffer(s, k, k');
      }
    }
  }

  /** A goroutine that only moves on without gaining a claim. */
  lemma GotoUntimed(cfg: Config, s: State, k: WorkerId, pc: Pc)
    requires WorkersOk(cfg, s) && k in s.workers
    requires pc != Claimed && pc != Failing && !pc.Retrying?
    requires pc.Notifying? ==> Holds(s.workers[k])
    ensures WorkersOk(cfg, Goto(s, k, pc))
  {
    var s' := Goto(s, k, pc);
    forall j | j in s'.workers ensures WorkerOk(cfg, s', j) {
      assert WorkerOk(cfg, s, j);
    }
    forall j, j' | j in s'.workers && j' in s'.workers ensures AttemptsDiffer(s', j, j') {
      assert AttemptsDiffer(s, j, j');
    }
  }

  /** A claim appends to the history what it writes into the row. */
  lemma ClaimRecorded(cfg: Config, clock: int, run: Run, h: History, tick: int, notified: bool)
    requires HistoryOk(cfg, clock, h) && RowOk(run, h) && tick <= clock
    requires DueRow(run, notified, tick)
    ensures var h' := h.(claims := h.claims + [ClaimRecord(tick, run.status == Fired)]);
            HistoryOk(cfg, clock, h') && RowOk(ClaimedRow(run, tick), h')
  {
    var h' := h.(claims := h.claims + [ClaimRecord(tick, run.status == Fired)]);
    assert h'.claims[..|h.claims|] == h.claims;
  }

  lemma ClaimUntimed(cfg: Config, s: State, k: WorkerId)
    requires WorkersOk(cfg, s) && HistoriesOk(cfg, s) && At(s, k, Found)
    ensures WorkersOk(cfg, AfterClaim(cfg, s, k)) && HistoriesOk(cfg, AfterClaim(cfg, s, k))
  {
    assert WorkerOk(cfg, s, k);
    var tick := s.workers[k].tick;
    if Due(s.tables, k.run, tick) {
      ClaimRecorded(cfg, s.clock, s.tables.runs[k.run], s.history[k.run], tick, Notified(s.tables.notices, k.run));
      ClaimWorkers(cfg, s, k);
    } else {
      GotoUntimed(cfg, s, k, Done);
    }
  }

  lemma ClaimWorkers(cfg: Config, s: State, k: WorkerId)
    requires WorkersOk(cfg, s) && HistoriesOk(cfg, s) && At(s, k, Found) && Due(s.tables, k.run, s.workers[k].tick)
    ensures WorkersOk(cfg, AfterClaim(cfg, s, k))
  {
    var s' := AfterClaim(cfg, s, k);
    ClaimerOk(cfg, s, k);
    forall j | j in s'.workers && j != k
      ensures WorkerOk(cfg, s', j) && (j.run == k.run && Holds(s'.workers[j]) ==> s'.workers[j].attempt < s'.workers[k].attempt)
    {
      WorkerBesideClaim(cfg, s, k, j);
    }
    forall j, j' | j in s'.workers && j' in s'.workers ensures AttemptsDiffer(s', j, j') {
      assert AttemptsDiffer(s, j, j');
    }
  }

  /** The claim works on the attempt it has just recorded. */
  lemma ClaimerOk(cfg: Config, s: State, k: WorkerId)
    requires k in s.workers && WorkerOk(cfg, s, k) && HistoriesOk(cfg, s) && At(s, k, Found) && Due(s.tables, k.run, s.workers[k].tick)
    ensures WorkerOk(cfg, AfterClaim(cfg, s, k), k)
    ensures AfterClaim(cfg, s, k).workers[k].attempt == |s.history[k.run].claims| + 1
  {
    assert RowOk(s.tables.runs[k.run], s.history[k.run]) && HistoryOk(cfg, s.clock, s.history[k.run]);
  }

  /** Whoever held the run before worked on an earlier attempt. */
  lemma WorkerBesideClaim(cfg: Config, s: State, k: WorkerId, j: WorkerId)
    requires k in s.workers && j in s.workers && j != k && WorkerOk(cfg, s, j)
    requires k.run in s.history && Due(s.tables, k.run, s.workers[k].tick)
    ensures WorkerOk(cfg, AfterClaim(cfg, s, k), j)
    ensures j.run == k.run && Holds(s.workers[j]) ==> s.workers[j].attempt <= |s.history[k.run].claims|
  {
    var h, h' := s.history[k.run], AfterClaim(cfg, s, k).history[k.run];
    assert forall i :: 0 <= i < |h.claims| ==> h'.claims[i] == h.claims[i];
  }

  /** A goroutine moving on while recording its own attempt in the history of its run. */
  lemma OwnMoveUntimed(cfg: Config, s: State, k: WorkerId, pc: Pc, h: History)
    requires WorkersOk(cfg, s) && k in s.workers && Holds(s.workers[k])
    requires h.claims == s.history[k.run].claims
    requires forall a :: a in h.retryWrites ==> a in s.history[k.run].retryWrites || a == s.workers[k].attempt
    requires forall a :: a in h.sends ==> a in s.history[k.run].sends || a == s.workers[k].attempt
    requires WorkerOk(cfg, Record(Goto(s, k, pc), k.run, h), k)
    ensures WorkersOk(cfg, Record(Goto(s, k, pc), k.run, h))
  {
    var s' := Record(Goto(s, k, pc), k.run, h);
    forall j | j in s'.workers ensures WorkerOk(cfg, s', j) {
      if j != k {
        assert WorkerOk(cfg, s, j) && AttemptsDiffer(s, j, k);
      }
    }
    forall j, j' | j in s'.workers && j' in s'.workers ensures AttemptsDiffer(s', j, j') {
      assert AttemptsDiffer(s, j, j');
    }
  }

  /** What a send adds to the history of its run. */
  lemma SendRecorded(cfg: Config, clock: int, h: History, attempt: int, h': History)
    requires HistoryOk(cfg, clock, h) && 1 <= attempt <= |h.claims| && attempt !in h.sends
    requires h'.claims == h.claims && h'.retryWrites == h.retryWrites && h'.sends == h.sends + [attempt]
    ensures HistoryOk(cfg, clock, h')
  {
  }

  lemma SendWorkers(cfg: Config, s: State, k: WorkerId, pc: Pc, arrived: bool)
    requires WorkersOk(cfg, s) && At(s, k, Claimed)
    requires pc == Notifying(true) || pc == FailPc(cfg, s.clock, s.workers[k].attempt)
    ensures WorkersOk(cfg, AfterSend(s, k, pc, arrived))
  {
    assert WorkerOk(cfg, s, k);
    OwnMoveUntimed(cfg, s, k, pc, AfterSend(s, k, pc, arrived).history[k.run]);
  }

  lemma SendUntimed(cfg: Config, s: State, k: WorkerId, pc: Pc, arrived: bool)
    requires Untimed(cfg, s) && At(s, k, Claimed)
    requires pc == Notifying(true) || pc == FailPc(cfg, s.clock, s.workers[k].attempt)
    ensures Untimed(cfg, AfterSend(s, k, pc, arrived))
  {
    assert WorkerOk(cfg, s, k);
    var h, h' := s.history[k.run], AfterSend(s, k, pc, arrived).history[k.run];
    SendRecorded(cfg, s.clock, h, s.workers[k].attempt, h');
    SendWorkers(cfg, s, k, pc, arrived);
    assert k.run in s.tables.runs ==> RowOk(s.tables.runs[k.run], h');
  }

  lemma WriteRetryUntimed(cfg: Config, s: State, k: WorkerId, error: string)
    requires Untimed(cfg, s) && k in s.workers && s.workers[k].pc.Retrying?
    ensures Untimed(cfg, AfterWriteRetry(s, k, error))
  {
    assert WorkerOk(cfg, s, k);
    if k.run in s.tables.runs && s.tables.runs[k.run].status == Fired {
      var run, h := s.tables.runs[k.run], s.history[k.run];
      var h' := h.(retryWrites := h.retryWrites + [s.workers[k].attempt]);
      var t := RetryRun(s.tables, k.run, error, s.workers[k].pc.next);
      assert HistoryOk(cfg, s.clock, h');
      assert RowOk(run, h);
      assert RowOk(t.runs[k.run], h');
      WorkersKept(cfg, s, s.(tables := t));
      OwnMoveUntimed(cfg, s.(tables := t), k, Done, h');
    } else {
      assert AfterWriteRetry(s, k, error) == Goto(s, k, Done);
      GotoUntimed(cfg, s, k, Done);
    }
  }

  lemma WriteFailedUntimed(cfg: Config, s: State, k: WorkerId, error: string)
    requires Untimed(cfg, s) && At(s, k, Failing)
    ensures Untimed(cfg, Goto(s.(tables := FailRun(s.tables, k.run, error)), k, Notifying(false)))
  {
    var t := FailRun(s.tables, k.run, error);
    forall r | r in t.runs ensures RowOk(t.runs[r], s.history[r]) {
      assert RowOk(s.tables.runs[r], s.history[r]);
    }
    TablesUntimed(cfg, s, t);
    GotoUntimed(cfg, s.(tables := t), k, Notifying(false));
  }

  lemma NoticeRows(cfg: Config, s: State, k: WorkerId)
    requires Relational(s.tables) && HistoriesOk(cfg, s) && WorkersOk(cfg, s) && k in s.workers && s.workers[k].pc.Notifying?
    ensures Relational(AfterWriteNotice(s, k).tables) && HistoriesOk(cfg, AfterWriteNotice(s, k))
  {
    var s' := AfterWriteNotice(s, k);
    assert WorkerOk(cfg, s, k);
    var h, h' := s.history[k.run], s'.history[k.run];
    assert h'.claims == h.claims && h'.retryWrites == h.retryWrites && h'.sends == h.sends;
    assert HistoryOk(cfg, s.clock, h');
    assert k.run in s.tables.runs ==> RowOk(s.tables.runs[k.run], h');
    assert s'.tables.runs == s.tables.runs;
  }

  lemma NoticeWorkers(cfg: Config, s: State, k: WorkerId)
    requires WorkersOk(cfg, s) && k in s.workers && s.workers[k].pc.Notifying?
    ensures WorkersOk(cfg, AfterWriteNotice(s, k))
  {
    var t := InsertNotice(s.tables, k.run, s.workers[k].pc.delivered);
    assert WorkerOk(cfg, s, k);
    WorkersKept(cfg, s, s.(tables := t));
    if k.run in s.tables.runs {
      OwnMoveUntimed(cfg, s.(tables := t), k, Done, AfterWriteNotice(s, k).history[k.run]);
    } else {
      GotoUntimed(cfg, s.(tables := t), k, Done);
    }
  }

  lemma WriteNoticeUntimed(cfg: Config, s: State, k: WorkerId)
    requires Untimed(cfg, s) && k in s.workers && s.workers[k].pc.Notifying?
    ensures Untimed(cfg, AfterWriteNotice(s, k))
  {
    NoticeRows(cfg, s, k);
    NoticeWorkers(cfg, s, k);
  }

  lemma TableStepUntimed(cfg: Config, s: State, step: Step)
    requires Untimed(cfg, s)
    requires step.AddAppliance? || step.DeleteAppliance? || step.Cancel?
    ensures Untimed(cfg, Apply(cfg, s, step))
  {
    var t := Apply(cfg, s, step).tables;
    forall r | r in t.runs ensures r in s.tables.runs && RowOk(t.runs[r], s.history[r]) {
      assert RowOk(s.tables.runs[r], s.history[r]);
    }
    assert Relational(t);
    TablesUntimed(cfg, s, t);
  }

  /** Moving on without a write. */
  lemma MoveUntimed(cfg: Config, s: State, k: WorkerId, pc: Pc)
    requires Untimed(cfg, s) && k in s.workers
    requires pc == Done || pc == Dead || (pc == Notifying(false) && Holds(s.workers[k]))
    ensures Untimed(cfg, Goto(s, k, pc))
  {
    GotoUntimed(cfg, s, k, pc);
  }

  lemma LosingStepUntimed(cfg: Config, s: State, step: Step)
    requires Untimed(cfg, s) && Enabled(s, step)
    requires step.ClaimError? || step.SkipSend? || step.LoseRetry? || step.LoseFailed? || step.LoseNotice? || step.Crash?
    ensures Untimed(cfg, Apply(cfg, s, step))
  {
    MoveUntimed(cfg, s, step.k, if step.ClaimError? || step.Crash? then Dead else if step.SkipSend? || step.LoseFailed? then Notifying(false) else Done);
  }

  lemma ActingStepUntimed(cfg: Config, s: State, step: Step)
    requires Untimed(cfg, s) && Enabled(s, step)
    requires step.Claim? || step.SendOk? || step.SendFail? || step.WriteRetry? || step.WriteFailed? || step.WriteNotice?
    ensures Untimed(cfg, Apply(cfg, s, step))
  {
    match step
    case Claim(k) => ClaimStepUntimed(cfg, s, k);
    case SendOk(k) => SendUntimed(cfg, s, k, Notifying(true), true);
    case SendFail(k, arrived) => SendUntimed(cfg, s, k, FailPc(cfg, s.clock, s.workers[k].attempt), arrived);
    case WriteRetry(k, error) => WriteRetryUntimed(cfg, s, k, error);
    case WriteFailed(k, error) => WriteFailedUntimed(cfg, s, k, error);
    case WriteNotice(k) => WriteNoticeUntimed(cfg, s, k);
  }

  lemma ClaimStepUntimed(cfg: Config, s: State, k: WorkerId)
    requires Untimed(cfg, s) && At(s, k, Found)
    ensures Untimed(cfg, AfterClaim(cfg, s, k))
  {
    ClaimUntimed(cfg, s, k);
  }

  lemma StepUntimed(cfg: Config, s: State, step: Step)
    requires Untimed(cfg, s) && Enabled(s, step)
    ensures Untimed(cfg, Apply(cfg, s, step))
  {
    match step
    case Advance(to) => AdvanceUntimed(cfg, s, to);
    case AddAppliance(_, _) => TableStepUntimed(cfg, s, step);
    case DeleteAppliance(_) => TableStepUntimed(cfg, s, step);
    case Create(b) => CreateUntimed(cfg, s, b);
    case Cancel(_) => TableStepUntimed(cfg, s, step);
    case Dispatch(now, batch) => DispatchUntimed(cfg, s, now, batch);
    case Claim(_) => ActingStepUntimed(cfg, s, step);
    case SendOk(_) => ActingStepUntimed(cfg, s, step);
    case SendFail(_, _) => ActingStepUntimed(cfg, s, step);
    case WriteRetry(_, _) => ActingStepUntimed(cfg, s, step);
    case WriteFailed(_, _) => ActingStepUntimed(cfg, s, step);
    case WriteNotice(_) => ActingStepUntimed(cfg, s, step);
    case _ => LosingStepUntimed(cfg, s, step);
  }

  // ----- references, whatever else is known

  lemma RowsRelational(cfg: Config, s: State, step: Step)
    requires Relational(s.tables) && Enabled(s, step) && !step.DeleteAppliance? && !step.WriteNotice?
    ensures Relational(Apply(cfg, s, step).tables)
  {
  }

  lemma RelationalStays(cfg: Config, s: State, step: Step)
    requires Relational(s.tables) && Enabled(s, step)
    ensures Relational(Apply(cfg, s, step).tables)
  {
    if !step.DeleteAppliance? && !step.WriteNotice? {
      RowsRelational(cfg, s, step);
    }
  }
}
