/** One pass: its batch fired as a whole, and the interleavings of goroutines that this stands for. */
module Passes {
  import opened RunTable
  import opened Backoff
  import opened Pigeonhole
  import opened Protocol
  import opened Delivery

  /** A pass fires its batch, each run with its own outcome of the send. */
  function FireBatch(cfg: Config, t: Tables, now: int, batch: seq<int>, net: int -> Outcome): Tables
    decreases |batch|
  {
    if batch == [] then t
    else FireBatch(cfg, Fire(cfg, t, batch[0], now, net(batch[0])), now, batch[1..], net)
  }

  /** The two tables agree on the row of p and on whether it is notified. */
  ghost predicate SameRun(t: Tables, u: Tables, p: int) {
    && (p in t.runs <==> p in u.runs)
    && (p in t.runs ==> t.runs[p] == u.runs[p])
    && (Notified(t.notices, p) <==> Notified(u.notices, p))
  }

  /** Firing a batch does to each of its runs what firing that run alone does, and nothing to the others. */
  lemma {:induction false} FireBatchPointwise(cfg: Config, t: Tables, now: int, batch: seq<int>, net: int -> Outcome, p: int)
    requires Clean(t) && Distinct(batch)
    ensures SameRun(FireBatch(cfg, t, now, batch, net), if p in batch then Fire(cfg, t, p, now, net(p)) else t, p)
    decreases |batch|
  {
    if batch != [] {
      var q, rest := batch[0], batch[1..];
      var t1 := Fire(cfg, t, q, now, net(q));
      assert batch == [q] + rest;
      FireFrame(cfg, t, q, now, net(q));
      FireClean(cfg, t, q, now, net(q));
      FireBatchPointwise(cfg, t1, now, rest, net, p);
      if p in rest {
        FireLocal(cfg, t, t1, p, now, net(p));
        FireFrame(cfg, t, p, now, net(p));
        FireFrame(cfg, t1, p, now, net(p));
      }
    }
  }

  /** The order in which the goroutines of a pass run one after the other does not show. */
  lemma OrderDoesNotShow(cfg: Config, t: Tables, now: int, batch: seq<int>, batch': seq<int>, net: int -> Outcome, p: int)
    requires Clean(t) && Distinct(batch) && Distinct(batch')
    requires forall r :: r in batch <==> r in batch'
    ensures SameRun(FireBatch(cfg, t, now, batch, net), FireBatch(cfg, t, now, batch', net), p)
  {
    FireBatchPointwise(cfg, t, now, batch, net, p);
    FireBatchPointwise(cfg, t, now, batch', net, p);
  }

  // ----- the goroutines of one pass, interleaved statement by statement

  /**
   Steps while the pass is under way: the clock, other passes looking for work, the goroutines of this pass
   without crashes or lost writes, and whatever others do that writes no table.
   */
  predicate Calm(step: Step, pass: int) {
    match step
    case Advance(_) => true
    case Dispatch(_, _) => true
    case AddAppliance(_, _) => false
    case DeleteAppliance(_) => false
    case Create(_) => false
    case Cancel(_) => false
    case Claim(k) => k.pass == pass
    case WriteRetry(k, _) => k.pass == pass
    case WriteFailed(k, _) => k.pass == pass
    case WriteNotice(k) => k.pass == pass
    case SkipSend(_) => true
    case SendOk(_) => true
    case SendFail(_, _) => true
    case ClaimError(k) => k.pass != pass
    case LoseRetry(k) => k.pass != pass
    case LoseFailed(k) => k.pass != pass
    case LoseNotice(k) => k.pass != pass
    case Crash(k) => k.pass != pass
  }

  /** What one step tells about the network as goroutine k sees it. */
  function Hears(clock: int, step: Step, k: WorkerId, o: Outcome): Outcome {
    match step
    case SendOk(j) => if j == k then o.(delivered := true) else o
    case SendFail(j, _) => if j == k then o.(failedAt := clock) else o
    case WriteRetry(j, error) => if j == k then o.(error := error) else o
    case WriteFailed(j, error) => if j == k then o.(error := error) else o
    case _ => o
  }

  /** The outcome of goroutine k, read off the first n steps. */
  function Heard(states: seq<State>, steps: seq<Step>, k: WorkerId, n: nat): Outcome {
    if n == 0 || n > |steps| || n > |states| then Outcome(false, "", 0)
    else Hears(states[n - 1].clock, steps[n - 1], k, Heard(states, steps, k, n - 1))
  }

  /** Between its claim and its return, the goroutine has done part of `Fire`. */
  ghost predicate UnderWay(cfg: Config, t: Tables, s: State, k: WorkerId, o: Outcome)
    requires k in s.workers
  {
    var r, w := k.run, s.workers[k];
    && Due(t, r, w.tick) && r in s.tables.runs
    && (Notified(s.tables.notices, r) <==> Notified(t.notices, r))
    && w.attempt == Max(t.runs[r].attempts + 1, 1)
    && w.url == TargetUrl(cfg, t.runs[r].booking.webhook)
    && var claimed, row := ClaimedRow(t.runs[r], w.tick), s.tables.runs[r];
       match w.pc
       case Claimed => row == claimed && !o.delivered
       case Retrying(next) =>
         row == claimed && w.url != "" && !o.delivered && w.attempt < cfg.maxAttempts && next == o.failedAt + RetryDelay(w.attempt)
       case Failing => row == claimed && w.url != "" && !o.delivered && w.attempt >= cfg.maxAttempts
       case Notifying(delivered) =>
         if delivered then row == claimed && w.url != "" && o.delivered
         else (w.url == "" && row == claimed)
              || (w.url != "" && !o.delivered && w.attempt >= cfg.maxAttempts && row == FailedRow(claimed, o.error))
       case _ => false
  }

  /** How far the goroutine has got with what `Fire` does to the tables t of the dispatch. */
  ghost predicate PartOfFire(cfg: Config, t: Tables, s: State, k: WorkerId, now: int, o: Outcome) {
    && k in s.workers && s.workers[k].tick == now
    && match s.workers[k].pc
       case Found => SameRun(s.tables, t, k.run) && !o.delivered
       case Done => SameRun(s.tables, Fire(cfg, t, k.run, now, o), k.run)
       case Dead => false
       case _ => UnderWay(cfg, t, s, k, o)
  }

  lemma ClaimIsPart(cfg: Config, t: Tables, s: State, k: WorkerId, now: int, o: Outcome)
    requires Clean(t) && PartOfFire(cfg, t, s, k, now, o) && At(s, k, Found)
    ensures PartOfFire(cfg, t, AfterClaim(cfg, s, k), k, now, o)
  {
    assert Due(s.tables, k.run, now) <==> Due(t, k.run, now);
  }

  lemma RetryIsPart(cfg: Config, t: Tables, s: State, k: WorkerId, now: int, o: Outcome, error: string)
    requires Clean(t) && PartOfFire(cfg, t, s, k, now, o) && s.workers[k].pc.Retrying?
    ensures PartOfFire(cfg, t, AfterWriteRetry(s, k, error), k, now, o.(error := error))
  {
  }

  lemma NoticeIsPart(cfg: Config, t: Tables, s: State, k: WorkerId, now: int, o: Outcome)
    requires Clean(t) && PartOfFire(cfg, t, s, k, now, o) && s.workers[k].pc.Notifying?
    requires s.tables.nextNotice !in s.tables.notices
    ensures PartOfFire(cfg, t, AfterWriteNotice(s, k), k, now, o)
  {
    var r, delivered := k.run, s.workers[k].pc.delivered;
    NoticeAdded(s.tables, r, delivered, r);
    NoticeAddedTo(t.notices, t.nextNotice, Notice(r, delivered), r);
  }

  /** The goroutine's own step does the next part. */
  lemma OwnPart(cfg: Config, t: Tables, s: State, step: Step, k: WorkerId, now: int, o: Outcome)
    requires Clean(t) && PartOfFire(cfg, t, s, k, now, o) && s.tables.nextNotice !in s.tables.notices
    requires step.ByWorker() && step.k == k && Enabled(s, step) && Calm(step, k.pass)
    ensures PartOfFire(cfg, t, Apply(cfg, s, step), k, now, Hears(s.clock, step, k, o))
  {
    match step
    case Claim(_) => ClaimIsPart(cfg, t, s, k, now, o);
    case WriteRetry(_, error) => RetryIsPart(cfg, t, s, k, now, o, error);
    case WriteNotice(_) => NoticeIsPart(cfg, t, s, k, now, o);
    case _ =>
  }

  /** A calm step that is not of run p leaves p alone. */
  lemma CalmFrame(cfg: Config, s: State, step: Step, pass: int, p: int)
    requires Enabled(s, step) && Calm(step, pass) && s.tables.nextNotice !in s.tables.notices
    requires step.ByWorker() && step.k.pass == pass ==> step.k.run != p
    ensures SameRun(Apply(cfg, s, step).tables, s.tables, p)
  {
    if step.WriteNotice? && step.k.run in s.tables.runs {
      NoticeAdded(s.tables, step.k.run, s.workers[step.k].pc.delivered, p);
    }
  }

  /** And a goroutine of another run of the pass stays where it is. */
  lemma OthersPart(cfg: Config, t: Tables, s: State, step: Step, k: WorkerId, now: int, o: Outcome)
    requires PartOfFire(cfg, t, s, k, now, o) && s.tables.nextNotice !in s.tables.notices && k.pass < s.passes
    requires Enabled(s, step) && Calm(step, k.pass) && !(step.ByWorker() && step.k == k)
    ensures PartOfFire(cfg, t, Apply(cfg, s, step), k, now, o) && Hears(s.clock, step, k, o) == o
  {
    CalmFrame(cfg, s, step, k.pass, k.run);
    var s' := Apply(cfg, s, step);
    assert k in s'.workers && s'.workers[k] == s.workers[k];
  }

  /** The pass that dispatched `batch` on tables t at `now` is this far, and the other runs are as they were. */
  ghost predicate PassUnderWay(cfg: Config, t: Tables, now: int, batch: seq<int>, pass: int, s: State, heard: WorkerId -> Outcome) {
    && pass < s.passes
    && (forall n :: n in s.tables.notices ==> n < s.tables.nextNotice)
    && (forall k :: k in s.workers && k.pass == pass ==> k.run in batch)
    && (forall r :: r in batch ==> PartOfFire(cfg, t, s, WorkerId(pass, r), now, heard(WorkerId(pass, r))))
    && (forall p :: p !in batch ==> SameRun(s.tables, t, p))
  }

  lemma PassStep(cfg: Config, t: Tables, now: int, batch: seq<int>, pass: int, s: State, step: Step,
                 heard: WorkerId -> Outcome, heard': WorkerId -> Outcome)
    requires Clean(t) && PassUnderWay(cfg, t, now, batch, pass, s, heard) && Enabled(s, step) && Calm(step, pass)
    requires forall k :: heard'(k) == Hears(s.clock, step, k, heard(k))
    ensures PassUnderWay(cfg, t, now, batch, pass, Apply(cfg, s, step), heard')
  {
    var s' := Apply(cfg, s, step);
    forall r | r in batch ensures PartOfFire(cfg, t, s', WorkerId(pass, r), now, heard'(WorkerId(pass, r))) {
      var k := WorkerId(pass, r);
      if step.ByWorker() && step.k == k {
        OwnPart(cfg, t, s, step, k, now, heard(k));
      } else {
        OthersPart(cfg, t, s, step, k, now, heard(k));
      }
    }
    forall p | p !in batch ensures SameRun(s'.tables, t, p) {
      CalmFrame(cfg, s, step, pass, p);
    }
    WorkersOfPass(cfg, s, step, pass, batch);
  }

  lemma WorkersOfPass(cfg: Config, s: State, step: Step, pass: int, batch: seq<int>)
    requires Enabled(s, step) && Calm(step, pass) && pass < s.passes
    requires forall n :: n in s.tables.notices ==> n < s.tables.nextNotice
    requires forall k :: k in s.workers && k.pass == pass ==> k.run in batch
    ensures var s' := Apply(cfg, s, step);
            && pass < s'.passes
            && (forall n :: n in s'.tables.notices ==> n < s'.tables.nextNotice)
            && (forall k :: k in s'.workers && k.pass == pass ==> k.run in batch)
  {
  }

  lemma DispatchUnderWay(cfg: Config, s: State, now: int, batch: seq<int>, heard: WorkerId -> Outcome)
    requires Clean(s.tables) && (forall k :: k in s.workers ==> k.pass < s.passes)
    requires forall k :: !heard(k).delivered
    ensures PassUnderWay(cfg, s.tables, now, batch, s.passes, AfterDispatch(s, now, batch), heard)
  {
    var s' := AfterDispatch(s, now, batch);
    forall r | r in batch ensures PartOfFire(cfg, s.tables, s', WorkerId(s.passes, r), now, heard(WorkerId(s.passes, r))) {
      assert s'.workers[WorkerId(s.passes, r)] == Worker(now, Found, 1, "");
    }
  }

  lemma {:induction false} PassAt(cfg: Config, s: State, now: int, batch: seq<int>, steps: seq<Step>, states: seq<State>, n: nat)
    requires Clean(s.tables) && (forall k :: k in s.workers ==> k.pass < s.passes)
    requires Follows(cfg, AfterDispatch(s, now, batch), steps, states) && n <= |steps|
    requires forall i :: 0 <= i < |steps| ==> Calm(steps[i], s.passes)
    ensures PassUnderWay(cfg, s.tables, now, batch, s.passes, states[n], k => Heard(states, steps, k, n))
  {
    if n == 0 {
      DispatchUnderWay(cfg, s, now, batch, k => Heard(states, steps, k, 0));
    } else {
      PassAt(cfg, s, now, batch, steps, states, n - 1);
      PassStep(cfg, s.tables, now, batch, s.passes, states[n - 1], steps[n - 1],
               k => Heard(states, steps, k, n - 1), k => Heard(states, steps, k, n));
    }
  }

  /**
   However the statements of the goroutines of one pass interleave, and however long they take: when all have
   returned, the rows and who is notified are those of `FireBatch`, with the outcomes read off the steps.
   */
  lemma InterleavedPassIsFireBatch(cfg: Config, s: State, now: int, batch: seq<int>, steps: seq<Step>, states: seq<State>)
    requires Clean(s.tables) && (forall k :: k in s.workers ==> k.pass < s.passes)
    requires Enabled(s, Dispatch(now, batch)) && Follows(cfg, AfterDispatch(s, now, batch), steps, states)
    requires forall i :: 0 <= i < |steps| ==> Calm(steps[i], s.passes)
    requires forall k :: k in states[|steps|].workers && k.pass == s.passes ==> states[|steps|].workers[k].pc == Done
    ensures var fired := FireBatch(cfg, s.tables, now, batch, r => Heard(states, steps, WorkerId(s.passes, r), |steps|));
            && states[|steps|].tables.runs == fired.runs
            && forall p :: Notified(states[|steps|].tables.notices, p) <==> Notified(fired.notices, p)
  {
    var net := r => Heard(states, steps, WorkerId(s.passes, r), |steps|);
    var fired := FireBatch(cfg, s.tables, now, batch, net);
    PassAt(cfg, s, now, batch, steps, states, |steps|);
    forall p ensures SameRun(states[|steps|].tables, fired, p) {
      ReturnedPass(cfg, s.tables, now, batch, s.passes, states[|steps|], k => Heard(states, steps, k, |steps|), net, p);
    }
    SameEverywhere(states[|steps|].tables, fired);
  }

  lemma ReturnedPass(cfg: Config, t: Tables, now: int, batch: seq<int>, pass: int, s: State,
                     heard: WorkerId -> Outcome, net: int -> Outcome, p: int)
    requires Clean(t) && PassUnderWay(cfg, t, now, batch, pass, s, heard) && Distinct(batch)
    requires forall k :: k in s.workers && k.pass == pass ==> s.workers[k].pc == Done
    requires forall r :: net(r) == heard(WorkerId(pass, r))
    ensures SameRun(s.tables, FireBatch(cfg, t, now, batch, net), p)
  {
    FireBatchPointwise(cfg, t, now, batch, net, p);
    if p in batch {
      assert PartOfFire(cfg, t, s, WorkerId(pass, p), now, heard(WorkerId(pass, p)));
    }
  }

  lemma SameEverywhere(t: Tables, u: Tables)
    requires forall p :: SameRun(t, u, p)
    ensures t.runs == u.runs && forall p :: Notified(t.notices, p) <==> Notified(u.notices, p)
  {
    forall p ensures p in t.runs <==> p in u.runs {
      assert SameRun(t, u, p);
    }
    forall p | p in t.runs ensures t.runs[p] == u.runs[p] {
      assert SameRun(t, u, p);
    }
    forall p ensures Notified(t.notices, p) <==> Notified(u.notices, p) {
      assert SameRun(t, u, p);
    }
  }
}
