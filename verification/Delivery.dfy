/** One undisturbed `fire`, as a function on the tables, and the progress each one makes. */
module Delivery {
  import opened Wrappers
  import opened RunTable
  import opened Backoff
  import opened Protocol
  import opened Ledger
  import opened Lease
  import opened ExactlyOnce

  /** What the network does with one delivery, and when a failure is noticed. */
  datatype Outcome = Outcome(delivered: bool, error: string, failedAt: int)

  /** From a successful claim to the return: deliver, then write the retry or the outcome. */
  function Conclude(cfg: Config, t: Tables, r: int, url: string, attempt: Attempt, o: Outcome): Tables {
    if url == "" then InsertNotice(t, r, false)
    else if o.delivered then InsertNotice(t, r, true)
    else if attempt < cfg.maxAttempts then RetryRun(t, r, o.error, o.failedAt + RetryDelay(attempt))
    else InsertNotice(FailRun(t, r, o.error), r, false)
  }

  /** The tables after a fire that neither crashes nor loses a write. */
  function Fire(cfg: Config, t: Tables, r: int, tick: int, o: Outcome): Tables {
    if Due(t, r, tick)
    then Conclude(cfg, ClaimRun(t, r, tick), r, TargetUrl(cfg, t.runs[r].booking.webhook), Max(t.runs[r].attempts + 1, 1), o)
    else t
  }

  /** The row of a run that got its outcome, and the one notification of it. */
  function Ended(t: Tables, r: int, run: Run, delivered: bool): Tables {
    t.(runs := t.runs[r := run], notices := t.notices[t.nextNotice := Notice(r, delivered)], nextNotice := t.nextNotice + 1)
  }

  /** A fire of a due run writes its row once and inserts at most one notification. */
  lemma FireShape(cfg: Config, t: Tables, r: int, tick: int, o: Outcome)
    requires Due(t, r, tick)
    ensures var t', claimed, attempt := Fire(cfg, t, r, tick, o), ClaimedRow(t.runs[r], tick), Max(t.runs[r].attempts + 1, 1);
            || t' == Ended(t, r, claimed, false)
            || t' == Ended(t, r, claimed, true)
            || t' == Ended(t, r, FailedRow(claimed, o.error), false)
            || (attempt < cfg.maxAttempts
                && t' == t.(runs := t.runs[r := RetriedRow(claimed, o.error, o.failedAt + RetryDelay(attempt))]))
  {
    var claimed := ClaimedRow(t.runs[r], tick);
    var failed := FailedRow(claimed, o.error);
    var retried := RetriedRow(claimed, o.error, o.failedAt + RetryDelay(Max(t.runs[r].attempts + 1, 1)));
    assert t.runs[r := claimed][r := failed] == t.runs[r := failed];
    assert t.runs[r := claimed][r := retried] == t.runs[r := retried];
  }

  // ----- the function is what the step machine does when nobody interferes

  /** A goroutine left alone runs from `Found` to `Done`, in its own time, and leaves exactly the tables of `Fire`. */
  lemma UndisturbedFire(cfg: Config, s: State, k: WorkerId, o: Outcome) returns (steps: seq<Step>, states: seq<State>)
    requires At(s, k, Found) && s.clock <= o.failedAt
    ensures Follows(cfg, s, steps, states)
    ensures states[|steps|].tables == Fire(cfg, s.tables, k.run, s.workers[k].tick, o)
    ensures MovedOnly(s, states[|steps|], k, Done)
  {
    steps, states := Then(cfg, s, [], [s], Claim(k));
    var s1 := states[|steps|];
    if Due(s.tables, k.run, s.workers[k].tick) {
      assert MovedOnly(s, s1, k, Claimed);
      steps, states := FinishFire(cfg, s, steps, states, k, o);
    }
  }

  /** Between two states no goroutine but k changed, and k is now at pc. */
  ghost predicate MovedOnly(s: State, s': State, k: WorkerId, pc: Pc) {
    k in s.workers && At(s', k, pc) && s'.workers == s.workers[k := s'.workers[k]]
  }

  /** The last step of a fire that reached an outcome. */
  lemma ThenNotice(cfg: Config, s0: State, steps0: seq<Step>, states0: seq<State>, k: WorkerId, delivered: bool)
    returns (steps: seq<Step>, states: seq<State>)
    requires Follows(cfg, s0, steps0, states0) && MovedOnly(s0, states0[|steps0|], k, Notifying(delivered))
    ensures Follows(cfg, s0, steps, states) && MovedOnly(s0, states[|steps|], k, Done)
    ensures states[|steps|].tables == InsertNotice(states0[|steps0|].tables, k.run, delivered)
  {
    steps, states := Then(cfg, s0, steps0, states0, WriteNotice(k));
  }

  /** The send fails at o.failedAt, and the retry or the failure is written. */
  lemma FinishFailedSend(cfg: Config, s0: State, steps0: seq<Step>, states0: seq<State>, k: WorkerId, o: Outcome)
    returns (steps: seq<Step>, states: seq<State>)
    requires Follows(cfg, s0, steps0, states0) && MovedOnly(s0, states0[|steps0|], k, Claimed)
    requires states0[|steps0|].clock == o.failedAt && states0[|steps0|].workers[k].url != "" && !o.delivered
    ensures Follows(cfg, s0, steps, states) && MovedOnly(s0, states[|steps|], k, Done)
    ensures var s := states0[|steps0|];
            states[|steps|].tables == Conclude(cfg, s.tables, k.run, s.workers[k].url, s.workers[k].attempt, o)
  {
    var w := states0[|steps0|].workers[k];
    steps, states := Then(cfg, s0, steps0, states0, SendFail(k, false));
    assert states[|steps|].workers[k].pc == FailPc(cfg, o.failedAt, w.attempt);
    if w.attempt < cfg.maxAttempts {
      steps, states := Then(cfg, s0, steps, states, WriteRetry(k, o.error));
    } else {
      steps, states := Then(cfg, s0, steps, states, WriteFailed(k, o.error));
      steps, states := ThenNotice(cfg, s0, steps, states, k, false);
    }
  }

  /** The rest of an undisturbed fire, from the claim on. */
  lemma FinishFire(cfg: Config, s0: State, steps0: seq<Step>, states0: seq<State>, k: WorkerId, o: Outcome)
    returns (steps: seq<Step>, states: seq<State>)
    requires Follows(cfg, s0, steps0, states0) && MovedOnly(s0, states0[|steps0|], k, Claimed)
    requires states0[|steps0|].clock <= o.failedAt
    ensures Follows(cfg, s0, steps, states) && MovedOnly(s0, states[|steps|], k, Done)
    ensures var s := states0[|steps0|];
            states[|steps|].tables == Conclude(cfg, s.tables, k.run, s.workers[k].url, s.workers[k].attempt, o)
  {
    steps, states := steps0, states0;
    if states[|steps|].workers[k].url == "" {
      steps, states := Then(cfg, s0, steps, states, SkipSend(k));
      steps, states := ThenNotice(cfg, s0, steps, states, k, false);
    } else if o.delivered {
      steps, states := Then(cfg, s0, steps, states, SendOk(k));
      steps, states := ThenNotice(cfg, s0, steps, states, k, true);
    } else {
      if states[|steps|].clock < o.failedAt {
        steps, states := Then(cfg, s0, steps, states, Advance(o.failedAt));
      }
      steps, states := FinishFailedSend(cfg, s0, steps, states, k, o);
    }
  }

  // ----- progress

  /** How many more deliveries the run can still be given. */
  function Weight(cfg: Config, run: Run): (w: int)
    ensures w >= 1
  {
    Max(1, cfg.maxAttempts - run.attempts)
  }

  ghost function NoticesOf(t: Tables, r: int): set<int> {
    set n | n in t.notices && t.notices[n].run == r
  }

  /** What a fire relies on: fresh notice numbers, and nothing pending that was already notified. */
  ghost predicate Clean(t: Tables) {
    && Relational(t)
    && (forall r :: r in t.runs ==> t.runs[r].attempts >= 0)
    && (forall r :: r in t.runs && t.runs[r].status == Pending ==> !Notified(t.notices, r))
  }

  lemma TimelyIsClean(cfg: Config, s: State)
    requires Untimed(cfg, s) && RowsTimely(s.tables)
    ensures Clean(s.tables)
  {
    forall r | r in s.tables.runs
      ensures s.tables.runs[r].attempts >= 0 && (s.tables.runs[r].status == Pending ==> !Notified(s.tables.notices, r))
    {
      assert RowOk(s.tables.runs[r], s.history[r]) && RowTimely(s.tables.runs[r], Notified(s.tables.notices, r));
    }
  }

  /** The run has its outcome: failed, cancelled, or notified. */
  predicate Finished(t: Tables, r: int) {
    r in t.runs && (t.runs[r].status == Failed || t.runs[r].status == Cancelled || Notified(t.notices, r))
  }

  /** A fire touches nothing but the row and the notifications of its own run. */
  lemma FireFrame(cfg: Config, t: Tables, r: int, tick: int, o: Outcome)
    requires Clean(t)
    ensures var t' := Fire(cfg, t, r, tick, o);
            && t'.runs.Keys == t.runs.Keys && t'.appliances == t.appliances
            && (r in t.runs ==> t'.runs[r].booking == t.runs[r].booking)
            && forall q :: q != r ==> (q in t.runs ==> t'.runs[q] == t.runs[q])
                                      && (Notified(t'.notices, q) <==> Notified(t.notices, q))
  {
    if Due(t, r, tick) {
      FireShape(cfg, t, r, tick, o);
      forall q ensures (Notified(t.notices[t.nextNotice := Notice(r, true)], q) <==> Notified(t.notices, q) || q == r)
                    && (Notified(t.notices[t.nextNotice := Notice(r, false)], q) <==> Notified(t.notices, q) || q == r)
      {
        NoticeAddedTo(t.notices, t.nextNotice, Notice(r, true), q);
        NoticeAddedTo(t.notices, t.nextNotice, Notice(r, false), q);
      }
    }
  }

  lemma NoNotices(t: Tables, r: int)
    ensures NoticesOf(t, r) == {} <==> !Notified(t.notices, r)
  {
    if Notified(t.notices, r) {
      var n :| n in t.notices && t.notices[n].run == r;
      assert n in NoticesOf(t, r);
    }
    if !Notified(t.notices, r) {
      assert forall n :: n in t.notices ==> t.notices[n].run != r;
    }
  }

  /**
   Progress: a fire of a due run either ends it, fired or failed with exactly one notification,
   or puts it back unnotified with strictly fewer deliveries left.
   */
  lemma FireProgress(cfg: Config, t: Tables, r: int, tick: int, o: Outcome)
    requires Clean(t) && Due(t, r, tick)
    ensures var t' := Fire(cfg, t, r, tick, o);
            || (|NoticesOf(t', r)| == 1 && Notified(t'.notices, r) && t'.runs[r].status in {Fired, Failed})
            || (&& t'.runs[r].status == Pending && !Notified(t'.notices, r)
                && 1 <= Weight(cfg, t'.runs[r]) < Weight(cfg, t.runs[r]))
  {
    var t' := Fire(cfg, t, r, tick, o);
    FireShape(cfg, t, r, tick, o);
    assert !Notified(t.notices, r);
    if t'.nextNotice != t.nextNotice {
      assert t'.notices[t.nextNotice].run == r;
      NoNotices(t, r);
      assert NoticesOf(t', r) == {t.nextNotice} + NoticesOf(t, r);
    }
  }

  lemma FireClean(cfg: Config, t: Tables, r: int, tick: int, o: Outcome)
    requires Clean(t)
    ensures Clean(Fire(cfg, t, r, tick, o))
  {
    FireFrame(cfg, t, r, tick, o);
    if Due(t, r, tick) {
      FireProgress(cfg, t, r, tick, o);
    }
  }

  /** What a fire does to its run depends on that run only. */
  lemma FireLocal(cfg: Config, t: Tables, u: Tables, r: int, tick: int, o: Outcome)
    requires Clean(t) && Clean(u)
    requires r in t.runs <==> r in u.runs
    requires r in t.runs ==> t.runs[r] == u.runs[r]
    requires Notified(t.notices, r) <==> Notified(u.notices, r)
    ensures var t', u' := Fire(cfg, t, r, tick, o), Fire(cfg, u, r, tick, o);
            && (r in t.runs ==> t'.runs[r] == u'.runs[r])
            && (Notified(t'.notices, r) <==> Notified(u'.notices, r))
  {
    if Due(t, r, tick) {
      NoticeAddedTo(t.notices, t.nextNotice, Notice(r, true), r);
      NoticeAddedTo(t.notices, t.nextNotice, Notice(r, false), r);
      NoticeAddedTo(u.notices, u.nextNotice, Notice(r, true), r);
      NoticeAddedTo(u.notices, u.nextNotice, Notice(r, false), r);
    }
  }

  /** From every reachable state, when no write is lost, each claim finishes its run or brings it closer. */
  lemma ReachableProgress(cfg: Config, trace: seq<State>, steps: seq<Step>, i: nat, r: int, tick: int, o: Outcome)
    requires IsTimelyTrace(cfg, trace, steps) && i < |trace| && Due(trace[i].tables, r, tick)
    ensures var t, t' := trace[i].tables, Fire(cfg, trace[i].tables, r, tick, o);
            || (|NoticesOf(t', r)| == 1 && t'.runs[r].status in {Fired, Failed})
            || (t'.runs[r].status == Pending && NoticesOf(t', r) == {} && Weight(cfg, t'.runs[r]) < Weight(cfg, t.runs[r]))
  {
    TraceTimely(cfg, trace, steps, i);
    TimelyIsClean(cfg, trace[i]);
    FireProgress(cfg, trace[i].tables, r, tick, o);
    NoNotices(Fire(cfg, trace[i].tables, r, tick, o), r);
  }

  // ----- a run that keeps being claimed finishes in time

  datatype Firing = Firing(tick: int, outcome: Outcome)

  function FireAll(cfg: Config, t: Tables, r: int, firings: seq<Firing>): Tables
    decreases |firings|
  {
    if firings == [] then t
    else FireAll(cfg, Fire(cfg, t, r, firings[0].tick, firings[0].outcome), r, firings[1..])
  }

  /** Each firing found the run due. */
  predicate AllClaim(cfg: Config, t: Tables, r: int, firings: seq<Firing>)
    decreases |firings|
  {
    firings == [] ||
    (&& Due(t, r, firings[0].tick)
     && AllClaim(cfg, Fire(cfg, t, r, firings[0].tick, firings[0].outcome), r, firings[1..]))
  }

  /** No run is claimed more often than its weight, and one claimed that often has its outcome. */
  lemma {:induction false} FinishesWithinWeight(cfg: Config, t: Tables, r: int, firings: seq<Firing>)
    requires Clean(t) && r in t.runs && AllClaim(cfg, t, r, firings)
    ensures |firings| <= Weight(cfg, t.runs[r])
    ensures |firings| == Weight(cfg, t.runs[r]) ==> Finished(FireAll(cfg, t, r, firings), r)
    ensures |firings| <= 1 || |firings| <= cfg.maxAttempts - t.runs[r].attempts
    ensures |firings| >= 1 && |firings| >= cfg.maxAttempts - t.runs[r].attempts ==>
              var u := FireAll(cfg, t, r, firings);
              r in u.runs && u.runs[r].status != Pending && (u.runs[r].status == Fired ==> Notified(u.notices, r))
    decreases |firings|
  {
    if firings != [] {
      var t' := Fire(cfg, t, r, firings[0].tick, firings[0].outcome);
      FireProgress(cfg, t, r, firings[0].tick, firings[0].outcome);
      FireClean(cfg, t, r, firings[0].tick, firings[0].outcome);
      FireFrame(cfg, t, r, firings[0].tick, firings[0].outcome);
      if t'.runs[r].status == Pending {
        FinishesWithinWeight(cfg, t', r, firings[1..]);
      } else {
        assert firings[1..] == [];
      }
    }
  }

  // ----- what a fire comes to, column by column

  /** The run names a webhook of its own. */
  predicate NamesItsOwn(b: Booking) {
    b.webhook != None && b.webhook != Some("")
  }

  /** Somebody is to be told when the run starts: the webhook of the run, or the configured one. */
  predicate HasReceiver(cfg: Config, b: Booking) {
    NamesItsOwn(b) || cfg.defaultUrl != ""
  }

  /** No fire touches what was booked; the claim is stamped and counted whatever comes of it. */
  lemma FireStampsTheClaim(cfg: Config, t: Tables, r: int, tick: int, o: Outcome)
    requires Clean(t) && Due(t, r, tick)
    ensures var t' := Fire(cfg, t, r, tick, o);
            && r in t'.runs && t'.runs[r].booking == t.runs[r].booking
            && t'.runs[r].firedAt == Some(tick) && t'.runs[r].attempts == t.runs[r].attempts + 1
  {
    FireShape(cfg, t, r, tick, o);
  }

  /**
   A delivered fire leaves the run fired with one notification, which says delivered exactly when there was
   a receiver at all; nothing else about the run is written.
   */
  lemma DeliveredFire(cfg: Config, t: Tables, r: int, tick: int, o: Outcome)
    requires Clean(t) && Due(t, r, tick) && (o.delivered || !HasReceiver(cfg, t.runs[r].booking))
    ensures var t' := Fire(cfg, t, r, tick, o);
            && t'.notices == t.notices[t.nextNotice := Notice(r, HasReceiver(cfg, t.runs[r].booking))]
            && t'.runs[r].status == Fired
            && t'.runs[r].lastError == t.runs[r].lastError && t'.runs[r].nextAttempt == t.runs[r].nextAttempt
  {
  }

  /** A failed delivery with attempts left puts the run back with its error, its backoff counted from the failure. */
  lemma RetriedFire(cfg: Config, t: Tables, r: int, tick: int, o: Outcome)
    requires Clean(t) && Due(t, r, tick) && !o.delivered && HasReceiver(cfg, t.runs[r].booking)
    requires t.runs[r].attempts + 1 < cfg.maxAttempts
    ensures var t' := Fire(cfg, t, r, tick, o);
            && t'.notices == t.notices
            && t'.runs[r].status == Pending && t'.runs[r].lastError == Some(o.error)
            && t'.runs[r].nextAttempt == Some(o.failedAt + RetryDelay(t.runs[r].attempts + 1))
  {
  }

  /** A failed delivery with no attempt left fails the run with its error, and one notification says not delivered. */
  lemma FailedFire(cfg: Config, t: Tables, r: int, tick: int, o: Outcome)
    requires Clean(t) && Due(t, r, tick) && !o.delivered && HasReceiver(cfg, t.runs[r].booking)
    requires t.runs[r].attempts + 1 >= cfg.maxAttempts
    ensures var t' := Fire(cfg, t, r, tick, o);
            && t'.notices == t.notices[t.nextNotice := Notice(r, false)]
            && t'.runs[r].status == Failed && t'.runs[r].lastError == Some(o.error)
            && t'.runs[r].nextAttempt == t.runs[r].nextAttempt
  {
  }
}
