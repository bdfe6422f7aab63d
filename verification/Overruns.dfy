/** What goes wrong when a goroutine outlives its lease, what goes wrong all the same, and that the former takes a late step first. */
module Overruns {
  import opened Wrappers
  import opened Clock
  import opened RunTable
  import opened Backoff
  import opened Protocol
  import opened Ledger
  import opened Budget
  import opened Lease
  import opened ExactlyOnce
  import opened Abandonment

  /**
   A cancelled row whose appliance stays is overwritten by exactly one kind of step: the failure
   write, which has no status guard, of a goroutine still about to fail that run.
   */
  lemma CancelledLostExactlyByFailureWrite(cfg: Config, s: State, step: Step, r: int)
    requires Relational(s.tables) && Enabled(s, step) && HasStatus(s, r, Cancelled)
    requires r in Apply(cfg, s, step).tables.runs
    ensures !HasStatus(Apply(cfg, s, step), r, Cancelled) <==> step.WriteFailed? && step.k.run == r
  {
  }

  /** As long as every step so far was in time, a failure write on a cancelled run can only come too late. */
  lemma FirstFailureWriteOnCancelledIsLate(cfg: Config, s: State, k: WorkerId, error: string)
    requires Timely(s) && HasStatus(s, k.run, Cancelled) && k.run in s.history
    requires Enabled(s, WriteFailed(k, error))
    ensures !InLease(s, WriteFailed(k, error))
  {
    if InLease(s, WriteFailed(k, error)) {
      FinalHasNoLive(s, k.run, k);
    }
  }

  /** As long as every step so far was in time, a second notification can only come from a goroutine past its lease. */
  lemma FirstSecondNoticeIsLate(cfg: Config, s: State, k: WorkerId)
    requires Untimed(cfg, s) && Timely(s) && Enabled(s, WriteNotice(k)) && k.run in s.tables.runs
    ensures OneNoticeEach(Apply(cfg, s, WriteNotice(k)).tables.notices) <==> !Notified(s.tables.notices, k.run)
    ensures Notified(s.tables.notices, k.run) ==> !InLease(s, WriteNotice(k))
  {
    SecondNotice(s.tables, k.run, s.workers[k].pc.delivered);
    if Notified(s.tables.notices, k.run) && InLease(s, WriteNotice(k)) {
      FinalHasNoLive(s, k.run, k);
    }
  }

  lemma SecondNotice(t: Tables, r: int, delivered: bool)
    requires OneNoticeEach(t.notices) && r in t.runs && forall n :: n in t.notices ==> n < t.nextNotice
    ensures OneNoticeEach(InsertNotice(t, r, delivered).notices) <==> !Notified(t.notices, r)
  {
    var notices := InsertNotice(t, r, delivered).notices;
    if Notified(t.notices, r) {
      var n :| n in t.notices && t.notices[n].run == r;
      assert n in notices && notices[n].run == r && notices[t.nextNotice].run == r && n != t.nextNotice;
    }
  }

  // ----- both do happen without the assumption

  ghost predicate Reachable(cfg: Config, s: State) {
    exists trace, steps :: IsTrace(cfg, trace, steps) && trace[|steps|] == s
  }

  ghost predicate TimelyReachable(cfg: Config, s: State) {
    exists trace, steps :: IsTimelyTrace(cfg, trace, steps) && trace[|steps|] == s
  }

  lemma Reach(cfg: Config, s: State, step: Step)
    requires Reachable(cfg, s) && Enabled(s, step)
    ensures Reachable(cfg, Apply(cfg, s, step))
  {
    var trace, steps :| IsTrace(cfg, trace, steps) && trace[|steps|] == s;
    var trace', steps' := trace + [Apply(cfg, s, step)], steps + [step];
    assert IsTrace(cfg, trace', steps') && trace'[|steps'|] == Apply(cfg, s, step);
  }

  lemma ReachTimely(cfg: Config, s: State, step: Step)
    requires TimelyReachable(cfg, s) && Enabled(s, step) && InLease(s, step)
    ensures TimelyReachable(cfg, Apply(cfg, s, step))
  {
    var trace, steps :| IsTimelyTrace(cfg, trace, steps) && trace[|steps|] == s;
    var trace', steps' := trace + [Apply(cfg, s, step)], steps + [step];
    assert IsTimelyTrace(cfg, trace', steps') && trace'[|steps'|] == Apply(cfg, s, step);
  }

  lemma TimelyIsReachable(cfg: Config, s: State)
    requires TimelyReachable(cfg, s)
    ensures Reachable(cfg, s)
  {
  }

  const B: Booking := Booking(0, "Dryer", "85281", 0, HOUR, 100.0, None)
  const FIRST: WorkerId := WorkerId(0, 0)
  const SECOND: WorkerId := WorkerId(1, 0)

  function Cfg(): Config { Config(2, "https://hook") }

  function Rows(run: Run): Tables {
    Tables(map[0 := Appliance("Dryer", 1.0, false)], map[0 := run], map[], 1, 1, 0)
  }

  /** Two goroutines hold run 0: the first stalled for exactly one lease, the second took over. */
  function TakenOver(): State {
    State(CLAIM_LEASE, Rows(Run(B, Fired, Some(CLAIM_LEASE), 2, None, None)),
          map[FIRST := Worker(0, Claimed, 1, "https://hook"), SECOND := Worker(CLAIM_LEASE, Claimed, 2, "https://hook")],
          2, map[0 := History([ClaimRecord(0, false), ClaimRecord(CLAIM_LEASE, true)], [], [], [], [], [])])
  }

  function Empty(): State {
    State(0, Tables(map[0 := Appliance("Dryer", 1.0, false)], map[], map[], 1, 0, 0), map[], 0, map[])
  }

  function Booked(): State {
    State(0, Rows(NewRun(B)), map[], 0, map[0 := NO_HISTORY])
  }

  /** Run 0 claimed at time 0 by the first goroutine, at a later clock. */
  function ClaimedOnce(clock: int): State {
    State(clock, Rows(Run(B, Fired, Some(0), 1, None, None)),
          map[FIRST := Worker(0, Claimed, 1, "https://hook")], 1, map[0 := History([ClaimRecord(0, false)], [], [], [], [], [])])
  }

  /** A pass at the current clock picks up the only run when it is due. */
  lemma DispatchOnly(s: State)
    requires s.tables.runs.Keys == {0} && Due(s.tables, 0, s.clock)
    ensures Enabled(s, Dispatch(s.clock, [0]))
    ensures AfterDispatch(s, s.clock, [0]) ==
              s.(passes := s.passes + 1, workers := s.workers[WorkerId(s.passes, 0) := Worker(s.clock, Found, 1, "")])
  {
    assert AfterDispatch(s, s.clock, [0]).workers == s.workers[WorkerId(s.passes, 0) := Worker(s.clock, Found, 1, "")];
  }

  lemma BookedIsReachable()
    ensures TimelyReachable(Cfg(), Booked())
  {
    var none: seq<Step> := [];
    assert IsTimelyTrace(Cfg(), [Empty()], none) && [Empty()][|none|] == Empty();
    ReachTimely(Cfg(), Empty(), Create(B));
  }

  /** The two states in which a pass has just found the run. */
  function FoundOnce(): State {
    Booked().(passes := 1, workers := map[FIRST := Worker(0, Found, 1, "")])
  }

  function FoundAgain(): State {
    var s := ClaimedOnce(CLAIM_LEASE);
    s.(passes := 2, workers := s.workers[SECOND := Worker(CLAIM_LEASE, Found, 1, "")])
  }

  lemma ClaimOnce()
    ensures AfterClaim(Cfg(), FoundOnce(), FIRST) == ClaimedOnce(0)
  {
    assert AfterClaim(Cfg(), FoundOnce(), FIRST).history[0].claims == [ClaimRecord(0, false)];
  }

  lemma ClaimAgain()
    ensures AfterClaim(Cfg(), FoundAgain(), SECOND) == TakenOver()
  {
    assert AfterClaim(Cfg(), FoundAgain(), SECOND).history[0].claims == [ClaimRecord(0, false), ClaimRecord(CLAIM_LEASE, true)];
  }

  lemma ClaimedIsReachable()
    ensures TimelyReachable(Cfg(), ClaimedOnce(0))
  {
    BookedIsReachable();
    DispatchOnly(Booked());
    ReachTimely(Cfg(), Booked(), Dispatch(0, [0]));
    assert AfterDispatch(Booked(), 0, [0]) == FoundOnce();
    ReachTimely(Cfg(), FoundOnce(), Claim(FIRST));
    ClaimOnce();
  }

  /** The takeover itself meets the assumption; only what the stalled goroutine does next breaks it. */
  lemma TakenOverIsReachable()
    ensures TimelyReachable(Cfg(), TakenOver()) && Reachable(Cfg(), TakenOver())
  {
    ClaimedIsReachable();
    ReachTimely(Cfg(), ClaimedOnce(0), Advance(CLAIM_LEASE));
    DispatchOnly(ClaimedOnce(CLAIM_LEASE));
    ReachTimely(Cfg(), ClaimedOnce(CLAIM_LEASE), Dispatch(CLAIM_LEASE, [0]));
    assert AfterDispatch(ClaimedOnce(CLAIM_LEASE), CLAIM_LEASE, [0]) == FoundAgain();
    ReachTimely(Cfg(), FoundAgain(), Claim(SECOND));
    ClaimAgain();
    TimelyIsReachable(Cfg(), TakenOver());
  }

  /** The second claimer is about to fail the run, the first has not sent yet. */
  lemma BothHeld() returns (s: State)
    ensures Reachable(Cfg(), s) && At(s, SECOND, Failing) && s.tables == TakenOver().tables
    ensures At(s, FIRST, Claimed) && s.workers[FIRST].attempt == 1 && s.workers[FIRST].url != ""
  {
    TakenOverIsReachable();
    s := TakenOver();
    Reach(Cfg(), s, SendFail(SECOND, false));
    s := Apply(Cfg(), s, SendFail(SECOND, false));
  }

  /** The stalled claimer hands the run back while the other is about to fail it. */
  lemma HandedBack() returns (s: State)
    ensures Reachable(Cfg(), s) && At(s, SECOND, Failing) && HasStatus(s, 0, Pending)
  {
    s := BothHeld();
    Reach(Cfg(), s, SendFail(FIRST, false));
    s := Apply(Cfg(), s, SendFail(FIRST, false));
    assert At(s, SECOND, Failing) && s.workers[FIRST].pc.Retrying?;
    Reach(Cfg(), s, WriteRetry(FIRST, ""));
    s := Apply(Cfg(), s, WriteRetry(FIRST, ""));
  }

  /**
   Without the assumption a cancelled run can end up failed: the stalled claimer hands the run
   back, the user cancels it, and the claimer that took over then writes its failure.
   */
  lemma CancelledRunCanFail() returns (s: State, step: Step)
    ensures Reachable(Cfg(), s) && Enabled(s, step)
    ensures HasStatus(s, 0, Cancelled) && HasStatus(Apply(Cfg(), s, step), 0, Failed)
  {
    var back := HandedBack();
    Reach(Cfg(), back, Cancel(0));
    s, step := Apply(Cfg(), back, Cancel(0)), WriteFailed(SECOND, "");
  }

  /** The stalled claimer delivers late, while the other still holds the run. */
  lemma LateDelivery() returns (s: State)
    ensures Reachable(Cfg(), s) && At(s, SECOND, Claimed) && s.workers[SECOND].url != "" && 0 in s.tables.runs
    ensures s.tables.notices == map[0 := Notice(0, true)] && s.tables.nextNotice == 1
  {
    TakenOverIsReachable();
    s := TakenOver();
    Reach(Cfg(), s, SendOk(FIRST));
    s := Apply(Cfg(), s, SendOk(FIRST));
    assert At(s, FIRST, Notifying(true)) && At(s, SECOND, Claimed) && s.tables == TakenOver().tables;
    Reach(Cfg(), s, WriteNotice(FIRST));
    s := Apply(Cfg(), s, WriteNotice(FIRST));
  }

  /** Without the assumption a run can be notified twice: both claimers deliver. */
  lemma RunCanBeNotifiedTwice() returns (s: State)
    ensures Reachable(Cfg(), s) && !OneNoticeEach(s.tables.notices)
  {
    var late := LateDelivery();
    Reach(Cfg(), late, SendOk(SECOND));
    s := Apply(Cfg(), late, SendOk(SECOND));
    Reach(Cfg(), s, WriteNotice(SECOND));
    s := Apply(Cfg(), s, WriteNotice(SECOND));
    assert 0 in s.tables.notices && 1 in s.tables.notices && s.tables.notices[0].run == s.tables.notices[1].run;
  }

  // ----- and one thing goes wrong even in time

  lemma AboutToFail() returns (s: State)
    ensures TimelyReachable(Cfg(), s) && At(s, SECOND, Failing) && s.workers[SECOND].tick == s.clock == CLAIM_LEASE
    ensures s.tables == TakenOver().tables && s.workers.Keys == {FIRST, SECOND} && s.workers[FIRST].tick == 0
  {
    TakenOverIsReachable();
    ReachTimely(Cfg(), TakenOver(), SendFail(SECOND, false));
    s := Apply(Cfg(), TakenOver(), SendFail(SECOND, false));
  }

  /** A goroutine that dies between the failure write and the notification leaves such a run behind. */
  lemma FailureCanBeSilent() returns (s: State)
    ensures TimelyReachable(Cfg(), s) && Silent(s, 0)
  {
    s := AboutToFail();
    ReachTimely(Cfg(), s, WriteFailed(SECOND, ""));
    s := Apply(Cfg(), s, WriteFailed(SECOND, ""));
    ReachTimely(Cfg(), s, Crash(SECOND));
    s := Apply(Cfg(), s, Crash(SECOND));
  }

  /** Run 0 delivered once by a goroutine that is now at pc. */
  function DeliveredOnce(clock: int, pc: Pc): State {
    State(clock, Rows(Run(B, Fired, Some(0), 1, None, None)),
          map[FIRST := Worker(0, pc, 1, "https://hook")], 1, map[0 := History([ClaimRecord(0, false)], [], [1], [1], [1], [])])
  }

  /** Its notification was lost, and it is found again when the lease is over. */
  function FoundAfterLoss(): State {
    var s := DeliveredOnce(CLAIM_LEASE, Done);
    s.(passes := 2, workers := s.workers[SECOND := Worker(CLAIM_LEASE, Found, 1, "")])
  }

  lemma DeliveryIsReachable()
    ensures TimelyReachable(Cfg(), DeliveredOnce(0, Notifying(true)))
  {
    ClaimedIsReachable();
    ReachTimely(Cfg(), ClaimedOnce(0), SendOk(FIRST));
    var sent := Apply(Cfg(), ClaimedOnce(0), SendOk(FIRST));
    assert [] + [1] == [1];
    assert sent.history[0] == History([ClaimRecord(0, false)], [], [1], [1], [1], []);
    assert sent == DeliveredOnce(0, Notifying(true));
  }

  lemma LossIsReachable()
    ensures TimelyReachable(Cfg(), FoundAfterLoss())
  {
    DeliveryIsReachable();
    ReachTimely(Cfg(), DeliveredOnce(0, Notifying(true)), LoseNotice(FIRST));
    assert Apply(Cfg(), DeliveredOnce(0, Notifying(true)), LoseNotice(FIRST)) == DeliveredOnce(0, Done);
    ReachTimely(Cfg(), DeliveredOnce(0, Done), Advance(CLAIM_LEASE));
    DispatchOnly(DeliveredOnce(CLAIM_LEASE, Done));
    ReachTimely(Cfg(), DeliveredOnce(CLAIM_LEASE, Done), Dispatch(CLAIM_LEASE, [0]));
  }

  /** A second goroutine has claimed the run at its tick, after a first attempt with the history h. */
  function ClaimedTwice(tick: int, first: Worker, run: Run, h: History): State {
    State(tick, Rows(ClaimedRow(run, tick)), map[FIRST := first, SECOND := Worker(tick, Claimed, 2, "https://hook")],
          2, map[0 := h])
  }

  /** The claim of the second goroutine, when it finds the run due. */
  lemma ClaimSecond(clock: int, first: Worker, run: Run, h: History)
    requires run.booking == B && run.attempts == 1 && DueRow(run, false, clock)
    ensures var s := State(clock, Rows(run), map[FIRST := first, SECOND := Worker(clock, Found, 1, "")], 2, map[0 := h]);
            && Enabled(s, Claim(SECOND)) && InLease(s, Claim(SECOND))
            && Apply(Cfg(), s, Claim(SECOND))
               == ClaimedTwice(clock, first, run, h.(claims := h.claims + [ClaimRecord(clock, run.status == Fired)]))
  {
  }

  /** And its delivery. */
  lemma SendSecond(tick: int, first: Worker, run: Run, h: History)
    ensures var s := ClaimedTwice(tick, first, run, h);
            && Enabled(s, SendOk(SECOND)) && InLease(s, SendOk(SECOND))
            && 0 in Apply(Cfg(), s, SendOk(SECOND)).history
            && Apply(Cfg(), s, SendOk(SECOND)).history[0].deliveries == h.deliveries + [2]
            && Apply(Cfg(), s, SendOk(SECOND)).history[0].arrivals == h.arrivals + [2]
            && Apply(Cfg(), s, SendOk(SECOND)).tables == s.tables
  {
  }

  /** Even in time a run can be delivered twice: the notification of a delivery is lost, so it is claimed again. */
  lemma RunCanBeDeliveredTwice() returns (s: State)
    ensures TimelyReachable(Cfg(), s) && 0 in s.history && s.history[0].deliveries == [1, 2] && s.tables.notices == map[]
  {
    LossIsReachable();
    var first, run := Worker(0, Done, 1, "https://hook"), Run(B, Fired, Some(0), 1, None, None);
    var h := History([ClaimRecord(0, false)], [], [1], [1], [1], []);
    ClaimSecond(CLAIM_LEASE, first, run, h);
    ReachTimely(Cfg(), FoundAfterLoss(), Claim(SECOND));
    var h2 := h.(claims := h.claims + [ClaimRecord(CLAIM_LEASE, true)]);
    SendSecond(CLAIM_LEASE, first, run, h2);
    s := ClaimedTwice(CLAIM_LEASE, first, run, h2);
    ReachTimely(Cfg(), s, SendOk(SECOND));
    s := Apply(Cfg(), s, SendOk(SECOND));
  }

  // ----- a failed send may have arrived

  /** Run 0 sent once without an answer although the request arrived, and handed back for a minute later. */
  function HandedBackAfterTimeout(clock: int): State {
    State(clock, Rows(Run(B, Pending, Some(0), 1, Some("timeout"), Some(MINUTE))),
          map[FIRST := Worker(0, Done, 1, "https://hook")], 1, map[0 := History([ClaimRecord(0, false)], [1], [1], [1], [], [])])
  }

  function TimedOut(): State {
    ClaimedOnce(0).(workers := map[FIRST := Worker(0, Retrying(MINUTE), 1, "https://hook")],
                    history := map[0 := History([ClaimRecord(0, false)], [], [1], [1], [], [])])
  }

  lemma TimeoutIsReachable()
    ensures TimelyReachable(Cfg(), TimedOut())
  {
    ClaimedIsReachable();
    ReachTimely(Cfg(), ClaimedOnce(0), SendFail(FIRST, true));
    var sent := Apply(Cfg(), ClaimedOnce(0), SendFail(FIRST, true));
    assert RetryDelay(1) == MINUTE;
    assert [] + [1] == [1];
    assert sent.history[0] == History([ClaimRecord(0, false)], [], [1], [1], [], []);
    assert sent == TimedOut();
  }

  lemma HandBackIsReachable()
    ensures TimelyReachable(Cfg(), HandedBackAfterTimeout(MINUTE))
  {
    TimeoutIsReachable();
    ReachTimely(Cfg(), TimedOut(), WriteRetry(FIRST, "timeout"));
    var back := Apply(Cfg(), TimedOut(), WriteRetry(FIRST, "timeout"));
    assert [] + [1] == [1];
    assert back.history[0] == History([ClaimRecord(0, false)], [1], [1], [1], [], []);
    assert back == HandedBackAfterTimeout(0);
    ReachTimely(Cfg(), HandedBackAfterTimeout(0), Advance(MINUTE));
  }

  function FoundForRetry(): State {
    var s := HandedBackAfterTimeout(MINUTE);
    s.(passes := 2, workers := s.workers[SECOND := Worker(MINUTE, Found, 1, "")])
  }

  lemma RetryIsReachable()
    ensures TimelyReachable(Cfg(), FoundForRetry())
  {
    HandBackIsReachable();
    DispatchOnly(HandedBackAfterTimeout(MINUTE));
    ReachTimely(Cfg(), HandedBackAfterTimeout(MINUTE), Dispatch(MINUTE, [0]));
  }

  /** With every write done and every lease kept a request can arrive twice: its answer was lost, so it is retried. */
  lemma RunCanArriveTwice() returns (s: State)
    ensures TimelyReachable(Cfg(), s) && 0 in s.history && s.history[0].arrivals == [1, 2] && s.history[0].deliveries == [2]
  {
    RetryIsReachable();
    var first, run := Worker(0, Done, 1, "https://hook"), Run(B, Pending, Some(0), 1, Some("timeout"), Some(MINUTE));
    var h := History([ClaimRecord(0, false)], [1], [1], [1], [], []);
    ClaimSecond(MINUTE, first, run, h);
    ReachTimely(Cfg(), FoundForRetry(), Claim(SECOND));
    var h2 := h.(claims := h.claims + [ClaimRecord(MINUTE, false)]);
    SendSecond(MINUTE, first, run, h2);
    s := ClaimedTwice(MINUTE, first, run, h2);
    ReachTimely(Cfg(), s, SendOk(SECOND));
    s := Apply(Cfg(), s, SendOk(SECOND));
  }
}
