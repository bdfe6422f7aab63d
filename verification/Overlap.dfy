/**
 Bounded overtaking when passes overlap, as the ticker lets them: within the timing assumption, a due run is left
 out at most as often as its rivals have deliveries left, but for the goroutines that found their run taken.
 */
module Overlap {
  import opened RunTable
  import opened Backoff
  import opened Pigeonhole
  import opened Protocol
  import opened Ledger
  import opened Budget
  import opened Lease
  import opened ExactlyOnce
  import opened Abandonment
  import opened Delivery
  import opened Fairness

  // ----- the deliveries a run can still be given, less the one a live goroutine is on its way with

  ghost function LiveShare(cfg: Config, s: State, q: int): (n: int)
    ensures n >= 0
  {
    if q !in s.tables.runs || Finished(s.tables, q) then 0
    else if Attended(s, q) then Max(0, cfg.maxAttempts - s.tables.runs[q].attempts)
    else Weight(cfg, s.tables.runs[q])
  }

  predicate Takes(s: State, step: Step, q: int) {
    step.Claim? && step.k.run == q && step.k in s.workers && Due(s.tables, q, s.workers[step.k].tick)
  }

  /** The live goroutine of q is lost: it dies, its notification is lost, or its lease ends. */
  ghost predicate LosesHolder(s: State, step: Step, q: int) {
    exists k :: LosesReport(s, step, q, k)
  }

  lemma FinishedStays(cfg: Config, s: State, step: Step, q: int)
    requires Untimed(cfg, s) && Timely(s) && Enabled(s, step) && InLease(s, step)
    requires Finished(s.tables, q) && q in Apply(cfg, s, step).tables.runs
    ensures Finished(Apply(cfg, s, step).tables, q)
  {
    if s.tables.runs[q].status == Failed {
      FailedStaysStep(cfg, s, step, q);
    } else {
      FinalFrozenStep(cfg, s, step, q);
    }
  }

  lemma TakingShare(cfg: Config, s: State, step: Step, q: int)
    requires Untimed(cfg, s) && Timely(s) && Enabled(s, step) && InLease(s, step) && Takes(s, step, q)
    ensures LiveShare(cfg, Apply(cfg, s, step), q) + 1 <= LiveShare(cfg, s, q)
  {
    assert WorkerOk(cfg, s, step.k);
    assert RowTimely(s.tables.runs[q], Notified(s.tables.notices, q));
    forall k: WorkerId | k.run == q ensures !Live(s, k) {
      DueMeansNoLive(cfg, s, q, s.workers[step.k].tick, k);
    }
    assert Live(Apply(cfg, s, step), step.k);
  }

  /** Only a claim counts an attempt. */
  lemma AttemptsStay(cfg: Config, s: State, step: Step, q: int)
    requires Enabled(s, step) && q in s.tables.runs && q in Apply(cfg, s, step).tables.runs && !Takes(s, step, q)
    ensures Apply(cfg, s, step).tables.runs[q].attempts == s.tables.runs[q].attempts || q == s.tables.nextRun
  {
  }

  lemma OnlyRetriesHandBack(cfg: Config, s: State, step: Step, q: int)
    requires Enabled(s, step) && q < s.tables.nextRun
    requires q in s.tables.runs && s.tables.runs[q].status == Fired && q in Apply(cfg, s, step).tables.runs
    requires Apply(cfg, s, step).tables.runs[q].status == Pending
    ensures step.WriteRetry? && step.k.run == q
  {
  }

  /** A run leaves `fired` unfinished only by the retry write of a live goroutine with attempts left. */
  lemma HandedBackWithAttemptsLeft(cfg: Config, s: State, step: Step, q: int)
    requires WorkersOk(cfg, s) && LiveTimely(s) && Enabled(s, step) && InLease(s, step) && q < s.tables.nextRun
    requires q in s.tables.runs && s.tables.runs[q].status == Fired && q in Apply(cfg, s, step).tables.runs
    requires Apply(cfg, s, step).tables.runs[q].status == Pending
    ensures s.tables.runs[q].attempts < cfg.maxAttempts
  {
    OnlyRetriesHandBack(cfg, s, step, q);
    assert LiveOk(s, step.k) && WorkerOk(cfg, s, step.k);
  }

  /** A live goroutine that lets go of its run is lost, or was about to hand it back. */
  lemma LettingGoLoses(cfg: Config, s: State, step: Step, q: int, k: WorkerId)
    requires WorkersOk(cfg, s) && LiveTimely(s) && Enabled(s, step) && q in s.tables.runs
    requires k.run == q && Live(s, k) && LetsGo(s, step, k)
    ensures LosesHolder(s, step, q) || s.tables.runs[q].attempts < cfg.maxAttempts
  {
    assert LiveOk(s, k) && WorkerOk(cfg, s, k);
    if step != LoseRetry(k) {
      assert LosesReport(s, step, q, k);
    }
  }

  lemma AttendedShare(cfg: Config, s: State, step: Step, q: int)
    requires Untimed(cfg, s) && Timely(s) && Enabled(s, step) && InLease(s, step)
    requires q in s.tables.runs && !Finished(s.tables, q) && Attended(s, q)
    requires q in Apply(cfg, s, step).tables.runs && !Finished(Apply(cfg, s, step).tables, q)
    ensures Attended(Apply(cfg, s, step), q) || LosesHolder(s, step, q) || s.tables.runs[q].attempts < cfg.maxAttempts
  {
    AttendedIsFired(s, q);
    if Apply(cfg, s, step).tables.runs[q].status == Pending {
      HandedBackWithAttemptsLeft(cfg, s, step, q);
    } else if !Attended(Apply(cfg, s, step), q) {
      var j := WhoLetGo(cfg, s, step, q);
      LettingGoLoses(cfg, s, step, q, j);
    }
  }

  lemma AttendedIsFired(s: State, q: int)
    requires LiveTimely(s) && q in s.tables.runs && !Finished(s.tables, q) && Attended(s, q)
    ensures s.tables.runs[q].status == Fired
  {
    var k: WorkerId :| k.run == q && Live(s, k);
    assert LiveOk(s, k);
  }

  /** A claim takes a delivery from its run; nothing adds any, but one for a lost goroutine. */
  lemma StepLiveShare(cfg: Config, s: State, step: Step, q: int)
    requires Untimed(cfg, s) && Timely(s) && Enabled(s, step) && InLease(s, step) && q in s.tables.runs
    ensures LiveShare(cfg, Apply(cfg, s, step), q)
            <= LiveShare(cfg, s, q) + (if LosesHolder(s, step, q) then 1 else 0) - (if Takes(s, step, q) then 1 else 0)
  {
    if Takes(s, step, q) {
      TakingShare(cfg, s, step, q);
    } else if q in Apply(cfg, s, step).tables.runs && !Finished(Apply(cfg, s, step).tables, q) {
      if Finished(s.tables, q) {
        FinishedStays(cfg, s, step, q);
      }
      OpenShare(cfg, s, step, q);
    }
  }

  /** A run that stays open, and is not claimed by the step. */
  lemma OpenShare(cfg: Config, s: State, step: Step, q: int)
    requires Untimed(cfg, s) && Timely(s) && Enabled(s, step) && InLease(s, step) && !Takes(s, step, q)
    requires q in s.tables.runs && !Finished(s.tables, q)
    requires q in Apply(cfg, s, step).tables.runs && !Finished(Apply(cfg, s, step).tables, q)
    ensures LiveShare(cfg, Apply(cfg, s, step), q) <= LiveShare(cfg, s, q) + if LosesHolder(s, step, q) then 1 else 0
  {
    AttemptsStay(cfg, s, step, q);
    if Attended(s, q) {
      AttendedShare(cfg, s, step, q);
    }
    ShareOfOpen(cfg, s, Apply(cfg, s, step), q, LosesHolder(s, step, q));
  }

  lemma ShareOfOpen(cfg: Config, s: State, s': State, q: int, loses: bool)
    requires q in s.tables.runs && !Finished(s.tables, q) && q in s'.tables.runs && !Finished(s'.tables, q)
    requires s'.tables.runs[q].attempts == s.tables.runs[q].attempts
    requires !Attended(s, q) || Attended(s', q) || loses || s.tables.runs[q].attempts < cfg.maxAttempts
    ensures LiveShare(cfg, s', q) <= LiveShare(cfg, s, q) + if loses then 1 else 0
  {
  }

  // ----- summed over r itself, or over its rivals

  /** With `own`, the run r; without, its rivals. */
  predicate Relevant(t: Tables, r: int, start: int, own: bool, q: int) {
    if own then q == r && q in t.runs else IsRival(t, r, start, q)
  }

  ghost function RelevantShare(cfg: Config, s: State, r: int, start: int, own: bool, q: int): int {
    if Relevant(s.tables, r, start, own, q) then LiveShare(cfg, s, q) else 0
  }

  /** All deliveries they can still be given. */
  ghost function Open(cfg: Config, s: State, r: int, start: int, own: bool): int {
    Sum(q => RelevantShare(cfg, s, r, start, own, q), s.tables.nextRun)
  }

  /** Those of them that lose their goroutine by the step; the end of a lease may cost several. */
  ghost function Losers(s: State, step: Step, r: int, start: int, own: bool): set<int> {
    set q | 0 <= q < s.tables.nextRun && Relevant(s.tables, r, start, own, q) && LosesHolder(s, step, q)
  }

  /** The step claims one of them. */
  predicate TakesRelevant(s: State, step: Step, r: int, start: int, own: bool) {
    step.Claim? && Takes(s, step, step.k.run) && Relevant(s.tables, r, start, own, step.k.run)
  }

  /** What bookings bring: nothing to r itself. */
  function Brought(cfg: Config, s: State, step: Step, start: int, own: bool): int {
    if own then 0 else Booked(cfg, s, step, start)
  }

  lemma RelevantStep(cfg: Config, s: State, step: Step, r: int, start: int, own: bool, q: int)
    requires Untimed(cfg, s) && Timely(s) && Enabled(s, step) && InLease(s, step) && 0 <= q < s.tables.nextRun
    ensures RelevantShare(cfg, Apply(cfg, s, step), r, start, own, q)
            <= RelevantShare(cfg, s, r, start, own, q)
               + (if q in Losers(s, step, r, start, own) then 1 else 0)
               - (if TakesRelevant(s, step, r, start, own) && step.k.run == q then 1 else 0)
  {
    BookingKept(cfg, s, step, q);
    if q in s.tables.runs {
      StepLiveShare(cfg, s, step, q);
    }
  }

  lemma BookingKept(cfg: Config, s: State, step: Step, q: int)
    requires Enabled(s, step)
    ensures s.tables.nextRun <= Apply(cfg, s, step).tables.nextRun
    ensures q in Apply(cfg, s, step).tables.runs && q < s.tables.nextRun ==>
              q in s.tables.runs && Apply(cfg, s, step).tables.runs[q].booking == s.tables.runs[q].booking
  {
  }

  lemma StepOpen(cfg: Config, s: State, step: Step, r: int, start: int, own: bool)
    requires Untimed(cfg, s) && Timely(s) && Enabled(s, step) && InLease(s, step) && r < s.tables.nextRun
    ensures Open(cfg, Apply(cfg, s, step), r, start, own) + (if TakesRelevant(s, step, r, start, own) then 1 else 0)
            <= Open(cfg, s, r, start, own) + |Losers(s, step, r, start, own)| + Brought(cfg, s, step, start, own)
  {
    var s', n := Apply(cfg, s, step), s.tables.nextRun;
    var down: set<int> := if TakesRelevant(s, step, r, start, own) then {step.k.run} else {};
    var up := Losers(s, step, r, start, own);
    forall q | 0 <= q < n ensures RelevantShare(cfg, s', r, start, own, q)
                                  <= RelevantShare(cfg, s, r, start, own, q) + (if q in up then 1 else 0) - (if q in down then 1 else 0)
    {
      RelevantStep(cfg, s, step, r, start, own, q);
    }
    SumChanges(q => RelevantShare(cfg, s, r, start, own, q), q => RelevantShare(cfg, s', r, start, own, q), n, down, up);
    NewShares(cfg, s, step, r, start, own);
  }

  lemma NewShares(cfg: Config, s: State, step: Step, r: int, start: int, own: bool)
    requires Relational(s.tables) && Enabled(s, step) && r < s.tables.nextRun
    ensures Open(cfg, Apply(cfg, s, step), r, start, own)
            <= Sum(q => RelevantShare(cfg, Apply(cfg, s, step), r, start, own, q), s.tables.nextRun)
               + Brought(cfg, s, step, start, own)
  {
    var s', n := Apply(cfg, s, step), s.tables.nextRun;
    NewLiveShare(cfg, s, step, n);
    if s'.tables.nextRun == n + 1 {
      var f := q => RelevantShare(cfg, s', r, start, own, q);
      assert Sum(f, n + 1) == Sum(f, n) + f(n);
    }
  }

  lemma NewLiveShare(cfg: Config, s: State, step: Step, n: int)
    requires Relational(s.tables) && Enabled(s, step) && n == s.tables.nextRun
    ensures var s' := Apply(cfg, s, step);
            && (s'.tables.nextRun == n || (s'.tables.nextRun == n + 1 && step.Create? && step.booking.appliance in s.tables.appliances))
            && (s'.tables.nextRun == n + 1 ==> n in s'.tables.runs && s'.tables.runs[n].booking == step.booking
                                               && LiveShare(cfg, s', n) <= cfg.maxAttempts)
  {
  }

  // ----- the goroutines that passes send out

  /** The pass finds r due and has it in its batch, or leaves it out. */
  ghost predicate Picks(s: State, step: Step, r: int, own: bool) {
    step.Dispatch? && Due(s.tables, r, step.now) && (own <==> r in step.batch)
  }

  /** Its goroutine on r, or all of its goroutines. */
  ghost function Sent(s: State, step: Step, r: int, own: bool): set<WorkerId> {
    if !Picks(s, step, r, own) then {}
    else if own then {WorkerId(s.passes, r)}
    else set q | q in step.batch :: WorkerId(s.passes, q)
  }

  function PerPass(own: bool): int {
    if own then 1 else BATCH_LIMIT
  }

  lemma {:induction false} DistinctGoroutines(pass: int, batch: seq<int>)
    requires Distinct(batch)
    ensures |set q | q in batch :: WorkerId(pass, q)| == |batch|
  {
    if batch != [] {
      var rest := batch[1..];
      DistinctGoroutines(pass, rest);
      assert batch == [batch[0]] + rest;
      assert (set q | q in batch :: WorkerId(pass, q)) == (set q | q in rest :: WorkerId(pass, q)) + {WorkerId(pass, batch[0])};
    }
  }

  lemma SentByPass(s: State, step: Step, r: int, own: bool)
    requires Enabled(s, step)
    ensures |Sent(s, step, r, own)| == if Picks(s, step, r, own) then PerPass(own) else 0
  {
    if Picks(s, step, r, own) && !own {
      DistinctGoroutines(s.passes, step.batch);
    }
  }

  /** Those sent out in the first n steps. */
  ghost function AllSent(states: seq<State>, steps: seq<Step>, r: int, own: bool, n: nat): set<WorkerId>
    requires n <= |steps| < |states|
  {
    if n == 0 then {} else AllSent(states, steps, r, own, n - 1) + Sent(states[n - 1], steps[n - 1], r, own)
  }

  /** Those of `sent` that have not come to their claim. */
  ghost function Waiting(s: State, sent: set<WorkerId>): set<WorkerId> {
    set k | k in sent && At(s, k, Found)
  }

  predicate ClaimsFor(s: State, step: Step, sent: set<WorkerId>) {
    step.Claim? && step.k in sent && Takes(s, step, step.k.run)
  }

  /** One of them goes without a claim: it finds its run taken or gone, its claim errs, or it dies. */
  predicate Misses(s: State, step: Step, sent: set<WorkerId>) {
    && (step.Claim? || step.ClaimError? || step.Crash?)
    && step.k in sent && At(s, step.k, Found) && !ClaimsFor(s, step, sent)
  }

  /** They are goroutines of earlier passes, on relevant runs. */
  ghost predicate SentOk(s: State, sent: set<WorkerId>, r: int, start: int, own: bool) {
    forall k :: k in sent ==>
      && k.pass < s.passes && k.run < s.tables.nextRun
      && (k.run in s.tables.runs ==> Relevant(s.tables, r, start, own, k.run))
  }

  lemma SentStep(cfg: Config, s: State, step: Step, sent: set<WorkerId>, r: int, start: int, own: bool)
    requires Relational(s.tables) && Enabled(s, step) && SentOk(s, sent, r, start, own) && Starts(s, r, start)
    ensures SentOk(Apply(cfg, s, step), sent + Sent(s, step, r, own), r, start, own)
    ensures sent !! Sent(s, step, r, own)
  {
    var s' := Apply(cfg, s, step);
    PassesGrow(cfg, s, step);
    forall k | k in sent + Sent(s, step, r, own)
      ensures k.pass < s'.passes && k.run < s'.tables.nextRun && (k.run in s'.tables.runs ==> Relevant(s'.tables, r, start, own, k.run))
    {
      BookingKept(cfg, s, step, k.run);
      if k !in sent {
        SentIsRelevant(s, step, r, start, own, k);
      }
    }
  }

  lemma PassesGrow(cfg: Config, s: State, step: Step)
    requires Enabled(s, step)
    ensures Apply(cfg, s, step).passes == if step.Dispatch? then s.passes + 1 else s.passes
  {
  }

  lemma SentIsRelevant(s: State, step: Step, r: int, start: int, own: bool, k: WorkerId)
    requires Relational(s.tables) && Enabled(s, step) && Starts(s, r, start) && k in Sent(s, step, r, own)
    ensures step.Dispatch? && k.pass == s.passes && k.run in s.tables.runs && k.run < s.tables.nextRun
    ensures Relevant(s.tables, r, start, own, k.run)
  {
    assert Due(s.tables, k.run, step.now);
    if !own {
      var i :| 0 <= i < |step.batch| && step.batch[i] == k.run;
      assert StartOf(s.tables, step.batch[i]) <= StartOf(s.tables, r);
    }
  }

  /** A goroutine waits until it claims, or misses. */
  lemma WaitingStep(cfg: Config, s: State, step: Step, sent: set<WorkerId>, r: int, own: bool)
    requires Enabled(s, step) && (forall k :: k in sent ==> k.pass < s.passes)
    ensures Waiting(Apply(cfg, s, step), sent + Sent(s, step, r, own))
         == if ClaimsFor(s, step, sent) || Misses(s, step, sent) then Waiting(s, sent) - {step.k}
            else Waiting(s, sent) + Sent(s, step, r, own)
  {
    var s' := Apply(cfg, s, step);
    forall k | k in sent ensures At(s', k, Found) <==> At(s, k, Found) && !((ClaimsFor(s, step, sent) || Misses(s, step, sent)) && step.k == k) {
      FoundStays(cfg, s, step, k);
    }
    forall k | k in Sent(s, step, r, own) ensures At(s', k, Found) {
      assert AfterDispatch(s, step.now, step.batch).workers[k].pc == Found;
    }
  }

  lemma FoundStays(cfg: Config, s: State, step: Step, k: WorkerId)
    requires Enabled(s, step) && k.pass < s.passes
    ensures At(Apply(cfg, s, step), k, Found)
        <==> At(s, k, Found) && !((step.Claim? || step.ClaimError? || step.Crash?) && step.k == k)
  {
  }

  /** Of the goroutines sent out, each waits, has claimed, or has missed. */
  lemma StepBalance(cfg: Config, s: State, step: Step, sent: set<WorkerId>, r: int, own: bool)
    requires Enabled(s, step) && (forall k :: k in sent ==> k.pass < s.passes)
    ensures |Waiting(Apply(cfg, s, step), sent + Sent(s, step, r, own))|
            + (if ClaimsFor(s, step, sent) then 1 else 0) + (if Misses(s, step, sent) then 1 else 0)
         == |Waiting(s, sent)| + if Picks(s, step, r, own) then PerPass(own) else 0
  {
    WaitingStep(cfg, s, step, sent, r, own);
    SentByPass(s, step, r, own);
    if ClaimsFor(s, step, sent) || Misses(s, step, sent) {
      assert step.k in Waiting(s, sent) && Sent(s, step, r, own) == {};
    } else {
      assert Waiting(s, sent) !! Sent(s, step, r, own);
    }
  }

  // ----- whole runs

  /** A run of the system from s on that meets the timing assumption. */
  ghost predicate TimelyRun(cfg: Config, s: State, steps: seq<Step>, states: seq<State>) {
    && Follows(cfg, s, steps, states)
    && forall i {:trigger steps[i]} :: 0 <= i < |steps| ==> InLease(states[i], steps[i])
  }

  /** Everything that is known of a state on the way. */
  ghost predicate OnTheWay(cfg: Config, s: State, sent: set<WorkerId>, r: int, start: int, own: bool) {
    Untimed(cfg, s) && Timely(s) && Starts(s, r, start) && SentOk(s, sent, r, start, own)
  }

  lemma {:induction false} RunOnTheWay(cfg: Config, s: State, steps: seq<Step>, states: seq<State>, r: int, start: int, own: bool, n: nat)
    requires Untimed(cfg, s) && Timely(s) && Starts(s, r, start) && TimelyRun(cfg, s, steps, states) && n <= |steps|
    ensures OnTheWay(cfg, states[n], AllSent(states, steps, r, own, n), r, start, own)
  {
    if n > 0 {
      RunOnTheWay(cfg, s, steps, states, r, start, own, n - 1);
      var t, step := states[n - 1], steps[n - 1];
      StepUntimed(cfg, t, step);
      StepTimely(cfg, t, step);
      BookingKept(cfg, t, step, r);
      SentStep(cfg, t, step, AllSent(states, steps, r, own, n - 1), r, start, own);
    }
  }

  /** How many of the first n steps are passes that find r due and serve it, or leave it out. */
  ghost function Passes(states: seq<State>, steps: seq<Step>, r: int, own: bool, n: nat): nat
    requires n <= |steps| < |states|
  {
    if n == 0 then 0 else Passes(states, steps, r, own, n - 1) + if Picks(states[n - 1], steps[n - 1], r, own) then 1 else 0
  }

  /** How many of the goroutines they sent out missed. */
  ghost function Missed(states: seq<State>, steps: seq<Step>, r: int, own: bool, n: nat): nat
    requires n <= |steps| < |states|
  {
    if n == 0 then 0
    else Missed(states, steps, r, own, n - 1)
         + if Misses(states[n - 1], steps[n - 1], AllSent(states, steps, r, own, n - 1)) then 1 else 0
  }

  /** How many goroutines the relevant runs lost while they were held. */
  ghost function Lost(states: seq<State>, steps: seq<Step>, r: int, start: int, own: bool, n: nat): nat
    requires n <= |steps| < |states|
  {
    if n == 0 then 0 else Lost(states, steps, r, start, own, n - 1) + |Losers(states[n - 1], steps[n - 1], r, start, own)|
  }

  function AllBrought(cfg: Config, states: seq<State>, steps: seq<Step>, start: int, own: bool, n: nat): int
    requires n <= |steps| < |states|
  {
    if own then 0 else AllBooked(cfg, states, steps, start, n)
  }

  /** How many goroutines they sent out. */
  ghost function SentOut(states: seq<State>, steps: seq<Step>, r: int, own: bool, n: nat): nat
    requires n <= |steps| < |states|
  {
    if n == 0 then 0 else SentOut(states, steps, r, own, n - 1) + if Picks(states[n - 1], steps[n - 1], r, own) then PerPass(own) else 0
  }

  lemma {:induction false} SentOutByPasses(states: seq<State>, steps: seq<Step>, r: int, own: bool, n: nat)
    requires n <= |steps| < |states|
    ensures SentOut(states, steps, r, own, n) == PerPass(own) * Passes(states, steps, r, own, n)
  {
    if n > 0 {
      SentOutByPasses(states, steps, r, own, n - 1);
    }
  }

  /** Open deliveries, less the goroutines still on their way to claim one. */
  ghost function Unclaimed(cfg: Config, s: State, sent: set<WorkerId>, r: int, start: int, own: bool): int {
    Open(cfg, s, r, start, own) - |Waiting(s, sent)|
  }

  /** One step of the account below. */
  lemma AccountStep(cfg: Config, s: State, step: Step, s': State, sent: set<WorkerId>, sent': set<WorkerId>, r: int, start: int, own: bool)
    requires OnTheWay(cfg, s, sent, r, start, own) && Enabled(s, step) && InLease(s, step)
    requires s' == Apply(cfg, s, step) && sent' == sent + Sent(s, step, r, own)
    ensures Unclaimed(cfg, s', sent', r, start, own) + (if Picks(s, step, r, own) then PerPass(own) else 0)
         <= Unclaimed(cfg, s, sent, r, start, own) + |Losers(s, step, r, start, own)| + Brought(cfg, s, step, start, own)
            + (if Misses(s, step, sent) then 1 else 0)
  {
    StepOpen(cfg, s, step, r, start, own);
    StepBalance(cfg, s, step, sent, r, own);
    assert ClaimsFor(s, step, sent) ==> TakesRelevant(s, step, r, start, own);
  }

  /** The account of the passes that serve r, or leave it out: what they sent out and what is open, less what it is charged to. */
  ghost function Balance(cfg: Config, states: seq<State>, steps: seq<Step>, r: int, start: int, own: bool, n: nat): int
    requires n <= |steps| < |states|
  {
    SentOut(states, steps, r, own, n) + Unclaimed(cfg, states[n], AllSent(states, steps, r, own, n), r, start, own)
      - Lost(states, steps, r, start, own, n) - AllBrought(cfg, states, steps, start, own, n) - Missed(states, steps, r, own, n)
  }

  /** Each goroutine sent out claims one of the open deliveries, or misses, or is still waiting. */
  lemma BalanceStep(cfg: Config, s: State, steps: seq<Step>, states: seq<State>, r: int, start: int, own: bool, n: nat)
    requires Untimed(cfg, s) && Timely(s) && Starts(s, r, start) && TimelyRun(cfg, s, steps, states) && 0 < n <= |steps|
    ensures Balance(cfg, states, steps, r, start, own, n) <= Balance(cfg, states, steps, r, start, own, n - 1)
  {
    RunOnTheWay(cfg, s, steps, states, r, start, own, n - 1);
    AccountStep(cfg, states[n - 1], steps[n - 1], states[n], AllSent(states, steps, r, own, n - 1),
                AllSent(states, steps, r, own, n), r, start, own);
  }

  lemma {:induction false} BalanceFalls(cfg: Config, steps: seq<Step>, states: seq<State>, r: int, start: int, own: bool, n: nat)
    requires n <= |steps| < |states|
    requires forall i :: 0 < i <= n ==> Balance(cfg, states, steps, r, start, own, i) <= Balance(cfg, states, steps, r, start, own, i - 1)
    ensures Balance(cfg, states, steps, r, start, own, n) <= Balance(cfg, states, steps, r, start, own, 0)
  {
    if n > 0 {
      BalanceFalls(cfg, steps, states, r, start, own, n - 1);
    }
  }

  lemma Account(cfg: Config, s: State, steps: seq<Step>, states: seq<State>, r: int, start: int, own: bool, n: nat)
    requires Untimed(cfg, s) && Timely(s) && Starts(s, r, start) && TimelyRun(cfg, s, steps, states) && n <= |steps|
    ensures SentOut(states, steps, r, own, n) + Unclaimed(cfg, states[n], AllSent(states, steps, r, own, n), r, start, own)
         <= Open(cfg, s, r, start, own) + Lost(states, steps, r, start, own, n) + AllBrought(cfg, states, steps, start, own, n)
            + Missed(states, steps, r, own, n)
  {
    forall i | 0 < i <= n
      ensures Balance(cfg, states, steps, r, start, own, i) <= Balance(cfg, states, steps, r, start, own, i - 1)
    {
      BalanceStep(cfg, s, steps, states, r, start, own, i);
    }
    BalanceFalls(cfg, steps, states, r, start, own, n);
    assert Waiting(states[0], AllSent(states, steps, r, own, 0)) == {};
  }

  /** What the passes that serve r, or leave it out, can be charged to. */
  ghost function Charge(cfg: Config, s: State, steps: seq<Step>, states: seq<State>, r: int, start: int, own: bool, n: nat): int
    requires n <= |steps| < |states|
  {
    Open(cfg, s, r, start, own) + Lost(states, steps, r, start, own, n) + AllBrought(cfg, states, steps, start, own, n)
      + Missed(states, steps, r, own, n) + |Waiting(states[n], AllSent(states, steps, r, own, n))|
  }

  /**
   Bounded overtaking with overlapping passes: in a timely run, fifty times the passes that leave out a due run r are
   at most the deliveries open to its rivals, now or once they are booked, plus one for each held rival whose goroutine
   is lost, and one for each goroutine of those passes that found its run taken, failed before its claim, or still waits.
   */
  lemma OverlappingOvertaking(cfg: Config, s: State, steps: seq<Step>, states: seq<State>, r: int, start: int, n: nat)
    requires Untimed(cfg, s) && Timely(s) && Starts(s, r, start) && TimelyRun(cfg, s, steps, states) && n <= |steps|
    ensures 50 * TimesLeftOut(states, steps, r, n) <= Charge(cfg, s, steps, states, r, start, false, n)
  {
    Account(cfg, s, steps, states, r, start, false, n);
    SumIsNonnegative(q => RelevantShare(cfg, states[n], r, start, false, q), states[n].tables.nextRun);
    SentOutByPasses(states, steps, r, false, n);
    SameCount(states, steps, r, n);
  }

  lemma {:induction false} SameCount(states: seq<State>, steps: seq<Step>, r: int, n: nat)
    requires n <= |steps| < |states|
    ensures Passes(states, steps, r, false, n) == TimesLeftOut(states, steps, r, n)
    ensures TimesDue(states, steps, r, n) == Passes(states, steps, r, true, n) + Passes(states, steps, r, false, n)
  {
    if n > 0 {
      SameCount(states, steps, r, n - 1);
    }
  }

  /**
   No starvation with overlapping passes: from any state of a timely run, the passes that still find r due number at
   most what r itself can be charged with, and a fiftieth of what its rivals can.
   */
  lemma OverlappingNoStarvation(cfg: Config, trace: seq<State>, before: seq<Step>, i: nat, steps: seq<Step>, states: seq<State>, r: int, n: nat)
    requires IsTimelyTrace(cfg, trace, before) && i < |trace| && r in trace[i].tables.runs
    requires TimelyRun(cfg, trace[i], steps, states) && n <= |steps|
    ensures var s, start := trace[i], trace[i].tables.runs[r].booking.start;
            TimesDue(states, steps, r, n)
              <= Charge(cfg, s, steps, states, r, start, true, n) + Charge(cfg, s, steps, states, r, start, false, n) / 50
  {
    var s, start := trace[i], trace[i].tables.runs[r].booking.start;
    TraceTimely(cfg, trace, before, i);
    assert Starts(s, r, start);
    Account(cfg, s, steps, states, r, start, true, n);
    SumIsNonnegative(q => RelevantShare(cfg, states[n], r, start, true, q), states[n].tables.nextRun);
    SentOutByPasses(states, steps, r, true, n);
    OverlappingOvertaking(cfg, s, steps, states, r, start, n);
    SameCount(states, steps, r, n);
  }
}
