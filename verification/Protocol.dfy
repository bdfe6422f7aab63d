/**
 The claim / lease / retry protocol as a step machine. Any number of instances, ticks and
 cron calls interleave; a statement, a webhook send and a clock reading are one step each.
 Given the step, the next state is determined, so a run of the system is a sequence of steps.
 */
module Protocol {
  import opened RunTable
  import opened Backoff

  /** Program counter of one `fire` goroutine. */
  datatype Pc =
    | Found                       // picked up by a pass, claim not sent yet
    | Claimed                     // the claim succeeded; nothing sent yet
    | Retrying(next: int)         // the send failed with attempts left; about to write the retry
    | Failing                     // the send failed for the last time; about to write the failure
    | Notifying(delivered: bool)  // about to insert the notification
    | Done                        // returned
    | Dead                        // the process died, or the claim ended in a database error

  /** A pass picks up a run at most once, so the two numbers name the goroutine. */
  datatype WorkerId = WorkerId(pass: int, run: int)

  /** `attempt` and `url` are what the claim returned; before it they are placeholders. */
  datatype Worker = Worker(tick: int, pc: Pc, attempt: Attempt, url: string)

  /** One successful claim: its tick time, and whether it took over an abandoned claim. */
  datatype ClaimRecord = ClaimRecord(tick: int, reclaim: bool)

  /**
   What happened to one run so far; attempt numbers for the retries written, the webhooks sent, those
   that reached the receiver, those that came back as delivered, and the notifications inserted.
   */
  datatype History = History(claims: seq<ClaimRecord>, retryWrites: seq<int>, sends: seq<int>,
                             arrivals: seq<int>, deliveries: seq<int>, announced: seq<int>)

  const NO_HISTORY: History := History([], [], [], [], [], [])

  datatype State = State(clock: int, tables: Tables, workers: map<WorkerId, Worker>, passes: int,
                         history: map<int, History>)

  /**
   A failed send may have arrived all the same, when its answer is lost or bad. A goroutine that dies waiting for the
   answer is a failed send followed by a crash.
   */
  datatype Step =
    | Advance(to: int)
    | AddAppliance(name: string, duration: real)
    | DeleteAppliance(appliance: int)
    | Create(booking: Booking)
    | Cancel(run: int)
    | Dispatch(now: int, batch: seq<int>)
    | Claim(k: WorkerId)
    | ClaimError(k: WorkerId)
    | SkipSend(k: WorkerId)
    | SendOk(k: WorkerId)
    | SendFail(k: WorkerId, arrived: bool)
    | WriteRetry(k: WorkerId, error: string)
    | LoseRetry(k: WorkerId)
    | WriteFailed(k: WorkerId, error: string)
    | LoseFailed(k: WorkerId)
    | WriteNotice(k: WorkerId)
    | LoseNotice(k: WorkerId)
    | Crash(k: WorkerId)
  {
    /** Steps a goroutine takes itself; dying is not one of them. */
    predicate ByWorker() {
      !(Advance? || AddAppliance? || DeleteAppliance? || Create? || Cancel? || Dispatch? || Crash?)
    }
  }

  predicate At(s: State, k: WorkerId, pc: Pc) {
    k in s.workers && s.workers[k].pc == pc
  }

  ghost predicate Enabled(s: State, step: Step) {
    match step
    case Advance(to) => s.clock < to
    case AddAppliance(_, _) => true
    case DeleteAppliance(_) => true
    case Create(_) => true
    case Cancel(_) => true
    case Dispatch(now, batch) => now <= s.clock && IsDueBatch(s.tables, now, BATCH_LIMIT, batch)
    case Claim(k) => At(s, k, Found)
    case ClaimError(k) => At(s, k, Found)
    case SkipSend(k) => At(s, k, Claimed) && s.workers[k].url == ""
    case SendOk(k) => At(s, k, Claimed) && s.workers[k].url != ""
    case SendFail(k, _) => At(s, k, Claimed) && s.workers[k].url != ""
    case WriteRetry(k, _) => k in s.workers && s.workers[k].pc.Retrying?
    case LoseRetry(k) => k in s.workers && s.workers[k].pc.Retrying?
    case WriteFailed(k, _) => At(s, k, Failing)
    case LoseFailed(k) => At(s, k, Failing)
    case WriteNotice(k) => k in s.workers && s.workers[k].pc.Notifying?
    case LoseNotice(k) => k in s.workers && s.workers[k].pc.Notifying?
    case Crash(k) => k in s.workers
  }

  /** "Far longer than one fire takes": a goroutine acts only while its lease runs. */
  predicate InLease(s: State, step: Step) {
    step.ByWorker() ==> step.k in s.workers && s.clock < s.workers[step.k].tick + CLAIM_LEASE
  }

  // ----- transitions

  function Goto(s: State, k: WorkerId, pc: Pc): State
    requires k in s.workers
  {
    s.(workers := s.workers[k := s.workers[k].(pc := pc)])
  }

  function HistoryOf(s: State, r: int): History {
    if r in s.history then s.history[r] else NO_HISTORY
  }

  function Record(s: State, r: int, h: History): State {
    s.(history := s.history[r := h])
  }

  function AfterCreate(s: State, b: Booking): State {
    var s1 := s.(tables := InsertRun(s.tables, b));
    if b.appliance in s.tables.appliances then Record(s1, s.tables.nextRun, NO_HISTORY) else s1
  }

  function AfterDispatch(s: State, now: int, batch: seq<int>): State {
    s.(passes := s.passes + 1,
       workers := s.workers + map r | r in batch :: WorkerId(s.passes, r) := Worker(now, Found, 1, ""))
  }

  function Max(a: int, b: int): int { if a < b then b else a }

  function AfterClaim(cfg: Config, s: State, k: WorkerId): State
    requires k in s.workers
  {
    var tick := s.workers[k].tick;
    if Due(s.tables, k.run, tick) then
      var run := s.tables.runs[k.run];
      var h := HistoryOf(s, k.run);
      var s1 := s.(tables := ClaimRun(s.tables, k.run, tick),
                   workers := s.workers[k := Worker(tick, Claimed, Max(run.attempts + 1, 1), TargetUrl(cfg, run.booking.webhook))]);
      Record(s1, k.run, h.(claims := h.claims + [ClaimRecord(tick, run.status == Fired)]))
    else Goto(s, k, Done)
  }

  function AfterSend(s: State, k: WorkerId, pc: Pc, arrived: bool): State
    requires k in s.workers
  {
    var h, attempt := HistoryOf(s, k.run), s.workers[k].attempt;
    Record(Goto(s, k, pc), k.run,
           h.(sends := h.sends + [attempt],
              arrivals := if arrived then h.arrivals + [attempt] else h.arrivals,
              deliveries := if pc == Notifying(true) then h.deliveries + [attempt] else h.deliveries))
  }

  /** Where a failed send leads: to a retry whose backoff starts now, or to the failure. */
  function FailPc(cfg: Config, clock: int, attempt: Attempt): Pc {
    if attempt < cfg.maxAttempts then Retrying(clock + RetryDelay(attempt)) else Failing
  }

  function AfterWriteRetry(s: State, k: WorkerId, error: string): State
    requires k in s.workers && s.workers[k].pc.Retrying?
  {
    var h := HistoryOf(s, k.run);
    var s1 := Goto(s.(tables := RetryRun(s.tables, k.run, error, s.workers[k].pc.next)), k, Done);
    if k.run in s.tables.runs && s.tables.runs[k.run].status == Fired
    then Record(s1, k.run, h.(retryWrites := h.retryWrites + [s.workers[k].attempt]))
    else s1
  }

  function AfterWriteNotice(s: State, k: WorkerId): State
    requires k in s.workers && s.workers[k].pc.Notifying?
  {
    var h := HistoryOf(s, k.run);
    var s1 := Goto(s.(tables := InsertNotice(s.tables, k.run, s.workers[k].pc.delivered)), k, Done);
    if k.run in s.tables.runs then Record(s1, k.run, h.(announced := h.announced + [s.workers[k].attempt])) else s1
  }

  ghost function Apply(cfg: Config, s: State, step: Step): State
    requires Enabled(s, step)
  {
    match step
    case Advance(to) => s.(clock := to)
    case AddAppliance(name, duration) => s.(tables := InsertAppliance(s.tables, name, duration))
    case DeleteAppliance(a) => s.(tables := RemoveAppliance(s.tables, a))
    case Create(b) => AfterCreate(s, b)
    case Cancel(r) => s.(tables := CancelRun(s.tables, r))
    case Dispatch(now, batch) => AfterDispatch(s, now, batch)
    case Claim(k) => AfterClaim(cfg, s, k)
    case ClaimError(k) => Goto(s, k, Dead)
    case SkipSend(k) => Goto(s, k, Notifying(false))
    case SendOk(k) => AfterSend(s, k, Notifying(true), true)
    case SendFail(k, arrived) => AfterSend(s, k, FailPc(cfg, s.clock, s.workers[k].attempt), arrived)
    case WriteRetry(k, error) => AfterWriteRetry(s, k, error)
    case LoseRetry(k) => Goto(s, k, Done)
    case WriteFailed(k, error) => Goto(s.(tables := FailRun(s.tables, k.run, error)), k, Notifying(false))
    case LoseFailed(k) => Goto(s, k, Notifying(false))
    case WriteNotice(k) => AfterWriteNotice(s, k)
    case LoseNotice(k) => Goto(s, k, Done)
    case Crash(k) => Goto(s, k, Dead)
  }

  // ----- whole runs

  /** `states` follows from s by `steps`. */
  ghost predicate Follows(cfg: Config, s: State, steps: seq<Step>, states: seq<State>) {
    && |states| == |steps| + 1 && states[0] == s
    && forall i {:trigger steps[i]} :: 0 <= i < |steps| ==> Enabled(states[i], steps[i]) && states[i + 1] == Apply(cfg, states[i], steps[i])
  }

  lemma Then(cfg: Config, s: State, steps: seq<Step>, states: seq<State>, step: Step)
    returns (steps': seq<Step>, states': seq<State>)
    requires Follows(cfg, s, steps, states) && Enabled(states[|steps|], step)
    ensures Follows(cfg, s, steps', states') && |steps'| == |steps| + 1 && steps'[..|steps|] == steps && states'[..|states|] == states
    ensures steps'[|steps|] == step && states'[|steps'|] == Apply(cfg, states[|steps|], step)
  {
    steps', states' := steps + [step], states + [Apply(cfg, states[|steps|], step)];
  }

  /** After the migrations: seeded appliances only, nothing scheduled, nobody running. */
  ghost predicate Init(s: State) {
    && s.tables.runs == map[] && s.tables.notices == map[] && s.workers == map[] && s.history == map[]
    && 0 <= s.tables.nextRun
    && (forall a :: a in s.tables.appliances ==> a < s.tables.nextAppliance)
    && NamesDistinct(s.tables.appliances)
  }

  /** `trace` lists the states of a run: each follows from the one before by the step between them. */
  ghost predicate IsTrace(cfg: Config, trace: seq<State>, steps: seq<Step>) {
    && |trace| == |steps| + 1
    && Init(trace[0])
    && forall i {:trigger steps[i]} :: 0 <= i < |steps| ==> Enabled(trace[i], steps[i]) && trace[i + 1] == Apply(cfg, trace[i], steps[i])
  }

  /** A run that also meets the timing assumption. */
  ghost predicate IsTimelyTrace(cfg: Config, trace: seq<State>, steps: seq<Step>) {
    && IsTrace(cfg, trace, steps)
    && forall i {:trigger steps[i]} :: 0 <= i < |steps| ==> InLease(trace[i], steps[i])
  }
}
