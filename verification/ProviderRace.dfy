/** RaceProviders: every provider in its own goroutine, results through a buffered channel. */
module ProviderRace {
  import opened Wrappers
  import opened Window
  import opened Pigeonhole

  type Outcome = Result<seq<Slot>, string>

  /** A goroutine: still in its provider, holding the outcome, or past its send. */
  datatype Call = Running | Holding(outcome: Outcome) | Sent(outcome: Outcome)

  datatype Message = Message(provider: nat, outcome: Outcome)

  datatype ProviderError = ProviderError(provider: nat, message: string)

  datatype Answer =
    | NoProviders
    | Winner(forecast: seq<Slot>, provider: nat)
    | AllFailed(errs: seq<ProviderError>)
    | RaceCancelled(errs: seq<ProviderError>)

  /** `cancelled` is the derived context: done when the caller's is, or once a winner is picked. */
  datatype Race = Race(calls: seq<Call>, channel: seq<Message>, errs: seq<ProviderError>, cancelled: bool, answer: Option<Answer>)

  datatype Step =
    | Produce(i: nat, outcome: Outcome)
    | Send(i: nat)
    | CancelContext
    | Receive
    | NoticeCancel
    | GiveUp

  function Start(n: nat): Race {
    Race(seq(n, i => Running), [], [], false, if n == 0 then Some(NoProviders) else None)
  }

  /** A send waits for room in the buffer of one slot per provider. */
  predicate Enabled(r: Race, step: Step) {
    match step
    case Produce(i, _) => i < |r.calls| && r.calls[i].Running?
    case Send(i) => i < |r.calls| && r.calls[i].Holding? && |r.channel| < |r.calls|
    case CancelContext => !r.cancelled
    case Receive => r.answer.None? && |r.errs| < |r.calls| && r.channel != []
    case NoticeCancel => r.answer.None? && |r.errs| < |r.calls| && r.cancelled
    case GiveUp => r.answer.None? && |r.errs| >= |r.calls|
  }

  function Apply(r: Race, step: Step): Race
    requires Enabled(r, step)
  {
    match step
    case Produce(i, outcome) => r.(calls := r.calls[i := Holding(outcome)])
    case Send(i) => r.(calls := r.calls[i := Sent(r.calls[i].outcome)], channel := r.channel + [Message(i, r.calls[i].outcome)])
    case CancelContext => r.(cancelled := true)
    case Receive =>
      var m := r.channel[0];
      if m.outcome.Ok?
      then r.(channel := r.channel[1..], cancelled := true, answer := Some(Winner(m.outcome.value, m.provider)))
      else r.(channel := r.channel[1..], errs := r.errs + [ProviderError(m.provider, m.outcome.error)])
    case NoticeCancel => r.(answer := Some(RaceCancelled(r.errs)))
    case GiveUp => r.(answer := Some(AllFailed(r.errs)), cancelled := true)
  }

  // ----- what every schedule keeps

  function ErrProviders(errs: seq<ProviderError>): seq<int> {
    seq(|errs|, i requires 0 <= i < |errs| => errs[i].provider)
  }

  function MessageProviders(channel: seq<Message>): seq<int> {
    seq(|channel|, i requires 0 <= i < |channel| => channel[i].provider)
  }

  /** The providers heard from, in order of hearing: errors received, then results still buffered. */
  function Heard(r: Race): seq<int> {
    ErrProviders(r.errs) + MessageProviders(r.channel)
  }

  ghost predicate ErrsGenuine(r: Race, errs: seq<ProviderError>) {
    forall j :: 0 <= j < |errs| ==> errs[j].provider < |r.calls| && r.calls[errs[j].provider] == Sent(Err(errs[j].message))
  }

  ghost predicate Genuine(r: Race) {
    && Distinct(Heard(r))
    && ErrsGenuine(r, r.errs)
    && (forall j :: 0 <= j < |r.channel| ==>
          r.channel[j].provider < |r.calls| && r.calls[r.channel[j].provider] == Sent(r.channel[j].outcome))
    && (forall i :: 0 <= i < |r.calls| && r.calls[i].Sent? && r.answer.None? ==> i in Heard(r))
    && (r.answer.Some? ==>
          match r.answer.value
          case NoProviders => |r.calls| == 0
          case Winner(forecast, i) => i < |r.calls| && r.calls[i] == Sent(Ok(forecast)) && i !in Heard(r)
          case AllFailed(errs) => errs == r.errs && |errs| == |r.calls|
          case RaceCancelled(errs) => errs == r.errs)
  }

  lemma HeardBounded(r: Race)
    requires Genuine(r)
    ensures |r.errs| + |r.channel| <= |r.calls|
  {
    DistinctBounded(Heard(r), 0, |r.calls|);
  }

  lemma SendGenuine(r: Race, i: nat)
    requires Genuine(r) && Enabled(r, Send(i))
    ensures Genuine(Apply(r, Send(i)))
  {
    var r' := Apply(r, Send(i));
    assert MessageProviders(r'.channel) == MessageProviders(r.channel) + [i];
    assert Heard(r') == Heard(r) + [i];
  }

  lemma FirstMessage(channel: seq<Message>)
    requires channel != []
    ensures MessageProviders(channel)[0] == channel[0].provider
    ensures MessageProviders(channel[1..]) == MessageProviders(channel)[1..]
  {
  }

  lemma HeardWithoutWinner(r: Race)
    requires Distinct(Heard(r)) && r.channel != []
    ensures var rest := ErrProviders(r.errs) + MessageProviders(r.channel[1..]);
            && Distinct(rest) && r.channel[0].provider !in rest
  {
    var e, m := ErrProviders(r.errs), MessageProviders(r.channel);
    FirstMessage(r.channel);
    DistinctWithout(e + m, |e|);
    assert (e + m)[..|e|] == e && (e + m)[|e| + 1..] == m[1..];
  }

  /** A success leaves the buffer and becomes the answer. */
  lemma ReceiveWinner(r: Race)
    requires Genuine(r) && Enabled(r, Receive) && r.channel[0].outcome.Ok?
    ensures Genuine(Apply(r, Receive))
  {
    HeardWithoutWinner(r);
    assert ErrsGenuine(Apply(r, Receive), r.errs);
  }

  /** An error moves from the buffer to the list. */
  lemma ReceiveError(r: Race)
    requires Genuine(r) && Enabled(r, Receive) && r.channel[0].outcome.Err?
    ensures Genuine(Apply(r, Receive))
  {
    var r' := Apply(r, Receive);
    FirstMessage(r.channel);
    assert ErrProviders(r'.errs) == ErrProviders(r.errs) + [r.channel[0].provider];
    assert Heard(r') == Heard(r);
  }

  lemma StepGenuine(r: Race, step: Step)
    requires Genuine(r) && Enabled(r, step)
    ensures Genuine(Apply(r, step))
  {
    match step
    case Produce(i, outcome) => assert Heard(Apply(r, step)) == Heard(r);
    case Send(i) => SendGenuine(r, i);
    case Receive =>
      if r.channel[0].outcome.Ok? {
        ReceiveWinner(r);
      } else {
        ReceiveError(r);
      }
    case GiveUp =>
      HeardBounded(r);
      assert Heard(Apply(r, step)) == Heard(r);
    case _ => assert Heard(Apply(r, step)) == Heard(r);
  }

  ghost predicate IsSchedule(n: nat, trace: seq<Race>, steps: seq<Step>) {
    && |trace| == |steps| + 1 && trace[0] == Start(n)
    && forall i :: 0 <= i < |steps| ==> Enabled(trace[i], steps[i]) && trace[i + 1] == Apply(trace[i], steps[i])
  }

  lemma {:induction false} ScheduleGenuine(n: nat, trace: seq<Race>, steps: seq<Step>, i: nat)
    requires IsSchedule(n, trace, steps) && i < |trace|
    ensures Genuine(trace[i]) && |trace[i].calls| == n
  {
    if i > 0 {
      ScheduleGenuine(n, trace, steps, i - 1);
      StepGenuine(trace[i - 1], steps[i - 1]);
    }
  }

  // ----- the results

  /** No goroutine ever blocks on its send, also after a winner has been returned and nobody receives any more. */
  lemma SendsNeverBlock(n: nat, trace: seq<Race>, steps: seq<Step>, i: nat, p: nat)
    requires IsSchedule(n, trace, steps) && i < |trace| && p < n && |trace[i].calls| == n && trace[i].calls[p].Holding?
    ensures |trace[i].channel| < n && Enabled(trace[i], Send(p))
  {
    ScheduleGenuine(n, trace, steps, i);
    var r := trace[i];
    HeardBounded(r);
    DistinctBounded(Heard(r) + [p], 0, n);
  }

  /** Whoever is still under way when the race is answered is told to stop. */
  lemma {:induction false} AnswerCancels(n: nat, trace: seq<Race>, steps: seq<Step>, i: nat)
    requires IsSchedule(n, trace, steps) && i < |trace| && n > 0
    ensures trace[i].answer.Some? ==> trace[i].cancelled
  {
    if i > 0 {
      AnswerCancels(n, trace, steps, i - 1);
    }
  }

  /** Nobody wins after a failure answer, and no later result replaces the winner. */
  lemma {:induction false} AnswerStays(n: nat, trace: seq<Race>, steps: seq<Step>, i: nat, j: nat)
    requires IsSchedule(n, trace, steps) && i <= j < |trace| && trace[i].answer.Some?
    ensures trace[j].answer == trace[i].answer
    decreases j
  {
    if i < j {
      AnswerStays(n, trace, steps, i, j - 1);
    }
  }

  /** A winner is a result its provider really produced. */
  lemma WinnerIsGenuine(n: nat, trace: seq<Race>, steps: seq<Step>, i: nat)
    requires IsSchedule(n, trace, steps) && i < |trace| && trace[i].answer.Some? && trace[i].answer.value.Winner?
    ensures var w := trace[i].answer.value;
            w.provider < |trace[i].calls| && trace[i].calls[w.provider] == Sent(Ok(w.forecast))
  {
    ScheduleGenuine(n, trace, steps, i);
  }

  /** "All providers failed" is answered only when all did, with exactly one error for each. */
  lemma AllFailedMeansAll(n: nat, trace: seq<Race>, steps: seq<Step>, i: nat, p: nat) returns (j: nat)
    requires IsSchedule(n, trace, steps) && i < |trace| && trace[i].answer.Some? && trace[i].answer.value.AllFailed?
    requires p < n
    ensures var errs := trace[i].answer.value.errs;
            && |errs| == n && |trace[i].calls| == n && j < n && errs[j].provider == p
            && trace[i].calls[p] == Sent(Err(errs[j].message))
            && forall k :: 0 <= k < n && errs[k].provider == p ==> k == j
  {
    ScheduleGenuine(n, trace, steps, i);
    var r := trace[i];
    HeardBounded(r);
    var h := Heard(r);
    DistinctCovers(h, n, p);
    j :| j < |h| && h[j] == p;
    forall k | 0 <= k < n && r.errs[k].provider == p ensures k == j {
      assert h[k] == p;
    }
  }

  /** Until there is an answer some step is possible; a provider that has not returned yet is one of them. */
  lemma RaceCanProceed(n: nat, trace: seq<Race>, steps: seq<Step>, i: nat)
    requires IsSchedule(n, trace, steps) && i < |trace| && trace[i].answer.None?
    ensures exists step :: Enabled(trace[i], step) && !step.CancelContext?
  {
    ScheduleGenuine(n, trace, steps, i);
    var r := trace[i];
    if |r.errs| >= n {
      assert Enabled(r, GiveUp);
    } else if r.channel != [] {
      assert Enabled(r, Receive);
    } else if p :| 0 <= p < n && r.calls[p].Running? {
      assert Enabled(r, Produce(p, Err("")));
    } else if p :| 0 <= p < n && r.calls[p].Holding? {
      SendsNeverBlock(n, trace, steps, i, p);
    } else {
      EveryoneHeard(r);
    }
  }

  /** With every result sent and none buffered, every provider has been heard. */
  lemma EveryoneHeard(r: Race)
    requires Genuine(r) && r.answer.None? && r.channel == []
    requires forall p :: 0 <= p < |r.calls| ==> r.calls[p].Sent?
    ensures |r.errs| >= |r.calls|
  {
    forall p | 0 <= p < |r.calls| ensures p in Heard(r) {
      assert r.calls[p].Sent?;
    }
    AllWithin(Heard(r), |r.calls|);
  }

  lemma {:induction false} AllWithin(s: seq<int>, n: nat)
    requires forall p :: 0 <= p < n ==> p in s
    ensures |s| >= n
  {
    if n > 0 {
      assert n - 1 in s;
      var i :| 0 <= i < |s| && s[i] == n - 1;
      var rest := s[..i] + s[i + 1..];
      forall p | 0 <= p < n - 1 ensures p in rest {
        assert p in s;
        var j :| 0 <= j < |s| && s[j] == p;
        assert rest[if j < i then j else j - 1] == p;
      }
      AllWithin(rest, n - 1);
    }
  }

  // ----- every schedule ends

  /** What a goroutine can still do: produce, send, and be received. */
  function CallWork(c: Call): nat {
    match c
    case Running => 3
    case Holding(_) => 2
    case Sent(_) => 0
  }

  function CallsWork(calls: seq<Call>): nat {
    if calls == [] then 0 else CallsWork(calls[..|calls| - 1]) + CallWork(calls[|calls| - 1])
  }

  /** An upper bound on the steps that are left. */
  function Work(r: Race): nat {
    CallsWork(r.calls) + |r.channel| + (if r.cancelled then 0 else 1) + if r.answer.None? then 1 else 0
  }

  lemma {:induction false} CallsWorkUpdated(calls: seq<Call>, i: nat, c: Call)
    requires i < |calls|
    ensures CallsWork(calls[i := c]) + CallWork(calls[i]) == CallsWork(calls) + CallWork(c)
  {
    var last := |calls| - 1;
    if i < last {
      CallsWorkUpdated(calls[..last], i, c);
      assert calls[i := c][..last] == calls[..last][i := c];
    } else {
      assert calls[i := c][..last] == calls[..last];
    }
  }

  lemma {:induction false} StartWork(n: nat)
    ensures CallsWork(seq(n, i => Running)) == 3 * n
  {
    if n > 0 {
      StartWork(n - 1);
      var calls: seq<Call> := seq(n, i => Running);
      assert calls[..n - 1] == seq(n - 1, i => Running);
    }
  }

  /** Every step uses up some of the work. */
  lemma StepWorks(r: Race, step: Step)
    requires Enabled(r, step)
    ensures Work(Apply(r, step)) < Work(r)
  {
    match step
    case Produce(i, outcome) => CallsWorkUpdated(r.calls, i, Holding(outcome));
    case Send(i) => CallsWorkUpdated(r.calls, i, Sent(r.calls[i].outcome));
    case _ =>
  }

  /** No schedule has more than three steps for each provider and two more. */
  lemma {:induction false} SchedulesTerminate(n: nat, trace: seq<Race>, steps: seq<Step>, i: nat)
    requires IsSchedule(n, trace, steps) && i < |trace|
    ensures i + Work(trace[i]) <= 3 * n + 2
  {
    if i == 0 {
      StartWork(n);
    } else {
      SchedulesTerminate(n, trace, steps, i - 1);
      StepWorks(trace[i - 1], steps[i - 1]);
    }
  }

  /** A race in which nothing but a cancellation is left to happen has its answer, and every goroutine is past its send. */
  lemma FinishedRaceIsAnswered(n: nat, trace: seq<Race>, steps: seq<Step>, i: nat)
    requires IsSchedule(n, trace, steps) && i < |trace|
    requires forall step :: Enabled(trace[i], step) ==> step.CancelContext?
    ensures trace[i].answer.Some? && |trace[i].calls| == n && forall p :: 0 <= p < n ==> trace[i].calls[p].Sent?
  {
    ScheduleGenuine(n, trace, steps, i);
    if trace[i].answer.None? {
      RaceCanProceed(n, trace, steps, i);
    }
    forall p | 0 <= p < n ensures trace[i].calls[p].Sent? {
      if trace[i].calls[p].Running? {
        assert Enabled(trace[i], Produce(p, Err("")));
      } else if trace[i].calls[p].Holding? {
        SendsNeverBlock(n, trace, steps, i, p);
      }
    }
  }
}
