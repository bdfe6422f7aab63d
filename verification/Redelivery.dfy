/**
 What becomes of webhook requests. One notification at most does not mean one request at most: a failed one is
 retried although it may have arrived, and a run whose goroutine is lost is taken over. What holds is that every
 request but the last was handed back or let go of, and one that came back as delivered only the latter.
 */
module Redelivery {
  import opened RunTable
  import opened Backoff
  import opened Protocol
  import opened Ledger
  import opened Budget
  import opened Lease
  import opened ExactlyOnce
  import opened Abandonment
  import opened Deliveries
  import opened Answers

  // ----- the results

  /**
   Requests that reached the receiver, in a timely run: they carry increasing attempts, and each but the last came
   back as failed and was handed back, or was let go of after its answer; and it was never announced.
   */
  lemma ArrivalsBeyondOneWereGivenUp(cfg: Config, trace: seq<State>, steps: seq<Step>, i: nat, r: int, x: nat)
    requires IsTimelyTrace(cfg, trace, steps) && i < |trace|
    ensures r in trace[i].history && x < |trace[i].history[r].arrivals| - 1 ==>
              var h, a := trace[i].history[r], trace[i].history[r].arrivals[x];
              && a < h.arrivals[x + 1] && a !in h.announced
              && ((a !in h.deliveries && a in h.retryWrites) || LostBefore(trace, steps, i, r, a, a in h.deliveries))
  {
    if r in trace[i].history && x < |trace[i].history[r].arrivals| - 1 {
      TraceReported(cfg, trace, steps, i, r);
      var h := trace[i].history[r];
      var a, next := h.arrivals[x], h.arrivals[x + 1];
      assert a in h.arrivals && next in h.arrivals;
      ClaimedAgainOnlyIfGivenUp(cfg, trace, steps, i, r, a, a in h.deliveries);
    }
  }

  /** So a run reaches its receiver at most once, unless some attempt was handed back or let go of. */
  lemma ArrivesOnceUnlessGivenUp(cfg: Config, trace: seq<State>, steps: seq<Step>, i: nat, r: int)
    requires IsTimelyTrace(cfg, trace, steps) && i < |trace| && r in trace[i].history
    ensures |trace[i].history[r].arrivals| <= 1 || exists a, ok :: GivenUp(trace, steps, i, r, a, ok)
  {
    var h := trace[i].history[r];
    if |h.arrivals| >= 2 {
      ArrivalsBeyondOneWereGivenUp(cfg, trace, steps, i, r, 0);
      assert GivenUp(trace, steps, i, r, h.arrivals[0], h.arrivals[0] in h.deliveries);
    }
  }

  /**
   Sends that came back as delivered, in a timely run: each but the last was let go of afterwards and never
   reported. So a run none of whose deliverers is let go of has at most one.
   */
  lemma DeliveriesBeyondOneWereLost(cfg: Config, trace: seq<State>, steps: seq<Step>, i: nat, r: int)
    requires IsTimelyTrace(cfg, trace, steps) && i < |trace| && r in trace[i].history
    ensures var h := trace[i].history[r];
            && Increasing(h.deliveries)
            && |h.announced| <= 1
            && (forall x :: 0 <= x < |h.deliveries| - 1 ==>
                  h.deliveries[x] !in h.announced && LostBefore(trace, steps, i, r, h.deliveries[x], true))
    ensures (forall attempt :: !LostBefore(trace, steps, i, r, attempt, true)) ==> |trace[i].history[r].deliveries| <= 1
  {
    TraceReported(cfg, trace, steps, i, r);
    var h := trace[i].history[r];
    forall x | 0 <= x < |h.deliveries| - 1
      ensures h.deliveries[x] !in h.announced && LostBefore(trace, steps, i, r, h.deliveries[x], true)
    {
      var d, last := h.deliveries[x], h.deliveries[|h.deliveries| - 1];
      assert d in h.deliveries && last in h.deliveries && d < last;
      ClaimedAgainOnlyIfLost(cfg, trace, steps, i, r, d);
    }
    if |h.deliveries| >= 2 {
      assert LostBefore(trace, steps, i, r, h.deliveries[0], true);
    }
  }

  /** A second delivery means that no earlier deliverer ever had its notification inserted. */
  lemma SecondDeliveryMeansNoNotice(cfg: Config, trace: seq<State>, steps: seq<Step>, i: nat, j: nat, k: WorkerId)
    requires IsTimelyTrace(cfg, trace, steps) && i <= j < |steps| && k.run in trace[i].history
    ensures steps[j] == SendOk(k) && trace[i].history[k.run].deliveries != [] ==>
              && trace[i].history[k.run].announced == []
              && (k.run in trace[i].tables.runs ==> !Notified(trace[i].tables.notices, k.run))
  {
    if steps[j] == SendOk(k) {
      NoNoticeBeforeSend(cfg, trace, steps, i, j, k);
    }
  }

  /** Whoever is about to send has announced nothing, nor has anybody before. */
  lemma NoNoticeBeforeSend(cfg: Config, trace: seq<State>, steps: seq<Step>, i: nat, j: nat, k: WorkerId)
    requires IsTimelyTrace(cfg, trace, steps) && i <= j < |steps| && steps[j] == SendOk(k)
    requires k.run in trace[i].history
    ensures trace[i].history[k.run].announced == []
    ensures k.run in trace[i].tables.runs ==> !Notified(trace[i].tables.notices, k.run)
  {
    TraceReported(cfg, trace, steps, i, k.run);
    AnnouncedStaysInTrace(cfg, trace, steps, i, j, k.run);
    TraceReported(cfg, trace, steps, j, k.run);
    TraceTimely(cfg, trace, steps, j);
    assert WorkerOk(cfg, trace[j], k) && HolderOk(trace[j], k);
  }

  lemma {:induction false} AnnouncedStaysInTrace(cfg: Config, trace: seq<State>, steps: seq<Step>, i: nat, j: nat, r: int)
    requires IsTimelyTrace(cfg, trace, steps) && i <= j < |trace| && r in trace[i].history
    ensures r in trace[j].history && (trace[i].history[r].announced != [] ==> trace[j].history[r].announced != [])
    decreases j
  {
    if i < j {
      AnnouncedStaysInTrace(cfg, trace, steps, i, j - 1, r);
      HistoryStep(cfg, trace[j - 1], steps[j - 1], r);
      var s := trace[j - 1];
      TraceUntimed(cfg, trace, steps, j - 1);
      if s.history[r].announced != [] {
        RecordsStay(cfg, s, steps[j - 1], r, s.history[r].announced[0]);
      }
    }
  }

  // ----- and lost deliveries are repeated

  /**
   A delivered, unreported run loses its holder exactly when the notification is lost, the holder dies, or
   its lease ends.
   */
  lemma OrphanedExactlyWhenLetGo(cfg: Config, s: State, step: Step, r: int, k: WorkerId)
    requires Untimed(cfg, s) && Timely(s) && Reported(s, r) && Enabled(s, step) && InLease(s, step)
    requires HasStatus(s, r, Fired) && !Notified(s.tables.notices, r)
    requires k.run == r && Live(s, k) && s.tables.runs[r].attempts in s.history[r].deliveries
    ensures Orphaned(Apply(cfg, s, step), r) <==> LosesReport(s, step, r, k)
  {
    assert LiveOk(s, k) && HolderOk(s, k);
    if LetsGo(s, step, k) {
      LettingGoAbandons(cfg, s, step, r, k);
    } else if Orphaned(Apply(cfg, s, step), r) {
      HolderStays(cfg, s, step, k);
    }
  }

  /** Whoever picks up an orphan in its window and gets through delivers it again. */
  lemma OrphanIsDeliveredAgain(cfg: Config, s: State, k: WorkerId)
    requires Untimed(cfg, s) && Orphaned(s, k.run) && At(s, k, Found) && InLease(s, Claim(k))
    requires Due(s.tables, k.run, s.workers[k].tick) && TargetUrl(cfg, s.tables.runs[k.run].booking.webhook) != ""
    ensures var s1 := Apply(cfg, s, Claim(k));
            && Enabled(s1, SendOk(k)) && InLease(s1, SendOk(k))
            && Apply(cfg, s1, SendOk(k)).history[k.run].deliveries
               == s.history[k.run].deliveries + [s.tables.runs[k.run].attempts + 1]
  {
    assert RowOk(s.tables.runs[k.run], s.history[k.run]);
  }
}
