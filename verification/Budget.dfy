/** The results that hold in every run of the system, timely or not. */
module Budget {
  import opened Clock
  import opened RunTable
  import opened Backoff
  import opened Protocol
  import opened Pigeonhole
  import opened Ledger

  lemma {:induction false} TraceUntimed(cfg: Config, trace: seq<State>, steps: seq<Step>, i: nat)
    requires IsTrace(cfg, trace, steps) && i < |trace|
    ensures Untimed(cfg, trace[i])
  {
    if i > 0 {
      TraceUntimed(cfg, trace, steps, i - 1);
      StepUntimed(cfg, trace[i - 1], steps[i - 1]);
    }
  }

  /**
   The retry budget. The attempt counter is the number of successful claims; fewer than
   maxAttempts retry writes ever take effect; beyond the budget only takeovers of abandoned
   claims add attempts; and no attempt sends twice.
   */
  lemma RetryBudget(cfg: Config, trace: seq<State>, steps: seq<Step>, i: nat, r: int)
    requires IsTrace(cfg, trace, steps) && i < |trace| && r in trace[i].history
    ensures var h := trace[i].history[r];
            && |h.retryWrites| <= cfg.maxAttempts - 1
            && |h.sends| <= |h.claims|
            && (r in trace[i].tables.runs ==>
                  && trace[i].tables.runs[r].attempts == |h.claims|
                  && |h.claims| <= cfg.maxAttempts + Reclaims(h.claims))
  {
    TraceUntimed(cfg, trace, steps, i);
    var h := trace[i].history[r];
    DistinctBounded(h.retryWrites, 1, cfg.maxAttempts);
    DistinctBounded(h.sends, 1, |h.claims| + 1);
    if r in trace[i].tables.runs {
      assert RowOk(trace[i].tables.runs[r], h);
    }
  }

  /** The attempt a goroutine works on is its alone, in every interleaving. */
  lemma AttemptsAreExclusive(cfg: Config, trace: seq<State>, steps: seq<Step>, i: nat, k: WorkerId, k': WorkerId)
    requires IsTrace(cfg, trace, steps) && i < |trace|
    requires k in trace[i].workers && k' in trace[i].workers && k.run == k'.run
    requires Holds(trace[i].workers[k]) && Holds(trace[i].workers[k'])
    requires trace[i].workers[k].attempt == trace[i].workers[k'].attempt
    ensures k == k'
  {
    TraceUntimed(cfg, trace, steps, i);
    assert AttemptsDiffer(trace[i], k, k');
  }

  /** A takeover follows the claim it replaces by at least the lease and less than the recovery window. */
  ghost predicate TakeoversInWindow(claims: seq<ClaimRecord>) {
    && (|claims| > 0 ==> !claims[0].reclaim)
    && forall i :: 0 <= i < |claims| - 1 && claims[i + 1].reclaim ==>
         claims[i].tick + 5 * MINUTE <= claims[i + 1].tick < claims[i].tick + 24 * HOUR
  }

  lemma ClaimTakesOverInWindow(run: Run, notified: bool, h: History, tick: int)
    requires RowOk(run, h) && DueRow(run, notified, tick) && TakeoversInWindow(h.claims)
    ensures TakeoversInWindow(h.claims + [ClaimRecord(tick, run.status == Fired)])
  {
  }

  lemma TakeoversStep(cfg: Config, s: State, step: Step, r: int)
    requires HistoriesOk(cfg, s) && Enabled(s, step)
    requires r in s.history ==> TakeoversInWindow(s.history[r].claims)
    requires r in Apply(cfg, s, step).history
    ensures TakeoversInWindow(Apply(cfg, s, step).history[r].claims)
  {
    if step.Claim? && step.k.run == r && Due(s.tables, r, s.workers[step.k].tick) {
      ClaimTakesOverInWindow(s.tables.runs[r], Notified(s.tables.notices, r), s.history[r], s.workers[step.k].tick);
    }
  }

  lemma {:induction false} TraceTakeovers(cfg: Config, trace: seq<State>, steps: seq<Step>, i: nat, r: int)
    requires IsTrace(cfg, trace, steps) && i < |trace| && r in trace[i].history
    ensures TakeoversInWindow(trace[i].history[r].claims)
  {
    if i > 0 {
      if r in trace[i - 1].history {
        TraceTakeovers(cfg, trace, steps, i - 1, r);
      }
      TraceUntimed(cfg, trace, steps, i - 1);
      TakeoversStep(cfg, trace[i - 1], steps[i - 1], r);
    }
  }

  /**
   No run is claimed before it starts, and a claim is taken over only between the lease and the
   recovery window after it: neither needs the timing assumption.
   */
  lemma ClaimsKeepTheirTimes(cfg: Config, trace: seq<State>, steps: seq<Step>, i: nat, r: int)
    requires IsTrace(cfg, trace, steps) && i < |trace| && r in trace[i].tables.runs
    ensures var run, h := trace[i].tables.runs[r], HistoryOf(trace[i], r);
            (h.claims != [] ==> run.booking.start <= h.claims[0].tick) && TakeoversInWindow(h.claims)
  {
    TraceUntimed(cfg, trace, steps, i);
    assert RowOk(trace[i].tables.runs[r], trace[i].history[r]);
    TraceTakeovers(cfg, trace, steps, i, r);
  }

  // ----- absorbing statuses

  predicate HasStatus(s: State, r: int, status: Status) {
    r in s.tables.runs && s.tables.runs[r].status == status
  }

  /** Nothing but deleting its appliance takes a failed run out of `failed`. */
  lemma FailedStaysStep(cfg: Config, s: State, step: Step, r: int)
    requires Relational(s.tables) && Enabled(s, step) && HasStatus(s, r, Failed)
    ensures r in Apply(cfg, s, step).tables.runs ==> HasStatus(Apply(cfg, s, step), r, Failed)
  {
  }

  /** Run numbers are not reused, so a deleted run stays away. */
  lemma GoneStaysStep(cfg: Config, s: State, step: Step, r: int)
    requires r < s.tables.nextRun && Enabled(s, step) && r in s.history && r !in s.tables.runs
    ensures r in Apply(cfg, s, step).history && r !in Apply(cfg, s, step).tables.runs
  {
  }

  lemma {:induction false} FailedIsFinal(cfg: Config, trace: seq<State>, steps: seq<Step>, i: nat, j: nat, r: int)
    requires IsTrace(cfg, trace, steps) && i <= j < |trace| && HasStatus(trace[i], r, Failed)
    ensures r in trace[j].tables.runs ==> HasStatus(trace[j], r, Failed)
    decreases j
  {
    TraceUntimed(cfg, trace, steps, i);
    if i < j {
      FailedIsFinal(cfg, trace, steps, i, j - 1, r);
      HistoryStays(cfg, trace, steps, i, j - 1, r);
      TraceUntimed(cfg, trace, steps, j - 1);
      if r in trace[j - 1].tables.runs {
        FailedStaysStep(cfg, trace[j - 1], steps[j - 1], r);
      } else {
        GoneStaysStep(cfg, trace[j - 1], steps[j - 1], r);
      }
    }
  }

  lemma {:induction false} HistoryStays(cfg: Config, trace: seq<State>, steps: seq<Step>, i: nat, j: nat, r: int)
    requires IsTrace(cfg, trace, steps) && i <= j < |trace| && r in trace[i].history
    ensures r in trace[j].history
    decreases j
  {
    if i < j {
      HistoryStays(cfg, trace, steps, i, j - 1, r);
      HistoryStep(cfg, trace[j - 1], steps[j - 1], r);
    }
  }

  lemma HistoryStep(cfg: Config, s: State, step: Step, r: int)
    requires Enabled(s, step) && r in s.history
    ensures r in Apply(cfg, s, step).history
  {
  }

  // ----- deletion safety

  /** No step removes a pending run or a seeded appliance. */
  lemma NothingWaitingIsRemoved(cfg: Config, s: State, step: Step)
    requires Relational(s.tables) && Enabled(s, step)
    ensures forall r :: HasStatus(s, r, Pending) ==> r in Apply(cfg, s, step).tables.runs
    ensures forall a :: a in s.tables.appliances && s.tables.appliances[a].isSeed ==>
              a in Apply(cfg, s, step).tables.appliances && Apply(cfg, s, step).tables.appliances[a] == s.tables.appliances[a]
  {
    forall r | HasStatus(s, r, Pending) ensures r in Apply(cfg, s, step).tables.runs {
      PendingStays(cfg, s, step, r);
    }
    forall a | a in s.tables.appliances && s.tables.appliances[a].isSeed
      ensures a in Apply(cfg, s, step).tables.appliances && Apply(cfg, s, step).tables.appliances[a] == s.tables.appliances[a]
    {
      SeedStays(cfg, s, step, a);
    }
  }

  lemma PendingStays(cfg: Config, s: State, step: Step, r: int)
    requires Enabled(s, step) && HasStatus(s, r, Pending)
    ensures r in Apply(cfg, s, step).tables.runs
  {
    if step.DeleteAppliance? {
      assert s.tables.runs[r].booking.appliance == step.appliance ==> HasPending(s.tables.runs, step.appliance);
    }
  }

  lemma SeedStays(cfg: Config, s: State, step: Step, a: int)
    requires Relational(s.tables) && Enabled(s, step) && a in s.tables.appliances && s.tables.appliances[a].isSeed
    ensures a in Apply(cfg, s, step).tables.appliances && Apply(cfg, s, step).tables.appliances[a] == s.tables.appliances[a]
  {
  }

  /** A delete that goes through takes the appliance, all its runs and their notifications, and nothing else. */
  lemma DeleteTakesExactlyItsOwn(t: Tables, a: int)
    requires Relational(t) && Deletable(t, a)
    ensures var t' := RemoveAppliance(t, a);
            && t'.appliances.Keys == t.appliances.Keys - {a}
            && (forall r :: r in t.runs ==> (r !in t'.runs <==> t.runs[r].booking.appliance == a))
            && (forall r :: r in t'.runs ==> r in t.runs && t'.runs[r] == t.runs[r])
            && (forall n :: n in t.notices ==> (n in t'.notices <==> t.notices[n].run in t'.runs))
            && (forall n :: n in t'.notices ==> n in t.notices && t'.notices[n] == t.notices[n])
  {
  }

  /** The tables stay consistent in every run, also when a delete cascades over a run being delivered. */
  lemma ReferencesResolve(cfg: Config, trace: seq<State>, steps: seq<Step>, i: nat)
    requires IsTrace(cfg, trace, steps) && i < |trace|
    ensures forall r :: r in trace[i].tables.runs ==> trace[i].tables.runs[r].booking.appliance in trace[i].tables.appliances
    ensures forall n :: n in trace[i].tables.notices ==> trace[i].tables.notices[n].run in trace[i].tables.runs
  {
    TraceUntimed(cfg, trace, steps, i);
  }

  /** A case-insensitive lookup never has two answers. */
  lemma {:induction false} NamesStayDistinct(cfg: Config, trace: seq<State>, steps: seq<Step>, i: nat)
    requires IsTrace(cfg, trace, steps) && i < |trace|
    ensures NamesDistinct(trace[i].tables.appliances)
  {
    if i > 0 {
      NamesStayDistinct(cfg, trace, steps, i - 1);
      var t, step := trace[i - 1].tables, steps[i - 1];
      if step.AddAppliance? && !NameTaken(t.appliances, step.name) {
        var t' := InsertAppliance(t, step.name, step.duration);
        forall a, b | a in t'.appliances && b in t'.appliances && a != b
          ensures NameKey(t'.appliances[a].name) != NameKey(t'.appliances[b].name)
        {
          assert a in t.appliances || b in t.appliances;
        }
      }
    }
  }

  lemma ApplianceStep(cfg: Config, s: State, step: Step, a: int)
    requires (forall b :: b in s.tables.appliances ==> b < s.tables.nextAppliance) && Enabled(s, step)
    ensures s.tables.nextAppliance <= Apply(cfg, s, step).tables.nextAppliance
    ensures a in Apply(cfg, s, step).tables.appliances ==>
              if a in s.tables.appliances then Apply(cfg, s, step).tables.appliances[a] == s.tables.appliances[a]
              else a >= s.tables.nextAppliance && !Apply(cfg, s, step).tables.appliances[a].isSeed
  {
  }

  /** Appliance numbers are not reused and rows never change, so what is there late was there early, or is new. */
  lemma {:induction false} ApplianceStays(cfg: Config, trace: seq<State>, steps: seq<Step>, i: nat, j: nat, a: int)
    requires IsTrace(cfg, trace, steps) && i <= j < |trace|
    ensures trace[i].tables.nextAppliance <= trace[j].tables.nextAppliance
    ensures a in trace[j].tables.appliances ==>
              if a < trace[i].tables.nextAppliance
              then a in trace[i].tables.appliances && trace[j].tables.appliances[a] == trace[i].tables.appliances[a]
              else !trace[j].tables.appliances[a].isSeed
    decreases j
  {
    if i < j {
      ApplianceStays(cfg, trace, steps, i, j - 1, a);
      TraceUntimed(cfg, trace, steps, j - 1);
      ApplianceStep(cfg, trace[j - 1], steps[j - 1], a);
    } else {
      TraceUntimed(cfg, trace, steps, j);
    }
  }

  /**
   The reason for a refused delete is read by a second statement, with anything in between. `Protected` is
   always right; an appliance that is there and not seeded was refused for a pending run, and the answer
   says so unless the appliance has gone meanwhile; a missing one is reported missing unless it has just been created.
   */
  lemma RefusalReasonIsHonest(cfg: Config, trace: seq<State>, steps: seq<Step>, i: nat, j: nat, a: int)
    requires IsTrace(cfg, trace, steps) && i <= j < |trace| && !Deletable(trace[i].tables, a)
    ensures var t, later := trace[i].tables, trace[j].tables;
            var why := RefusalReason(later, a);
            && (why == Protected <==> a in t.appliances && t.appliances[a].isSeed)
            && (why == NotFound <==> a !in later.appliances)
            && (a in t.appliances && !t.appliances[a].isSeed ==>
                  HasPending(t.runs, a) && (a in later.appliances ==> why == HasPendingRuns))
            && (why == HasPendingRuns && !HasPending(t.runs, a) ==> t.nextAppliance <= a < later.nextAppliance)
  {
    TraceUntimed(cfg, trace, steps, i);
    TraceUntimed(cfg, trace, steps, j);
    ApplianceStays(cfg, trace, steps, i, j, a);
    if a in trace[i].tables.appliances && trace[i].tables.appliances[a].isSeed {
      SeedsSurvive(cfg, trace, steps, i, j, a);
    }
  }

  lemma {:induction false} SeedsSurvive(cfg: Config, trace: seq<State>, steps: seq<Step>, i: nat, j: nat, a: int)
    requires IsTrace(cfg, trace, steps) && i <= j < |trace|
    requires a in trace[i].tables.appliances && trace[i].tables.appliances[a].isSeed
    ensures a in trace[j].tables.appliances && trace[j].tables.appliances[a] == trace[i].tables.appliances[a]
    decreases j
  {
    if i < j {
      SeedsSurvive(cfg, trace, steps, i, j - 1, a);
      TraceUntimed(cfg, trace, steps, j - 1);
      NothingWaitingIsRemoved(cfg, trace[j - 1], steps[j - 1]);
    }
  }

  // ----- where webhooks go

  /** The webhook of the run when it names one, whatever the configured one is, and that one otherwise. */
  predicate AimsRight(cfg: Config, b: Booking, url: string) {
    match b.webhook
    case Some(own) => url == if own == "" then cfg.defaultUrl else own
    case None => url == cfg.defaultUrl
  }

  lemma ClaimAims(cfg: Config, s: State, k: WorkerId)
    requires Enabled(s, Claim(k)) && Due(s.tables, k.run, s.workers[k].tick)
    ensures AimsRight(cfg, s.tables.runs[k.run].booking, Apply(cfg, s, Claim(k)).workers[k].url)
  {
  }

  ghost predicate Aiming(cfg: Config, s: State, k: WorkerId) {
    k in s.workers && Holds(s.workers[k]) && k.run in s.tables.runs ==>
      AimsRight(cfg, s.tables.runs[k.run].booking, s.workers[k].url)
  }

  lemma AimingStep(cfg: Config, s: State, step: Step, k: WorkerId)
    requires Enabled(s, step) && Aiming(cfg, s, k) && (k in s.workers ==> k.pass < s.passes && k.run < s.tables.nextRun)
    ensures Aiming(cfg, Apply(cfg, s, step), k)
  {
    if step.Claim? && step.k == k && Due(s.tables, k.run, s.workers[k].tick) {
      ClaimAims(cfg, s, k);
    }
  }

  /** In every reachable state, whoever holds a run sends to the webhook that run names, and to the configured one otherwise. */
  lemma {:induction false} WebhooksGoWhereBooked(cfg: Config, trace: seq<State>, steps: seq<Step>, i: nat, k: WorkerId)
    requires IsTrace(cfg, trace, steps) && i < |trace|
    ensures Aiming(cfg, trace[i], k)
  {
    if i > 0 {
      WebhooksGoWhereBooked(cfg, trace, steps, i - 1, k);
      TraceUntimed(cfg, trace, steps, i - 1);
      assert k in trace[i - 1].workers ==> WorkerOk(cfg, trace[i - 1], k);
      AimingStep(cfg, trace[i - 1], steps[i - 1], k);
    }
  }
}
