/** The delivery engine, statement by statement, proved to do what Delivery.Fire says. */
module Engine {
  import opened Wrappers
  import opened RunTable
  import opened Backoff
  import opened Repository
  import Protocol
  import Delivery
  import Passes

  class Engine {
    const repo: ScheduledRunRepository
    const defaultUrl: string
    var maxAttempts: Budget

    function Cfg(): Config
      reads this
    {
      Config(maxAttempts, defaultUrl)
    }

    /** One delivery attempt per run until told otherwise. */
    constructor (repo: ScheduledRunRepository, defaultUrl: string)
      ensures this.repo == repo && Cfg() == Config(1, defaultUrl)
    {
      this.repo, this.defaultUrl, this.maxAttempts := repo, defaultUrl, 1;
    }

    method SetMaxAttempts(n: int)
      modifies this
      ensures maxAttempts == if n >= 1 then n else old(maxAttempts)
    {
      if n >= 1 {
        maxAttempts := n;
      }
    }

    /**
     One goroutine: `o` is what the network does, and `o.failedAt` the clock when a failed send returns.
     The webhook of the run takes precedence over the configured one, whatever that is.
     */
    method Fire(run: int, tickTime: int, o: Delivery.Outcome) returns (sentTo: Option<string>)
      modifies repo.db
      ensures repo.db.View() == Delivery.Fire(Cfg(), old(repo.db.View()), run, tickTime, o)
      ensures !Due(old(repo.db.View()), run, tickTime) ==> sentTo == None
      ensures Due(old(repo.db.View()), run, tickTime) ==>
                var own := old(repo.db.runs)[run].booking.webhook;
                && (own.Some? && own.value != "" ==> sentTo == Some(own.value))
                && (own.None? || own.value == "" ==> sentTo == if defaultUrl != "" then Some(defaultUrl) else None)
    {
      sentTo := None;
      var claimed := repo.ClaimForFiring(run, tickTime);
      if claimed.Err? {
        return;
      }
      var attempt: Attempt := Protocol.Max(claimed.value.attempts, 1);
      var url := defaultUrl;
      if claimed.value.booking.webhook.Some? && claimed.value.booking.webhook.value != "" {
        url := claimed.value.booking.webhook.value;
      }
      var delivered := false;
      if url != "" {
        sentTo := Some(url);
        if !o.delivered {
          if attempt < maxAttempts {
            repo.MarkRetry(run, o.error, o.failedAt + RetryDelay(attempt));
            return;
          }
          repo.MarkFailed(run, o.error);
        } else {
          delivered := true;
        }
      }
      var _ := repo.CreateNotification(run, delivered);
    }

    /** One pass at time `now`; `batch` is what the query returned, nothing when it failed. */
    method RunOnce(now: int, queryFails: bool, net: int -> Delivery.Outcome) returns (n: int, ghost batch: seq<int>)
      modifies repo.db
      ensures if queryFails then batch == [] else IsDueBatch(old(repo.db.View()), now, BATCH_LIMIT, batch)
      ensures n == |batch| <= 50
      ensures repo.db.View() == Passes.FireBatch(Cfg(), old(repo.db.View()), now, batch, net)
    {
      if queryFails {
        return 0, [];
      }
      var due := repo.FindDuePending(now, BATCH_LIMIT);
      batch := due;
      ghost var before := repo.db.View();
      for i := 0 to |due|
        invariant Passes.FireBatch(Cfg(), repo.db.View(), now, due[i..], net) == Passes.FireBatch(Cfg(), before, now, due, net)
      {
        assert due[i..][0] == due[i] && due[i..][1..] == due[i + 1..];
        var _ := Fire(due[i], now, net(due[i]));
      }
      n := |due|;
    }
  }
}
