/** The Postgres-backed repositories. Each method is one statement, proved against its effect on the tables. */
module Repository {
  import opened Wrappers
  import opened Pigeonhole
  import opened RunTable

  class Database {
    var appliances: map<int, Appliance>
    var runs: map<int, Run>
    var notices: map<int, Notice>
    var nextAppliance: int
    var nextRun: int
    var nextNotice: int

    function View(): Tables
      reads this
    {
      Tables(appliances, runs, notices, nextAppliance, nextRun, nextNotice)
    }

    /** The schema with its seeded appliances and nothing scheduled. */
    constructor (seeds: map<int, Appliance>, next: int)
      ensures View() == Tables(seeds, map[], map[], next, 1, 1)
    {
      appliances, runs, notices := seeds, map[], map[];
      nextAppliance, nextRun, nextNotice := next, 1, 1;
    }
  }

  class ScheduledRunRepository {
    const db: Database

    constructor (db: Database)
      ensures this.db == db
    {
      this.db := db;
    }

    method Create(b: Booking) returns (r: Result<int, DbError>)
      modifies db
      ensures db.View() == InsertRun(old(db.View()), b)
      ensures r == if b.appliance in old(db.appliances) then Ok(old(db.nextRun)) else Err(ForeignKey)
    {
      if b.appliance !in db.appliances {
        return Err(ForeignKey);
      }
      r := Ok(db.nextRun);
      db.runs := db.runs[db.nextRun := NewRun(b)];
      db.nextRun := db.nextRun + 1;
    }

    method Cancel(id: int) returns (r: Result<(), DbError>)
      modifies db
      ensures db.View() == CancelRun(old(db.View()), id)
      ensures r.Ok? <==> id in old(db.runs) && old(db.runs[id].status) == Pending
      ensures r.Err? ==> r.error == NotFound && db.View() == old(db.View())
    {
      if id in db.runs && db.runs[id].status == Pending {
        db.runs := db.runs[id := db.runs[id].(status := Cancelled)];
        r := Ok(());
      } else {
        r := Err(NotFound);
      }
    }

    /** The earliest due runs, at most `limit` of them. */
    method FindDuePending(now: int, limit: int) returns (batch: seq<int>)
      requires limit >= 0
      ensures IsDueBatch(db.View(), now, limit, batch)
    {
      var t := db.View();
      var rest := set r | r in t.runs && Due(t, r, now);
      batch := [];
      while |batch| < limit && rest != {}
        invariant |batch| <= limit && IsSelection(t, now, batch, rest)
        decreases rest
      {
        EarliestExists(t, rest);
        var r :| IsEarliest(t, rest, r);
        SelectNext(t, now, batch, rest, r);
        batch, rest := batch + [r], rest - {r};
      }
    }

    method ClaimForFiring(id: int, firedAt: int) returns (r: Result<Run, DbError>)
      modifies db
      ensures db.View() == ClaimRun(old(db.View()), id, firedAt)
      ensures r.Ok? <==> Due(old(db.View()), id, firedAt)
      ensures r.Ok? ==> id in db.runs && r.value == db.runs[id]
      ensures r.Err? ==> r.error == NotFound && db.View() == old(db.View())
    {
      if Due(db.View(), id, firedAt) {
        var run := db.runs[id];
        db.runs := db.runs[id := run.(status := Fired, firedAt := Some(firedAt), attempts := run.attempts + 1)];
        r := Ok(db.runs[id]);
      } else {
        r := Err(NotFound);
      }
    }

    method MarkRetry(id: int, lastError: string, nextAttempt: int)
      modifies db
      ensures db.View() == RetryRun(old(db.View()), id, lastError, nextAttempt)
    {
      if id in db.runs && db.runs[id].status == Fired {
        db.runs := db.runs[id := db.runs[id].(status := Pending, lastError := Some(lastError), nextAttempt := Some(nextAttempt))];
      }
    }

    method MarkFailed(id: int, lastError: string)
      modifies db
      ensures db.View() == FailRun(old(db.View()), id, lastError)
    {
      if id in db.runs {
        db.runs := db.runs[id := db.runs[id].(status := Failed, lastError := Some(lastError))];
      }
    }

    method CreateNotification(run: int, delivered: bool) returns (r: Result<int, DbError>)
      modifies db
      ensures db.View() == InsertNotice(old(db.View()), run, delivered)
      ensures r == if run in old(db.runs) then Ok(old(db.nextNotice)) else Err(ForeignKey)
    {
      if run !in db.runs {
        return Err(ForeignKey);
      }
      r := Ok(db.nextNotice);
      db.notices := db.notices[db.nextNotice := Notice(run, delivered)];
      db.nextNotice := db.nextNotice + 1;
    }
  }

  /** `batch` lists the earliest due runs in order, and `rest` the due runs that remain. */
  ghost predicate IsSelection(t: Tables, now: int, batch: seq<int>, rest: set<int>) {
    && (forall i, j :: 0 <= i < j < |batch| ==> batch[i] != batch[j])
    && (forall r :: r in rest ==> r !in batch)
    && (forall r :: Due(t, r, now) <==> r in rest || r in batch)
    && (forall i, j :: 0 <= i < j < |batch| ==> StartOf(t, batch[i]) <= StartOf(t, batch[j]))
    && (forall i, r :: 0 <= i < |batch| && r in rest ==> StartOf(t, batch[i]) <= StartOf(t, r))
  }

  lemma SelectNext(t: Tables, now: int, batch: seq<int>, rest: set<int>, r: int)
    requires IsSelection(t, now, batch, rest) && IsEarliest(t, rest, r)
    ensures IsSelection(t, now, batch + [r], rest - {r})
  {
  }

  predicate IsEarliest(t: Tables, rest: set<int>, r: int) {
    r in rest && forall q :: q in rest ==> StartOf(t, r) <= StartOf(t, q)
  }

  lemma {:induction false} EarliestExists(t: Tables, rest: set<int>)
    requires rest != {}
    ensures exists r :: IsEarliest(t, rest, r)
    decreases |rest|
  {
    HasMember(rest);
    var r :| r in rest;
    var others := rest - {r};
    if others == {} {
      assert rest == {r};
      assert IsEarliest(t, rest, r);
    } else {
      EarliestExists(t, others);
      var q :| IsEarliest(t, others, q);
      assert rest == others + {r};
      assert IsEarliest(t, rest, if StartOf(t, r) <= StartOf(t, q) then r else q);
    }
  }

  class ApplianceRepository {
    const db: Database

    constructor (db: Database)
      ensures this.db == db
    {
      this.db := db;
    }

    method Create(name: string, duration: real) returns (r: Result<int, DbError>)
      modifies db
      ensures db.View() == InsertAppliance(old(db.View()), name, duration)
      ensures r == if NameTaken(old(db.appliances), name) then Err(Conflict) else Ok(old(db.nextAppliance))
    {
      if NameTaken(db.appliances, name) {
        return Err(Conflict);
      }
      r := Ok(db.nextAppliance);
      db.appliances := db.appliances[db.nextAppliance := Appliance(name, duration, false)];
      db.nextAppliance := db.nextAppliance + 1;
    }

    /** The guarded delete statement; says whether it deleted a row. */
    method DeleteRow(id: int) returns (deleted: bool)
      modifies db
      ensures db.View() == RemoveAppliance(old(db.View()), id)
      ensures deleted <==> Deletable(old(db.View()), id)
      ensures deleted <==> && id in old(db.appliances) && !old(db.appliances)[id].isSeed
                           && forall r :: r in old(db.runs) && old(db.runs)[r].booking.appliance == id ==> old(db.runs)[r].status != Pending
      ensures !deleted ==> db.View() == old(db.View())
    {
      var t := db.View();
      deleted := Deletable(t, id);
      if deleted {
        db.appliances := db.appliances - {id};
        db.runs := map r | r in t.runs && t.runs[r].booking.appliance != id :: t.runs[r];
        db.notices := map n | n in t.notices && !(t.notices[n].run in t.runs && t.runs[t.notices[n].run].booking.appliance == id)
                      :: t.notices[n];
      }
    }

    /** The query that explains a refused delete, by then possibly on other tables. */
    method WhyNotDeleted(id: int) returns (why: DbError)
      ensures why == RefusalReason(db.View(), id)
    {
      if id !in db.appliances {
        why := NotFound;
      } else if db.appliances[id].isSeed {
        why := Protected;
      } else {
        why := HasPendingRuns;
      }
    }

    /** The delete with nobody else between its two statements: each refusal has its own reason. */
    method Delete(id: int) returns (r: Result<(), DbError>)
      modifies db
      ensures db.View() == RemoveAppliance(old(db.View()), id)
      ensures r.Ok? <==> Deletable(old(db.View()), id)
      ensures r.Err? ==> db.View() == old(db.View())
      ensures r == Err(NotFound) <==> id !in old(db.appliances)
      ensures r == Err(Protected) <==> id in old(db.appliances) && old(db.appliances[id].isSeed)
      ensures r == Err(HasPendingRuns) <==>
                id in old(db.appliances) && !old(db.appliances[id].isSeed) && HasPending(old(db.runs), id)
    {
      var deleted := DeleteRow(id);
      if deleted {
        return Ok(());
      }
      var why := WhyNotDeleted(id);
      r := Err(why);
    }
  }
}
