/** Claims racing on one row, with cancellations and outcome writes in between but no retry write. */
module Races {
  import opened Clock
  import opened RunTable

  /** One row and whether it has a notification. */
  datatype Row = Row(run: Run, notified: bool)

  datatype Write = Claiming(tick: int) | Cancelling | Failing(error: string) | Notifying

  predicate Wins(row: Row, w: Write) {
    w.Claiming? && DueRow(row.run, row.notified, w.tick)
  }

  function After(row: Row, w: Write): Row {
    match w
    case Claiming(tick) => if Wins(row, w) then row.(run := ClaimedRow(row.run, tick)) else row
    case Cancelling => if row.run.status == Pending then row.(run := row.run.(status := Cancelled)) else row
    case Failing(error) => row.(run := FailedRow(row.run, error))
    case Notifying => row.(notified := true)
  }

  function WinCount(row: Row, writes: seq<Write>): nat
    decreases |writes|
  {
    if writes == [] then 0
    else (if Wins(row, writes[0]) then 1 else 0) + WinCount(After(row, writes[0]), writes[1..])
  }

  /** Every claim in the list uses a tick before `limit`. */
  predicate TicksBelow(writes: seq<Write>, limit: int) {
    forall i :: 0 <= i < |writes| && writes[i].Claiming? ==> writes[i].tick < limit
  }

  /** All claim ticks of the list are less than a lease apart. */
  predicate WithinLease(writes: seq<Write>) {
    forall i, j :: 0 <= i < |writes| && 0 <= j < |writes| && writes[i].Claiming? && writes[j].Claiming? ==>
      writes[i].tick < writes[j].tick + 5 * MINUTE
  }

  /** Claimed at `tick` or later and not handed back. */
  predicate HeldSince(run: Run, tick: int) {
    run.status == Failed || (run.status == Fired && run.firedAt.Some? && tick <= run.firedAt.value)
  }

  /** The state a lost lease race starts from. */
  lemma {:induction false} NoWinWithinLease(row: Row, writes: seq<Write>, tick: int)
    requires HeldSince(row.run, tick) && TicksBelow(writes, tick + CLAIM_LEASE)
    ensures WinCount(row, writes) == 0
    decreases |writes|
  {
    if writes != [] {
      assert !Wins(row, writes[0]);
      NoWinWithinLease(After(row, writes[0]), writes[1..], tick);
    }
  }

  /** However many claims race within one lease, in whatever order of their ticks, at most one wins. */
  lemma {:induction false} AtMostOneWins(row: Row, writes: seq<Write>)
    requires WithinLease(writes)
    ensures WinCount(row, writes) <= 1
    decreases |writes|
  {
    if writes != [] {
      var rest := writes[1..];
      if Wins(row, writes[0]) {
        NoWinWithinLease(After(row, writes[0]), rest, writes[0].tick);
      } else {
        AtMostOneWins(After(row, writes[0]), rest);
      }
    }
  }

  /** If only claims race and the row was due for each of them, exactly one wins. */
  lemma ExactlyOneWins(row: Row, writes: seq<Write>)
    requires WithinLease(writes) && writes != []
    requires forall i :: 0 <= i < |writes| ==> Wins(row, writes[i])
    ensures WinCount(row, writes) == 1
  {
    AtMostOneWins(row, writes);
    assert Wins(row, writes[0]);
  }

  /** Without a retry write, a claim that wins after an earlier winner does so at least a lease later. */
  lemma {:induction false} LaterWinIsALeaseLater(row: Row, writes: seq<Write>, tick: int, last: int)
    requires Wins(row, Claiming(tick))
    requires Wins(AfterAll(After(row, Claiming(tick)), writes), Claiming(last))
    ensures tick + 5 * MINUTE <= last
  {
    StaysHeld(After(row, Claiming(tick)), writes, tick);
  }

  function AfterAll(row: Row, writes: seq<Write>): Row
    decreases |writes|
  {
    if writes == [] then row else AfterAll(After(row, writes[0]), writes[1..])
  }

  lemma {:induction false} StaysHeld(row: Row, writes: seq<Write>, tick: int)
    requires HeldSince(row.run, tick)
    ensures HeldSince(AfterAll(row, writes).run, tick)
    decreases |writes|
  {
    if writes != [] {
      StaysHeld(After(row, writes[0]), writes[1..], tick);
    }
  }
}
