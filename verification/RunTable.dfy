/**
 The three tables the scheduler shares and the effect of each SQL statement on them.
 A statement is atomic, so each is a function from the tables to the tables after it.
 */
module RunTable {
  import opened Wrappers
  import opened Clock

  /** How long a claim without a notification is left alone before it counts as abandoned. */
  const CLAIM_LEASE: int := 5 * MINUTE
  /** How far back abandoned claims are still recovered. */
  const RECLAIM_WINDOW: int := 24 * HOUR

  datatype Status = Pending | Fired | Failed | Cancelled

  /** The columns of a scheduled run that no statement updates. */
  datatype Booking = Booking(appliance: int, applianceName: string, zip: string,
                             start: int, end: int, intensity: real, webhook: Option<string>)

  datatype Run = Run(booking: Booking, status: Status, firedAt: Option<int>, attempts: int,
                     lastError: Option<string>, nextAttempt: Option<int>)

  datatype Notice = Notice(run: int, delivered: bool)

  datatype Appliance = Appliance(name: string, duration: real, isSeed: bool)

  datatype Tables = Tables(appliances: map<int, Appliance>, runs: map<int, Run>, notices: map<int, Notice>,
                           nextAppliance: int, nextRun: int, nextNotice: int)

  datatype DbError = NotFound | Conflict | Protected | HasPendingRuns | ForeignKey

  /** The NOT EXISTS test on notifications, negated. */
  predicate Notified(notices: map<int, Notice>, r: int) {
    exists n :: n in notices && notices[n].run == r
  }

  /** dueCondition on one row: the only definition of "claimable". */
  predicate DueRow(run: Run, notified: bool, now: int) {
    || (&& run.status == Pending
        && run.booking.start <= now
        && (run.nextAttempt.None? || run.nextAttempt.value <= now))
    || (&& run.status == Fired
        && run.firedAt.Some?
        && run.firedAt.value <= now - CLAIM_LEASE
        && run.firedAt.value > now - RECLAIM_WINDOW
        && !notified)
  }

  predicate Due(t: Tables, r: int, now: int) {
    r in t.runs && DueRow(t.runs[r], Notified(t.notices, r), now)
  }

  // ----- scheduled_run statements

  function NewRun(b: Booking): Run {
    Run(b, Pending, None, 0, None, None)
  }

  function InsertRun(t: Tables, b: Booking): Tables {
    if b.appliance in t.appliances
    then t.(runs := t.runs[t.nextRun := NewRun(b)], nextRun := t.nextRun + 1)
    else t
  }

  function CancelRun(t: Tables, r: int): Tables {
    if r in t.runs && t.runs[r].status == Pending
    then t.(runs := t.runs[r := t.runs[r].(status := Cancelled)])
    else t
  }

  function ClaimedRow(run: Run, tick: int): Run {
    run.(status := Fired, firedAt := Some(tick), attempts := run.attempts + 1)
  }

  function ClaimRun(t: Tables, r: int, tick: int): Tables {
    if Due(t, r, tick) then t.(runs := t.runs[r := ClaimedRow(t.runs[r], tick)]) else t
  }

  function RetriedRow(run: Run, error: string, next: int): Run {
    run.(status := Pending, lastError := Some(error), nextAttempt := Some(next))
  }

  function RetryRun(t: Tables, r: int, error: string, next: int): Tables {
    if r in t.runs && t.runs[r].status == Fired
    then t.(runs := t.runs[r := RetriedRow(t.runs[r], error, next)])
    else t
  }

  function FailedRow(run: Run, error: string): Run {
    run.(status := Failed, lastError := Some(error))
  }

  function FailRun(t: Tables, r: int, error: string): Tables {
    if r in t.runs then t.(runs := t.runs[r := FailedRow(t.runs[r], error)]) else t
  }

  function InsertNotice(t: Tables, r: int, delivered: bool): Tables {
    if r in t.runs
    then t.(notices := t.notices[t.nextNotice := Notice(r, delivered)], nextNotice := t.nextNotice + 1)
    else t
  }

  // ----- appliance statements

  /** TRIM(name), for the blanks Postgres trims. */
  function Trim(s: string): string
    decreases |s|
  {
    if |s| > 0 && s[0] == ' ' then Trim(s[1..])
    else if |s| > 0 && s[|s| - 1] == ' ' then Trim(s[..|s| - 1])
    else s
  }

  function LowerChar(c: char): char {
    if 'A' <= c <= 'Z' then (c as int - 'A' as int + 'a' as int) as char else c
  }

  /** LOWER(TRIM(name)), the expression of the unique index. */
  function NameKey(s: string): string {
    var t := Trim(s);
    seq(|t|, i requires 0 <= i < |t| => LowerChar(t[i]))
  }

  predicate NameTaken(appliances: map<int, Appliance>, name: string) {
    exists a :: a in appliances && NameKey(appliances[a].name) == NameKey(name)
  }

  /** At most one appliance answers a case-insensitive lookup. */
  ghost predicate NamesDistinct(appliances: map<int, Appliance>) {
    forall a, b :: a in appliances && b in appliances && a != b ==> NameKey(appliances[a].name) != NameKey(appliances[b].name)
  }

  function InsertAppliance(t: Tables, name: string, duration: real): Tables {
    if NameTaken(t.appliances, name) then t
    else t.(appliances := t.appliances[t.nextAppliance := Appliance(name, duration, false)],
            nextAppliance := t.nextAppliance + 1)
  }

  predicate HasPending(runs: map<int, Run>, a: int) {
    exists r :: r in runs && runs[r].booking.appliance == a && runs[r].status == Pending
  }

  predicate Deletable(t: Tables, a: int) {
    a in t.appliances && !t.appliances[a].isSeed && !HasPending(t.runs, a)
  }

  /** The guarded DELETE with both of its ON DELETE CASCADEs. */
  function RemoveAppliance(t: Tables, a: int): Tables {
    if Deletable(t, a)
    then t.(appliances := t.appliances - {a},
            runs := map r | r in t.runs && t.runs[r].booking.appliance != a :: t.runs[r],
            notices := map n | n in t.notices && !(t.notices[n].run in t.runs && t.runs[t.notices[n].run].booking.appliance == a)
                       :: t.notices[n])
    else t
  }

  /** What the second query of a delete answers when the first deleted nothing. */
  function RefusalReason(t: Tables, a: int): DbError {
    if a !in t.appliances then NotFound
    else if t.appliances[a].isSeed then Protected
    else HasPendingRuns
  }

  // ----- FindDuePending

  /** ORDER BY start_time LIMIT: `batch` is one of the answers Postgres may give. */
  ghost predicate IsDueBatch(t: Tables, now: int, limit: int, batch: seq<int>) {
    && |batch| <= limit
    && (forall i, j :: 0 <= i < j < |batch| ==> batch[i] != batch[j])
    && (forall r :: r in batch ==> Due(t, r, now))
    && (forall i, j :: 0 <= i < j < |batch| ==> StartOf(t, batch[i]) <= StartOf(t, batch[j]))
    && (forall r :: Due(t, r, now) && r !in batch ==>
          |batch| == limit && forall i :: 0 <= i < |batch| ==> StartOf(t, batch[i]) <= StartOf(t, r))
  }

  function StartOf(t: Tables, r: int): int {
    if r in t.runs then t.runs[r].booking.start else 0
  }

  // ----- facts the layers above use

  lemma NoticeAddedTo(notices: map<int, Notice>, n: int, notice: Notice, q: int)
    requires n !in notices
    ensures Notified(notices[n := notice], q) <==> Notified(notices, q) || q == notice.run
  {
    var notices' := notices[n := notice];
    assert notices'[n].run == notice.run;
    if Notified(notices, q) {
      var m :| m in notices && notices[m].run == q;
      assert m in notices' && notices'[m].run == q;
    }
  }

  lemma NoticeAdded(t: Tables, r: int, delivered: bool, q: int)
    requires r in t.runs && t.nextNotice !in t.notices
    ensures Notified(InsertNotice(t, r, delivered).notices, q) <==> Notified(t.notices, q) || q == r
  {
    NoticeAddedTo(t.notices, t.nextNotice, Notice(r, delivered), q);
  }

  lemma NoticesSurviveCascade(t: Tables, a: int, r: int)
    requires r in RemoveAppliance(t, a).runs
    ensures r in t.runs && t.runs[r] == RemoveAppliance(t, a).runs[r]
    ensures Notified(RemoveAppliance(t, a).notices, r) <==> Notified(t.notices, r)
  {
    if Notified(t.notices, r) {
      var n :| n in t.notices && t.notices[n].run == r;
      assert n in RemoveAppliance(t, a).notices && RemoveAppliance(t, a).notices[n].run == r;
    }
  }

  // ----- when a run is due, statement by statement

  /** A booking is pending, unclaimed and as booked, and due from its start. */
  lemma BookedIsDueFromItsStart(t: Tables, b: Booking, now: int)
    requires b.appliance in t.appliances
    ensures var t' := InsertRun(t, b);
            && t'.runs[t.nextRun].booking == b && t'.runs[t.nextRun].status == Pending && t'.runs[t.nextRun].attempts == 0
            && t'.runs[t.nextRun].firedAt == None && t'.runs[t.nextRun].lastError == None
            && (Due(t', t.nextRun, now) <==> b.start <= now)
            && (forall q :: q in t.runs && q != t.nextRun ==> q in t'.runs && t'.runs[q] == t.runs[q])
            && t'.nextRun == t.nextRun + 1 && t'.appliances == t.appliances && t'.notices == t.notices
  {
  }

  /** A claimed run is due again only as abandoned: from five minutes until 24 hours after, and only while nobody is notified. */
  lemma ClaimedIsDueOnlyAbandoned(t: Tables, r: int, tick: int, now: int)
    requires Due(t, r, tick)
    ensures Due(ClaimRun(t, r, tick), r, now) <==>
              !Notified(t.notices, r) && tick + 5 * MINUTE <= now < tick + 24 * HOUR
  {
  }

  /** A run handed back is due from its start and the end of its backoff, whichever is later. */
  lemma RetriedIsDueAfterBackoff(t: Tables, r: int, error: string, next: int, now: int)
    requires r in t.runs && t.runs[r].status == Fired
    ensures Due(RetryRun(t, r, error, next), r, now) <==> t.runs[r].booking.start <= now && next <= now
  {
  }

  /** A cancelled or failed run is never due, and a failed one keeps its error. */
  lemma EndedIsNeverDue(t: Tables, r: int, error: string, now: int)
    ensures r in t.runs && t.runs[r].status == Pending ==>
              CancelRun(t, r).runs[r].status == Cancelled && !Due(CancelRun(t, r), r, now)
    ensures r in t.runs ==>
              FailRun(t, r, error).runs[r].status == Failed && FailRun(t, r, error).runs[r].lastError == Some(error)
              && !Due(FailRun(t, r, error), r, now)
  {
  }

  /** A notified run that is not waiting for a retry is never due. */
  lemma NotifiedIsNeverDue(t: Tables, r: int, delivered: bool, now: int)
    requires r in t.runs && t.runs[r].status != Pending && t.nextNotice !in t.notices
    ensures !Due(InsertNotice(t, r, delivered), r, now)
    ensures InsertNotice(t, r, delivered).notices == t.notices[t.nextNotice := Notice(r, delivered)]
  {
    NoticeAdded(t, r, delivered, r);
  }

  // ----- when two names are the same

  predicate Blank(s: string) {
    forall i :: 0 <= i < |s| ==> s[i] == ' '
  }

  /** Trimming takes the blanks off both ends, and nothing else. */
  lemma {:induction false} TrimTakesBlanks(s: string) returns (before: string, after: string)
    ensures Blank(before) && Blank(after) && s == before + Trim(s) + after
    ensures Trim(s) == "" || (Trim(s)[0] != ' ' && Trim(s)[|Trim(s)| - 1] != ' ')
    decreases |s|
  {
    before, after := "", "";
    if |s| > 0 && s[0] == ' ' {
      before, after := TrimTakesBlanks(s[1..]);
      assert s == " " + s[1..];
      before := " " + before;
    } else if |s| > 0 && s[|s| - 1] == ' ' {
      before, after := TrimTakesBlanks(s[..|s| - 1]);
      assert s == s[..|s| - 1] + " ";
      after := after + " ";
    }
  }

  /** The key is the trimmed name with its capital letters made small, letter by letter. */
  lemma KeyIsLowered(s: string, i: nat)
    requires i < |Trim(s)|
    ensures |NameKey(s)| == |Trim(s)|
    ensures 'A' <= Trim(s)[i] <= 'Z' ==> 'a' <= NameKey(s)[i] <= 'z' && NameKey(s)[i] - 'a' == Trim(s)[i] - 'A'
    ensures !('A' <= Trim(s)[i] <= 'Z') ==> NameKey(s)[i] == Trim(s)[i]
  {
  }

  /** So neither case nor blanks around it make a name a new one. */
  lemma SameNameConflicts(t: Tables, a: int, duration: real)
    requires a in t.appliances && t.appliances[a].name == "Dryer"
    ensures InsertAppliance(t, " dRYER  ", duration) == t
  {
    assert Trim("Dryer") == "Dryer";
    assert " dRYER  "[1..] == "dRYER  " && "dRYER  "[..6] == "dRYER " && "dRYER "[..5] == "dRYER";
    assert Trim(" dRYER  ") == Trim("dRYER  ") == Trim("dRYER ") == Trim("dRYER") == "dRYER";
    assert NameKey("Dryer") == "dryer" == NameKey(" dRYER  ");
    assert NameTaken(t.appliances, " dRYER  ");
  }

  /** A new name is inserted as it was given, and not protected. */
  lemma NewNameIsKept(t: Tables, name: string, duration: real)
    requires !NameTaken(t.appliances, name)
    ensures InsertAppliance(t, name, duration).appliances == t.appliances[t.nextAppliance := Appliance(name, duration, false)]
  {
  }
}
