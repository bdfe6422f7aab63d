# GreenCycle: a verified model of the scheduler, the window pipeline and their caches

GreenCycle books appliance runs into the hours in which the grid is cleanest and fires a webhook when a run
starts. This project models the parts of it that have to be right under concurrency or on every input, and
proves what they promise.

**The delivery protocol.** Any number of instances, ticker passes and cron calls share three tables. A run goes
`pending -> fired -> (pending | failed | stays fired)` or `pending -> cancelled`. A claim is a compare-and-swap
and at the same time a five-minute lease; a claim without a notification after that is taken over, and a failed
delivery goes back to pending with an exponential backoff.

* `RunTable` gives each SQL statement as a function on the tables, `Repository` holds the repositories that
  run the statements, `Engine` the engine that calls them, and `Backoff` the retry budget.
* `Protocol` is the step machine: goroutines with a program counter, clock steps, crashes, lost writes, database
  errors, cancellations, bookings and appliance deletes interleave freely, and every statement is one step.
* `Ledger` and `Budget` hold what survives every interleaving. `Lease` and `ExactlyOnce` hold what needs the
  timing assumption behind "far longer than one fire takes": a goroutine acts only while the clock is before its
  tick time plus the lease (`Protocol.InLease`). Clocks of all instances are taken as one.
* `Abandonment`, `Answers` and `Redelivery` say what goes wrong even in time: the exact steps that leave a claimed run with
  nobody to report it, and that a webhook is delivered again only after such a step.
* `Interference` needs no timing at all: exactly when a cancellation can be undone, and when a takeover can lead to
  a second notification. `Overruns` holds the concrete runs in which each of these things happens.
* `Delivery` treats one fire as a function and measures its progress; `Passes` shows that the goroutines of a pass,
  interleaved statement by statement, do what firing the batch does; `Fairness` bounds how often and how long a due
  run can be left waiting while all this goes on, `Overlap` the same when passes overlap; `Races` treats one row.

**The window pipeline.** `Hourly` (bucketing upstream points), `Window` (the sliding window over the slots that have
not started) and `Zones` (the greenest of several zips).

**Components.** `WorkerPool` and `ProviderRace` are the two channel programs as step machines, `MockGrid` and
`ForecastCache` the synthetic provider and the cache in front of it, `WriteLimiter` the two write limiters.

Times are integers, nanoseconds on one UTC clock; intensities and averages are reals.

## Where the code differs from what is said about it

* The claim's comment says ticks and instances can never fire a run twice. Under the timing assumption a run is
  notified at most once (`ExactlyOnce.AtMostOneNotification`), but its webhook can reach the receiver twice, in two
  ways and no other (`Redelivery.ArrivalsBeyondOneWereGivenUp`). A request that arrives but comes back as failed, by a
  timeout or a bad status, is handed back and sent again, as the payload's comment on at-least-once delivery says
  (`Overruns.RunCanArriveTwice`). And a request, whatever its answer, is repeated when its goroutine is let go of
  before it has acted on the answer, by a lost write, a crash, or the end of its lease; after an answer of success this
  is the only way (`Overruns.RunCanBeDeliveredTwice`, `Redelivery.DeliveriesBeyondOneWereLost`).
* Without the assumption a run can also be notified twice (`Overruns.RunCanBeNotifiedTwice`). As long as every
  takeover finds no other goroutine holding the run it cannot, and the first that finds one opens the way to it:
  that is exactly the condition (`Interference.CleanTakeoversMeanOneNotice`, `Interference.TwiceExactlyWhenNotClean`).
* The comment on `Cancel` says a cancel racing a fire never leaves the row ambiguous. A cancellation that took effect
  can be undone exactly when some goroutine is about to fail the run or is on its last delivery
  (`Interference.CancelUndoneExactlyWhenThreatened`).
* The comment on `MarkFailed` says a failure is never silent. A failed run falls silent exactly when its notification
  is lost, its goroutine dies, or its lease ends between the two writes (`Abandonment.SilentExactlyWhenLetGo`), and
  then for good (`Abandonment.SilentForGood`).
* The repository's README says a claim matches `status = 'pending'` and that every fire writes a notification. The
  code also takes over abandoned claims, and a fire that will be retried writes none; the model follows the code.
* A recommendation "can never begin in the past" holds exactly for forecasts in which no started slot follows one
  that has not started (`Window.NeverInThePastIffOrdered`).
* A cached forecast expires at the hour boundary only if the clock readings of the call that stored it allow it;
  `ForecastCache.EntryStaysRightIffPrompt` gives the exact condition and `ForecastCache.StraddlingMiss` a call that breaks it.
* The Redis limiter counts a hit when it arrives, in the window of an earlier clock reading. It is a fixed window per
  key exactly as long as no hit arrives after its counter expired (`WriteLimiter.RedisAgreesIffNoLapse`).
* The in-memory limiter is a fixed window per key exactly as long as no call comes back to a window it has left
  (`WriteLimiter.MemoryAgreesIffNoReturn`); clock readings are taken before the lock, so one can.
* The floor of 50 in the mock forecast never takes effect (`MockGrid.MockIntensityRange`).

## Model

| member | source | states |
|---|---|---|
| Repository.ScheduledRunRepository.Create | internal/repository/scheduledrun_repo.go:22-33 | a booking becomes a fresh pending run, or nothing changes when its appliance is gone |
| Repository.ScheduledRunRepository.Cancel | internal/repository/scheduledrun_repo.go:58-75 | only a pending run is cancelled; otherwise NotFound and no change |
| Repository.ScheduledRunRepository.FindDuePending | internal/repository/scheduledrun_repo.go:97-106 | the answer lists due runs only, without repetition, by start time, at most `limit`, and leaves a due run out only behind a full batch of runs starting no later |
| Repository.ScheduledRunRepository.ClaimForFiring | internal/repository/scheduledrun_repo.go:108-126 | succeeds exactly when the run is due at the tick, then fires the row, counts the attempt and returns it; otherwise nothing changes |
| Repository.ScheduledRunRepository.MarkRetry | internal/repository/scheduledrun_repo.go:128-136 | puts back a fired run with its error and next attempt, and leaves every other status alone |
| Repository.ScheduledRunRepository.MarkFailed | internal/repository/scheduledrun_repo.go:138-145 | fails the row whatever its status |
| Repository.ScheduledRunRepository.CreateNotification | internal/repository/scheduledrun_repo.go:147-154 | inserts one notification, or errs and changes nothing when the run is gone |
| RunTable.BookedIsDueFromItsStart | internal/repository/scheduledrun_repo.go:22-33 | a new booking is pending, unclaimed and as booked, and due from its start; nothing else changes |
| RunTable.ClaimedIsDueOnlyAbandoned | internal/repository/scheduledrun_repo.go:77-95 | a claimed run is due again exactly while nobody is notified, from five minutes until 24 hours after the claim |
| RunTable.RetriedIsDueAfterBackoff | internal/repository/scheduledrun_repo.go:87-95 | a run handed back is due exactly from the later of its start and its next attempt |
| RunTable.EndedIsNeverDue | internal/repository/scheduledrun_repo.go:58-145 | a cancelled or failed run is never due, and a failed one keeps the error |
| RunTable.NotifiedIsNeverDue | internal/repository/scheduledrun_repo.go:91-95 | a notified run that is not pending is never due |
| Repository.ApplianceRepository.Create | internal/repository/appliance_repo.go:75-83 | inserts an unprotected appliance, or reports a conflict when the trimmed lower-case name is taken |
| RunTable.TrimTakesBlanks | internal/migrations/0003_appliance_name_ci_unique.up.sql:1-5 | the name is compared without the blanks at its ends, and only without those |
| RunTable.KeyIsLowered | internal/migrations/0003_appliance_name_ci_unique.up.sql:1-5 | and letter by letter without regard to case |
| RunTable.SameNameConflicts | internal/repository/appliance_repo.go:75-83 | so `Dryer` taken, ` dRYER  ` is refused |
| RunTable.NewNameIsKept | internal/repository/appliance_repo.go:75-83 | a new name is inserted as given, unprotected |
| Repository.ApplianceRepository.DeleteRow | internal/repository/appliance_repo.go:88-103 | the guarded statement with both cascades; it deletes exactly when the appliance is there, is not seeded, and none of its runs is pending |
| Backoff.RetryDelayDoubles | internal/scheduler/engine.go:67-75 | a minute after the first failure, doubled after each further one, and an hour once that would reach it |
| Backoff.RetryDelayIsCappedDoubling | internal/scheduler/engine.go:67-75 | the shortcut at 7 is exact: for every attempt the delay is the doubled minute capped at an hour, never less than a minute and never shrinking |
| Engine.Engine.SetMaxAttempts | internal/scheduler/engine.go:59-65 | budgets below one are ignored |
| Engine.Engine.Fire | internal/scheduler/engine.go:131-190 | the claim, the delivery and the outcome writes leave exactly the tables of `Delivery.Fire`; the request goes to the webhook of the run when it names one, else to the configured one, and nowhere when the run was not due or neither is set |
| Delivery.FireStampsTheClaim | internal/scheduler/engine.go:131-140 | whatever comes of a fire, the run keeps its booking and has the claim stamped and counted |
| Delivery.DeliveredFire | internal/scheduler/engine.go:148-189 | a delivered fire leaves the run fired with exactly one notification, which says delivered exactly when the run or the configuration names a webhook |
| Delivery.RetriedFire | internal/scheduler/engine.go:164-173 | a failed delivery with attempts left puts the run back with its error and its backoff counted from the failure, and notifies nobody |
| Delivery.FailedFire | internal/scheduler/engine.go:174-189 | a failed last delivery fails the run with its error and one notification that says not delivered |
| Budget.WebhooksGoWhereBooked | internal/scheduler/engine.go:148-151 | in every reachable state whoever holds a run aims at the webhook it names, whatever is configured, and at the configured one otherwise |
| Engine.Engine.RunOnce | internal/scheduler/engine.go:102-129 | one pass fires exactly a proper batch of due runs, fifty at most, and returns its size, or does nothing and returns zero when the query fails; that the order and the interleaving of its goroutines do not matter is `Passes.InterleavedPassIsFireBatch` |
| Delivery.UndisturbedFire | internal/scheduler/engine.go:131-190 | in the step machine a goroutine whose run nobody else touches can get from the claim to its return, its send taking any time, and leaves the tables of `Delivery.Fire` |
| Passes.FireBatchPointwise | internal/scheduler/engine.go:121-128 | firing a batch does to each of its runs what firing that run alone does, and nothing to the others |
| Passes.OrderDoesNotShow | internal/scheduler/engine.go:121-127 | every permutation of the batch gives the same rows and the same notified runs |
| Passes.InterleavedPassIsFireBatch | internal/scheduler/engine.go:102-190 | as long as nobody else writes a table, and no goroutine of the pass crashes or loses a write: however its statements interleave, with the clock running and other goroutines reading, sending or dying, once all have returned the rows and the notified runs are those of `Passes.FireBatch` for the outcomes read off the steps |
| Delivery.FireProgress | internal/scheduler/engine.go:131-190 | a fire of a due run ends it with exactly one notification or puts it back with strictly fewer deliveries left |
| Delivery.ReachableProgress | internal/scheduler/engine.go:131-190 | the same from every reachable state of a timely run |
| Delivery.FinishesWithinWeight | internal/scheduler/engine.go:139-177 | a run is claimed at most max(1, maxAttempts - attempts) more times, and has its outcome after that many |
| Budget.RetryBudget | internal/scheduler/engine.go:139-177 | in every run, timely or not: attempt_count is the number of successful claims, fewer than maxAttempts retry writes take effect, attempts exceed the budget only by takeovers, and sends do not exceed attempts |
| Budget.AttemptsAreExclusive | internal/repository/scheduledrun_repo.go:112-118 | two goroutines holding one run never work on the same attempt number |
| Budget.ClaimsKeepTheirTimes | internal/repository/scheduledrun_repo.go:77-95 | no run is claimed before its start, and a claim is taken over only between five minutes and 24 hours after it |
| Budget.FailedIsFinal | internal/repository/scheduledrun_repo.go:138-145 | a failed run stays failed for as long as it exists, in every run, timely or not |
| Budget.NothingWaitingIsRemoved | internal/repository/appliance_repo.go:85-103 | no step of the joint machine removes a pending run or a seeded appliance |
| Budget.SeedsSurvive | internal/repository/appliance_repo.go:85-103 | seeded appliances are there unchanged in every later state |
| Budget.RefusalReasonIsHonest | internal/repository/appliance_repo.go:105-124 | with any steps between the refused delete and the query for its reason: `Protected` exactly for a seeded appliance; an unseeded one was refused for a pending run, and that is the answer unless it is gone by then; a missing one is reported missing unless created meanwhile |
| Budget.DeleteTakesExactlyItsOwn | internal/migrations/0001_init_schema.up.sql:7-34 | a delete takes the appliance, its runs and their notifications, and nothing else |
| Budget.ReferencesResolve | internal/migrations/0001_init_schema.up.sql:9-30 | in every reachable state each run has its appliance and each notification its run |
| Budget.NamesStayDistinct | internal/migrations/0003_appliance_name_ci_unique.up.sql:1-5 | in every reachable state at most one appliance answers a case-insensitive lookup |
| Ledger.StepUntimed | internal/repository/scheduledrun_repo.go:87-154 | every step keeps the untimed invariant: attempt numbering, retry accounting, references |
| Lease.StepTimely | internal/repository/scheduledrun_repo.go:77-95 | every timely step keeps the timed invariant: live holders, final rows, backoff, spacing, passes |
| ExactlyOnce.SingleHolder | internal/repository/scheduledrun_repo.go:108-126 | in every reachable state of a timely run at most one live goroutine holds a run; its attempt and tick are those of the row, which is fired and unnotified until its own outcome write |
| ExactlyOnce.FinalMeansFinal | internal/repository/scheduledrun_repo.go:90-95 | once notified, cancelled or deleted, a run is never claimed, changed or notified again in a timely run |
| ExactlyOnce.AtMostOneNotification | internal/scheduler/engine.go:183-189 | a run has at most one notification in every state of a timely run, and is fired or failed when it has one |
| ExactlyOnce.ClaimSpacing | internal/scheduler/engine.go:165-172 | successive claims are at least min(backoff, lease) apart, so fired_at strictly increases and the n-th claim comes no earlier than the sum of the gaps |
| ExactlyOnce.GapsWrittenOut | internal/scheduler/engine.go:67-75 | the gaps are the backoffs, cut at five minutes, and they add up |
| ExactlyOnce.ClaimsInMinutes | internal/scheduler/engine.go:67-75 | so the n-th claim, from the fourth on, comes at least 7 + 5 (n - 4) minutes after the first |
| ExactlyOnce.PassLeavesNothingDue | internal/scheduler/engine.go:102-129 | once every goroutine of a dispatch has returned, without crash or database error, no run of its batch is due at the time of the pass, whatever others did meanwhile |
| Overruns.CancelledLostExactlyByFailureWrite | internal/repository/scheduledrun_repo.go:138-145 | the one step that takes a run out of `cancelled` while it exists is the unguarded failure write |
| Overruns.FirstFailureWriteOnCancelledIsLate | internal/repository/scheduledrun_repo.go:77-82 | in a run that was timely so far, the goroutine of that write is past its lease |
| Overruns.FirstSecondNoticeIsLate | internal/scheduler/engine.go:183-189 | in a run that was timely so far, the goroutine that inserts a second notification is past its lease |
| Interference.CancelUndoneExactlyWhenThreatened | internal/repository/scheduledrun_repo.go:58-75 | with no timing assumption: after a cancel that took effect, some continuation takes the run out of `cancelled` exactly when a goroutine on it is about to write its failure, or is on its last delivery |
| Interference.CleanTakeoversMeanOneNotice | internal/repository/scheduledrun_repo.go:87-126 | with no timing assumption: if every takeover finds no other goroutine holding the run, there is one notification per run at most, and every holder owns its row |
| Interference.CleanTakeoversKeepCancellations | internal/repository/scheduledrun_repo.go:58-75 | and then a cancelled run stays cancelled |
| Interference.TakeoverFromHolderCanNotifyTwice | internal/repository/scheduledrun_repo.go:91-95 | conversely, after a takeover from any goroutine that still holds the run, some continuation with clean takeovers only notifies it twice; if that goroutine is about to hand the run back, through a third claim |
| Interference.TwiceExactlyWhenNotClean | internal/repository/scheduledrun_repo.go:87-126 | so after clean takeovers, the next one opens the way to a second notification exactly when it is not clean |
| Overruns.CancelledRunCanFail | internal/repository/scheduledrun_repo.go:128-145 | a reachable state in which a cancelled run is about to be overwritten as failed |
| Overruns.RunCanBeNotifiedTwice | internal/scheduler/engine.go:183-189 | a reachable state with two notifications for one run |
| Overruns.FailureCanBeSilent | internal/scheduler/engine.go:174-187 | a state reachable in time with a failed run, no notification and nobody left to write one |
| Overruns.RunCanBeDeliveredTwice | internal/scheduler/engine.go:183-189 | a state reachable in time in which both the first and the second attempt came back as delivered |
| Overruns.RunCanArriveTwice | internal/scheduler/webhook.go:33-58 | a state reachable in time, without a lost write, a crash or an ended lease, in which both attempts reached the receiver |
| Abandonment.AbandonedExactlyByLettingGo | internal/scheduler/engine.go:164-189 | a fired or failed, unnotified run with a live holder loses it without an outcome exactly when the holder's retry or notification is lost, it dies, or the clock passes its lease |
| Abandonment.NobodyAttendsOnlyIfLetGo | internal/scheduler/engine.go:164-189 | in a timely run, an unnotified outcome that nobody attends to was left by such a step, and its row has not changed since |
| Abandonment.SilentExactlyWhenLetGo | internal/scheduler/engine.go:174-189 | a failed run falls silent exactly when its notification is lost, its holder dies, or its lease ends |
| Abandonment.FailedIsReportedOrLetGo | internal/repository/scheduledrun_repo.go:138-145 | a failed run of a timely run is notified, or its live holder is about to notify, or it passed through such a step |
| Abandonment.OrphanIsDueInItsWindow | internal/repository/scheduledrun_repo.go:77-95 | a run claimed and abandoned is due exactly from five minutes until 24 hours after its claim |
| Redelivery.ArrivalsBeyondOneWereGivenUp | internal/scheduler/engine.go:153-189 | in a timely run the attempts that reached the receiver increase, and each but the last either came back as failed and was handed back by a retry write, or was let go of after its answer; none of them was announced |
| Redelivery.ArrivesOnceUnlessGivenUp | internal/scheduler/webhook.go:22-24 | so a run reaches its receiver at most once, unless an attempt was handed back or let go of |
| Redelivery.DeliveriesBeyondOneWereLost | internal/scheduler/engine.go:153-189 | in a timely run the attempts reported as delivered increase, and each but the last was let go of afterwards and never announced; without such a step there is one at most |
| Answers.ClaimedAgainOnlyIfGivenUp | internal/repository/scheduledrun_repo.go:91-95 | a run is claimed again after an answer to its send only if a retry write handed the attempt back, or a step let go of the goroutine that had the answer |
| Answers.ClaimedAgainOnlyIfLost | internal/repository/scheduledrun_repo.go:91-95 | and after a send reported as delivered, only in the second way |
| Redelivery.SecondDeliveryMeansNoNotice | internal/scheduler/engine.go:183-189 | when a run is reported as delivered again, no notification of it was ever inserted before |
| Redelivery.OrphanedExactlyWhenLetGo | internal/scheduler/engine.go:183-189 | a delivered, unnotified run with a live holder is orphaned exactly by the loss of its notification, the death of that holder, or the end of its lease |
| Redelivery.OrphanIsDeliveredAgain | internal/repository/scheduledrun_repo.go:91-95 | a goroutine that picks up an orphan in its window can claim it and deliver it again, in time |
| Abandonment.SilentForGood | internal/scheduler/engine.go:174-187 | a silent run stays silent in every later state of a timely run |
| Races.AtMostOneWins | internal/repository/scheduledrun_repo.go:108-126 | of any claims on one row with ticks less than a lease apart and no retry write between, at most one wins, in any order and with cancels and outcome writes in between |
| Races.ExactlyOneWins | internal/repository/scheduledrun_repo.go:108-126 | exactly one wins when the row was due at every tick |
| Races.LaterWinIsALeaseLater | internal/repository/scheduledrun_repo.go:77-95 | without a retry write a later winner is at least a lease later |
| Fairness.StepPotential | internal/repository/scheduledrun_repo.go:97-106 | a pass that leaves out r takes fifty deliveries from the runs starting no later, and no other step adds any, but one for each of their goroutines that dies, fails its claim or loses its notification, and those of a new run that starts no later |
| Fairness.PotentialBetweenPasses | internal/scheduler/engine.go:164-177 | between passes the open deliveries are, for each other pending or fired unnotified run that starts no later, the attempts it has left but one at least |
| Fairness.BoundedOvertaking | internal/scheduler/engine.go:27-29 | in the step machine, with passes that follow one another: fifty times the passes that leave out a due run are at most the deliveries open to the unfinished runs starting no later, now or once they are booked, plus one for each of their goroutines lost on the way |
| Fairness.NoStarvation | internal/scheduler/engine.go:102-177 | from every state of a timely run between two passes, a run is found due at most as often as it has deliveries left, plus its own losses, plus a fiftieth of what its rivals have, lose, and bring with them |
| Overlap.StepOpen | internal/repository/scheduledrun_repo.go:108-126 | in a timely run with overlapping passes a claim takes one of the open deliveries, and nothing adds any, but one for each live goroutine lost, and those of a new run |
| Overlap.OverlappingOvertaking | internal/scheduler/engine.go:27-29 | in a timely run whose passes may overlap: fifty times the passes that leave out a due run are at most the deliveries open to its rivals, now or once they are booked, plus one for each rival that loses its live goroutine, and one for each goroutine of those passes that found its run taken, failed before its claim, or still waits |
| Overlap.OverlappingNoStarvation | internal/scheduler/engine.go:94-128 | and from every state of a timely run, the passes that find a run due are at most what it can be charged with in this way itself, plus a fiftieth of what its rivals can |
| Hourly.HourlyAverage | internal/grid/watttime.go:131-179 | errs exactly when no timestamp parses; otherwise the earliest at most 24 hours that have a point, strictly increasing, each with the converted mean of exactly its points |
| Hourly.SlotsAreMeans | internal/grid/watttime.go:161-170 | a slot times the number of its points is 0.453592 times their sum, and there are 24 slots at most |
| Hourly.SlotsAreEarliest | internal/grid/watttime.go:172-179 | an hour with a point is missing only behind 24 earlier ones |
| Hourly.SlotsWithinPoints | internal/grid/watttime.go:161-170 | no slot lies outside the converted range of the points of its sixty minutes |
| Hourly.CountsItsHour | internal/grid/watttime.go:142-155 | a slot counts exactly the points of its sixty minutes |
| Hourly.HourlyIsUnique | internal/grid/watttime.go:161-176 | that description has one answer, so the order in which the map is visited does not show |
| Hourly.OrderIndependent | internal/grid/watttime.go:142-155 | nor does the order of the points |
| Hourly.HourlyIsAligned | internal/grid/watttime.go:147-151 | every slot starts on the hour |
| Hourly.WindowLastsLongEnough | internal/algorithm/slidingwindow.go:53-54 | a window over such slots lasts at least its slot count in hours, hence at least the duration |
| Window.FindOptimalWindow | internal/algorithm/slidingwindow.go:12-71 | the earliest window with the least sum of all windows of max(1, ceil(duration)) slots, from the start of its first slot to an hour after the start of its last, its average within 0.05 of the exact one; an error exactly when the forecast is too short |
| Window.RoundIsNearest | internal/algorithm/slidingwindow.go:51 | the reported average is the nearest tenth, and of two equally near the one farther from zero |
| Window.AverageWithinSlots | internal/algorithm/slidingwindow.go:33-51 | it is no more than 0.05 outside the range of the slots |
| Window.UpcomingIsSuffix | internal/algorithm/upcoming.go:9-19 | the kept slots are the suffix from the first slot that has not started |
| Window.BestWindow | internal/httpapi/handlers_calculate.go:51-61 | the search applied to the upcoming slots, with the provider filled in |
| Window.BestWindowIsBruteForce | internal/httpapi/handlers_calculate.go:51-61 | over a strictly increasing forecast: the earliest least-sum window among all starting at now or later, and an error exactly when there is none |
| Window.NeverInThePastIffOrdered | internal/algorithm/upcoming.go:9-19 | whatever the intensities, no recommendation starts in the past, exactly when no started slot follows one that has not started |
| Zones.CompareZones | internal/httpapi/handlers_calculate.go:135-155 | one entry per zip in order, each at its own clock reading, and the first window with the least reported average |
| Zones.FetchedIsUsed | internal/httpapi/handlers_calculate.go:135-150 | each zip is answered from its own fetch: its error, or the search over what is still ahead in its own forecast |
| Zones.MissingHasNoWindow | internal/httpapi/handlers_calculate.go:136-150 | a zip missing from the fetches has no window |
| Zones.GreenestIsRoundedOptimum | internal/httpapi/handlers_calculate.go:135-155 | the reported minimum is the rounding of the least exact average over all zips and windows; it is within 0.05 of that average; the zip is the first with that value and less than 0.1 above the optimum |
| Zones.OptimumExists | internal/httpapi/handlers_calculate.go:135-155 | there is an optimum exactly when some fetched forecast has enough slots left |
| Zones.NothingReportedIffNoWindow | internal/httpapi/handlers_calculate.go:135-155 | no greenest zip exactly when no fetched forecast has enough slots left, that is, when there is no optimum |
| WorkerPool.PoolIsBounded | internal/grid/race.go:69-92 | in every schedule no more fetches are under way than workers were asked for, or one when fewer than one was, and waiting, in flight and done make up the input |
| WorkerPool.PoolIsUsed | internal/grid/race.go:81-97 | and some schedule has that many under way, or as many as there are zips |
| WorkerPool.NoDeadlock | internal/grid/race.go:81-100 | until the pool returns some goroutine can move |
| WorkerPool.SchedulesTerminate | internal/grid/race.go:81-100 | no schedule is longer than the work it started with |
| WorkerPool.ResultIsTheFetches | internal/grid/race.go:94-100 | the returned map has exactly one entry per distinct zip, the one fetched for it, whatever the schedule; so the comparison looks up what was fetched |
| ProviderRace.SendsNeverBlock | internal/grid/race.go:38-45 | every goroutine can always send, also after the race was answered |
| ProviderRace.WinnerIsGenuine | internal/grid/race.go:50-53 | a success is a result its provider produced |
| ProviderRace.AnswerCancels | internal/grid/race.go:35-36 | once the race is answered whoever is still under way is told to stop |
| ProviderRace.AnswerStays | internal/grid/race.go:48-61 | the first answer is the answer |
| ProviderRace.AllFailedMeansAll | internal/grid/race.go:54-61 | "all grid providers failed" only when all did, with exactly one error for each |
| ProviderRace.RaceCanProceed | internal/grid/race.go:47-61 | until there is an answer some step other than a cancellation is possible |
| ProviderRace.SchedulesTerminate | internal/grid/race.go:38-61 | no schedule has more than three steps for each provider and two more |
| ProviderRace.FinishedRaceIsAnswered | internal/grid/race.go:38-61 | a schedule that cannot go on has its answer, and every goroutine is past its send |
| MockGrid.MockProvider.GetForecast | internal/grid/mock.go:30-48 | the filled slice is the 24 hours from the next whole one |
| MockGrid.MockFollowsTheDay | internal/grid/mock.go:10-48 | each slot lies within 30 of the typical intensity of its hour of the day, but for rounding |
| MockGrid.JitterSpans | internal/grid/mock.go:50-58 | the offset is linear in the top 53 bits of the hash, from -30 up to but below 30 |
| MockGrid.MockIsUpcoming | internal/grid/mock.go:31-38 | every slot is still ahead, an hour after the one before, from the next whole hour on |
| MockGrid.MockDependsOnHour | internal/grid/mock.go:50-58 | two calls for a zip agree exactly when they fall into the same hour |
| MockGrid.MockIntensityRange | internal/grid/mock.go:39-58 | intensities lie in [100, 430], so the floor of 50 never takes effect |
| ForecastCache.Cached.GetForecast | internal/grid/cache.go:35-67 | what a call serves and stores, with Redis failing or not |
| ForecastCache.TTLIsCapped | internal/grid/cache.go:69-77 | the TTL is the configured one or the time to the next hour, whichever is less |
| ForecastCache.ServedIsOwnEntryOrInner | internal/grid/cache.go:35-51 | an unexpired entry of the zip is served, else what the provider answers |
| ForecastCache.StoredForTheTTL | internal/grid/cache.go:52-67 | a missed forecast with a second or more to keep it is stored for the capped TTL under the key of its zip, and nothing else changes |
| ForecastCache.OneReadingIsPrompt | internal/grid/cache.go:69-77 | with one clock reading per call an entry never outlives its hour, whatever TTL is configured |
| ForecastCache.CacheAgrees | internal/grid/cache.go:35-77 | however prompt calls overlap, with any TTL and any Redis failures, what is served is what the mock gives at that moment |
| ForecastCache.AloneIsTwoEvents | internal/grid/cache.go:35-67 | a call made alone is its lookup followed, when it missed, by its store |
| ForecastCache.ServedStaysSchedulable | internal/grid/cache.go:69-71 | no served slot has started, so every duration in (0, 24] gets a window |
| ForecastCache.EntryStaysRightIffPrompt | internal/grid/cache.go:57-65 | a stored entry agrees with the provider for as long as it is kept exactly when its call was prompt |
| ForecastCache.StraddlingMiss | internal/grid/cache.go:52-65 | two calls around an hour boundary after which a started slot is served and 24 hours cannot be scheduled |
| WriteLimiter.MemoryLimiter.Allow | internal/httpapi/security.go:176-202 | the pruned and updated map, the answer for its count, and a wait that leads into the next minute |
| WriteLimiter.PrunesAboveTenThousand | internal/httpapi/security.go:183-189 | above 10000 keys exactly the windows that have ended are dropped, and nothing before |
| WriteLimiter.RedisLimiter.Allow | internal/httpapi/security.go:140-158 | the counter step at the time INCR arrives, and the answer for its count; a Redis error lets the write through, and a lost EXPIRE leaves the counter for good |
| WriteLimiter.CounterLivesTwoMinutes | internal/httpapi/security.go:145-153 | a second hit is counted as the second until two minutes after the first one's EXPIRE, and as a first from then on |
| WriteLimiter.MemoryAgreesIffNoReturn | internal/httpapi/security.go:183-201 | for every limit the answers are those of a plain counter per key and minute, exactly when no call comes back to a window the limiter has left or pruned |
| WriteLimiter.MemoryAgreesInOrder | internal/httpapi/security.go:183-201 | in particular when windows arrive in order, despite resets and pruning |
| WriteLimiter.CountedIsStored | internal/httpapi/security.go:191-196 | the count behind an answer is the one stored for the key |
| WriteLimiter.MemoryForgetsOutOfOrder | internal/httpapi/security.go:177-194 | three calls for which the in-memory answer differs |
| WriteLimiter.RedisAgreesIffNoLapse | internal/httpapi/security.go:140-158 | for every limit and in every order of clock readings the Redis answers are those of the plain counter, exactly when no INCR arrives after the counter started by the first hit of its window has expired |
| WriteLimiter.RedisAgreesWithinTwoMinutes | internal/httpapi/security.go:145-153 | in particular when each INCR arrives before two minutes after the start of its window |
| WriteLimiter.RedisForgetsLateHits | internal/httpapi/security.go:140-153 | two hits of one window for which the Redis answer differs |
| WriteLimiter.CountIsOfOneMinute | internal/httpapi/security.go:140-158 | the plain counter of a client and a minute counts that client's calls of those sixty seconds |
| WriteLimiter.WindowLimited | internal/httpapi/security.go:150-158 | of the calls of one client in one minute exactly the first ones up to the limit are admitted |
| WriteLimiter.SpanLimited | internal/httpapi/security.go:134-158 | a plain counter per client and minute admits at most twice the limit in any sixty seconds |
| WriteLimiter.MemorySpanLimited | internal/httpapi/security.go:172-202 | so does the in-memory limiter when windows arrive in order |
| WriteLimiter.RedisSpanLimited | internal/httpapi/security.go:140-158 | so does Redis when no hit comes after its counter expired |
| WriteLimiter.RetryAfterReachesNextWindow | internal/httpapi/security.go:128-132 | waiting as told leads into the next window |

## Left out

- Postgres itself: snapshots, row locks and re-checks are not modelled; one statement is one atomic step, and ORDER BY ties may fall either way.
- Repository.ScheduledRunRepository.FindDuePending: the loop stands for what Postgres computes from ORDER BY and LIMIT; the code itself sends one query.
- Repository.ApplianceRepository.Delete: its two statements run with nobody in between; `Budget.RefusalReasonIsHonest` puts any steps of the machine there.
- Engine.Engine.RunOnce: the method fires its batch one after the other; `Passes.InterleavedPassIsFireBatch` shows that the interleaved goroutines of the step machine come to the same.
- Fairness.BoundedOvertaking: is about passes that do not overlap, but needs no timing assumption; `Overlap.OverlappingOvertaking` lets them overlap within it.
- ForecastCache.CacheAgrees: JSON encoding of a forecast is taken as lossless.
- WriteLimiter.RedisAgreesIffNoLapse: is about the hits Redis counted; a hit that met a Redis error is let through and not in the list.
- The ticker loop, graceful shutdown, the webhook transport, and message texts: a send comes back as delivered or failed at some clock reading, and a failed one may have arrived.
- WattTime login, Electricity Maps, the outbound rate limit, configuration, HTTP routing, CORS, origin and cron checks, the network guard and the dashboard.
- Floating point: NaN, infinities, overflow and rounding drift; sums are exact.
- Time zones: timestamps are UTC, although the bucket key of the hourly average and the hour of day of the mock depend on the location.
- FNV-1a: the hash behind the mock's offsets is a parameter.
- Lower-casing of names outside ASCII.
- created_at columns and listing queries.
