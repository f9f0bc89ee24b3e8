# Verified model of the booking backend

The project models the parts of the backend where correctness depends on interleavings, on calendar
arithmetic or on being able to stop and start again, and proves what they promise.

- `SchedulerLeaseService`, `LeaseProtocol`: the lease document of a scheduled job, the conditional writes
  sent to it, and every interleaving of those calls.
- `LeaseRunner`, `LeaseExclusion`: the cron and interval runners cut at every await, and any number of
  them over one lease.
- `CategoryIntegrity`: services that refer to custom categories, under snapshot isolation.
- `BookingSlotHolds`, `BookingUtils`, `SlotSearch`, `CreationLock`: holds per booked minute, the search for
  the earliest free slot, and the queue that serializes booking creation.
- `Calendar`, `BookingDateTime`, `ArmeniaTime`: day numbers and dates as section 21.4.1 of ECMA-262 defines
  them, date and time keys, and Armenian days, months, past times and the booking horizon.
- `ScheduleUtils`, `ScheduleCleanup`: schedules, the dropping of past dates, and the nightly cleanup against
  concurrent edits.
- `ScheduleMigration`, `WorkHistory`, `MembershipBackfill`: three migrations that claim to be resumable,
  idempotent or all-or-nothing.
- `SocketExpiry`: the timer that ends a socket when its token expires.
- `Wrappers`: optional values, results, and JavaScript's string order.

Code that updates state in place is a class, or a method with a loop, whose contract equates the new state
with a function of the old one; protocols are state machines over those functions, and the main results are
about every run. Beside them stand results that give each answer in terms of the stored fields alone, and
that show the runs wanted to exist. Database calls, clocks, timers and callbacks of other code are
parameters: they may answer in any order, late, or not at all.

Four of the results are about where the code falls short of what its name suggests, and each says exactly
when it does what it should: `ArmeniaTime.TwoReadings`, `ArmeniaTime.HorizonIsExact`,
`ArmeniaTime.MonthBoundsContainInstant` and `LeaseRunner.StartIsSafeExactlyWhen`.
`ScheduleMigration.CopiesLackExplicitDays` and the returned count in
`MembershipBackfill.WriteIsAllOrNothing` say exactly what two migrations do not promise.

`dafny verify dfyconfig.toml` checks everything.

## Model

| member | source | states |
|---|---|---|
| LeaseProtocol.CommittedWritesAreFenced | backend/src/services/schedulerLeaseService.js:340-384 | In every interleaving of calls by any number of clients, with clocks that disagree, late deliveries and lost replies, the fenced writes committed to a key carry consecutive sequence numbers and nondecreasing tokens, none below the token stored at the start |
| LeaseProtocol.KthWriteHasSequenceK | backend/src/services/schedulerLeaseService.js:350-377 | From empty storage the k-th committed write to a key has writeSequence k |
| LeaseProtocol.StaleTokenNeverCommits | backend/src/services/schedulerLeaseService.js:344-369 | Once a larger token is stored, no write under a smaller one commits for the rest of the run |
| LeaseProtocol.AcquiredTokensAreDistinct | backend/src/services/schedulerLeaseService.js:182-243 | No two successful acquires of a key return the same token |
| LeaseProtocol.SupersededOwnerIsPowerless | backend/src/services/schedulerLeaseService.js:213-229 | After a takeover every renewal, release and fenced write of the former owner misses, at any later point of the run |
| LeaseProtocol.OwnerCanCommit | backend/src/services/schedulerLeaseService.js:340-384 | The owner of an unexpired stored lease can always begin a fenced write, pass the fence and commit it under the next sequence number |
| LeaseProtocol.RetriedWriteCanCommit | backend/src/services/schedulerLeaseService.js:340-384 | A transaction that met a conflict can be run again and commit over what the document has become, as long as the lease is still its owner's |
| LeaseProtocol.EndsAreQuiet | backend/src/services/schedulerLeaseService.js:264-310 | A call or fenced write that is answered, lost or given up is over, and its end touches no document |
| SchedulerLeaseService.LeaseCollection.Acquire | backend/src/services/schedulerLeaseService.js:164-244 | Whatever others do between the read and the write: the arguments it refuses, the exact documents it leaves, that an acquired lease is the stored document under a token no earlier one had, that it succeeds when the lease stays free, and which of the five reasons it gives otherwise |
| SchedulerLeaseService.LeaseCollection.Renew | backend/src/services/schedulerLeaseService.js:246-279 | Extends exactly the caller's own unexpired lease and else changes nothing; answers with that lease, or with the reason: the storage failed or the caller does not own it |
| SchedulerLeaseService.LeaseCollection.Release | backend/src/services/schedulerLeaseService.js:281-311 | Expires exactly the caller's own lease, expired or not, never another's; answers as renew does |
| SchedulerLeaseService.AcceptedInNumbers | backend/src/services/schedulerLeaseService.js:32-71 | Tokens are 1 to 200 characters without blanks at either end; ttls and fencing tokens run from 1 to 2^53-1, dates to 8.64e15 ms either way |
| SchedulerLeaseService.ReadableExactly | backend/src/services/schedulerLeaseService.js:93-127 | A stored document is readable exactly when its owner, expiry, token and sequence are acceptable, a missing sequence being 0, and it reads as it is |
| SchedulerLeaseService.FencePassesExactly | backend/src/services/schedulerLeaseService.js:343-370 | The fence lets an attempt through exactly when its caller owns the stored lease under its token, the lease has not expired by the attempt's clock and the next sequence can be read |
| SchedulerLeaseService.CommittedIsDurable | backend/src/services/schedulerLeaseService.js:343-370 | An attempt that passes the fence and commits advanced the sequence by one on an unexpired document its caller owned under its token |
| SchedulerLeaseService.RunTransaction | backend/src/services/schedulerLeaseService.js:340-384 | Returns the lease, the write's result and the callbacks of the one attempt that committed, after attempts that were all retried, also for a conflict in the fence update; fails exactly when no attempt commits, with the error of the first attempt that is not retried |
| SchedulerLeaseService.CollectCallbacks | backend/src/services/schedulerLeaseService.js:376-380 | Keeps the registered functions, in order, and nothing else |
| SchedulerLeaseService.FunctionsAreRegistered | backend/src/services/schedulerLeaseService.js:372-381 | The callbacks are the registered functions and no others; one registered later comes last |
| SchedulerLeaseService.WithFencedWrite | backend/src/services/schedulerLeaseService.js:339-400 | Returns what the committed attempt's write returned; callbacks run only after a commit, only those of the committed attempt, in order, each at most once, up to the first that throws, which the caller then gets; none run when nothing commits |
| LeaseExclusion.AtMostOneLiveHolder | backend/src/services/schedulerLeaseRunner.js:133-266 | With one clock and one ttl, and jobs that await their fenced writes, no two runners of a job ever both hold a local lease copy that has not expired, through acquires, renewals in flight, lost replies, takeovers and releases |
| LeaseExclusion.LiveHolderIsStoredOwner | backend/src/services/schedulerLeaseRunner.js:193-216 | A local copy that has not expired names the stored owner and token, and expires no later than the stored lease |
| LeaseExclusion.FreeLeaseCanBeTaken | backend/src/services/schedulerLeaseRunner.js:389-471 | Wherever the stored lease is free, a started, idle runner can begin a tick and, once its call is read, written and answered, runs its job as the live holder of the stored lease under a token greater by one |
| LeaseExclusion.ExpiredLeaseChangesHands | backend/src/services/schedulerLeaseService.js:209-243 | Once the clock reaches the expiry of a lease whose holder stays silent, an idle runner can take it so |
| LeaseExclusion.HeldLeaseCanBeRenewed | backend/src/services/schedulerLeaseRunner.js:155-216 | When its renewal timer fires and the call is written and answered, a running job goes on with the stored lease, good for another ttl, and the next timer set |
| LeaseExclusion.ReleaseFreesTheLease | backend/src/services/schedulerLeaseRunner.js:238-266 | Once a tick has drained and its release is written, the stored lease is free for all and the local copy gone |
| LeaseExclusion.StepKeepsInv | backend/src/services/schedulerLeaseService.js:209-296 | The invariant behind exclusion survives every step of a runner, of the network and of the database |
| LeaseRunner.OneExecutionAtATime | backend/src/services/cronLeaseRunner.js:371-464 | In every run, whatever the jobs do, at most one tick is in progress, and a renewal timer is never pending while a renewal is in flight; the interval runner is started only where StartIsSafeExactlyWhen allows it |
| LeaseRunner.RenewalIsComing | backend/src/services/cronLeaseRunner.js:140-152 | In every run, as long as a job runs and no loss of its lease is recorded, it has a lease copy and an unaborted signal, and either the timer of its next renewal is set or that renewal is in flight, never both |
| LeaseRunner.JobStartsWithItsLease | backend/src/services/cronLeaseRunner.js:398-440 | The answer to acquire starts the job exactly with a live lease of its own, which becomes the lease copy with the first renewal timer set; with any other answer the tick is over and the lease fields are as before |
| LeaseRunner.RenewalIsTakenOver | backend/src/services/cronLeaseRunner.js:154-217 | While the job runs unharmed, the answer to a renewal keeps it so exactly with a live lease of its own, which becomes the lease copy with the next timer set; else the loss is recorded, the signal aborted and the renewals over |
| LeaseRunner.LossIsRecordedExactly | backend/src/services/cronLeaseRunner.js:120-130 | A running job is harmed by no step but its end, a bad renewal or fenced update, a write that failed for the lost lease, or a failed ownership check; each of the last four records the loss at once, aborts the signal and ends the renewals |
| LeaseRunner.FencedWritesExactly | backend/src/services/cronLeaseRunner.js:309-358 | A fenced write is sent exactly while its tick's signal is not aborted, and its callback starts the job's own write exactly with a live lease of its own and no abort meanwhile |
| LeaseRunner.StartIsSafeExactlyWhen | backend/src/services/schedulerLeaseRunner.js:499-538 | In every state the interval runner can reach, starting it keeps every continuation to one tick at a time exactly when no stop is pending or a tick is in progress |
| LeaseRunner.RestartOverlaps | backend/src/services/schedulerLeaseRunner.js:520-534 | Started otherwise, the interval runner has two ticks in progress three steps later: the stop still pending resets isRunning without checking whose it is |
| LeaseRunner.RestartDuringStopOverlaps | backend/src/services/schedulerLeaseRunner.js:499-538 | Such a state is reached from the new runner by start and stop alone, and only the second start breaks the rule |
| LeaseRunner.NoWriteAfterLoss | backend/src/services/cronLeaseRunner.js:309-358 | Once a tick has recorded a lost lease, no fenced-write callback of its job starts again, not even one that outlives the job |
| LeaseRunner.StopResolvesQuiescent | backend/src/services/cronLeaseRunner.js:466-524 | With jobs that await their fenced writes: when stop resolves no tick runs, no renewal is pending or in flight and no lease is held; the runner is stopped and may be started, unless the interval runner was started again meanwhile |
| LeaseRunner.QuietExactlyWhenAwaited | backend/src/services/cronLeaseRunner.js:439-463 | The end of a job leaves every later stop to resolve with nothing running and no lease held exactly when none of its fenced writes outlives it |
| LeaseRunner.PendingStopCanProceed | backend/src/services/cronLeaseRunner.js:477-515 | A pending stop always has a next step of its own or of the work it awaits |
| LeaseRunner.RenewalDueBeforeExpiry | backend/src/services/schedulerLeaseRunner.js:13-17 | For any lead the delay leaves it, or is one second where that would be less; with the default a renewal is due before its lease expires exactly when the ttl exceeds one second, and five seconds ahead exactly from six seconds on |
| LeaseRunner.RunnerProcess.Start | backend/src/services/cronLeaseRunner.js:526-541 | Does the start step of the runner machine |
| LeaseRunner.RunnerProcess.CallStop | backend/src/services/cronLeaseRunner.js:466-482 | Does the step of a stop call up to its first pause; for the interval runner see schedulerLeaseRunner.js 511-524 |
| LeaseRunner.RunnerProcess.AwaitCurrentWork | backend/src/services/cronLeaseRunner.js:494-500 | Does the step that awaits the tick in progress or stops the renewal loop |
| LeaseRunner.RunnerProcess.StopSettles | backend/src/services/cronLeaseRunner.js:501-514 | Does the end of a stop, with the identity checks of the cron runner and without them for the interval runner |
| LeaseRunner.RunnerProcess.RunTick | backend/src/services/cronLeaseRunner.js:371-385 | Does the start of a tick, or skips it |
| LeaseRunner.RunnerProcess.AcquireReturns | backend/src/services/cronLeaseRunner.js:398-440 | Does the step after acquire: the job starts only with a valid lease of its own |
| LeaseRunner.RunnerProcess.TimerFires | backend/src/services/cronLeaseRunner.js:143-152 | Does the step that starts a renewal |
| LeaseRunner.RunnerProcess.RenewReturns | backend/src/services/cronLeaseRunner.js:154-217 | Does the step after renew: a valid lease is taken over and the next renewal scheduled, anything else aborts |
| LeaseRunner.RunnerProcess.RequestFenced | backend/src/services/cronLeaseRunner.js:309-317 | Does the step that requests a fenced write, refused once aborted |
| LeaseRunner.RunnerProcess.FencedCallback | backend/src/services/cronLeaseRunner.js:322-339 | Does the step inside the transaction |
| LeaseRunner.RunnerProcess.FencedSettles | backend/src/services/cronLeaseRunner.js:353-358 | Does the step after a fenced write, which aborts when the lease was lost |
| LeaseRunner.RunnerProcess.JobEnds | backend/src/services/cronLeaseRunner.js:439-453 | Does the step after the job: renewals stop |
| LeaseRunner.RunnerProcess.Drained | backend/src/services/cronLeaseRunner.js:225-235 | Does the step that forgets the lease and sends its release |
| LeaseRunner.RunnerProcess.ReleaseReturns | backend/src/services/cronLeaseRunner.js:457-463 | Does the end of a tick |
| LeaseRunner.RunnerProcess.Abort | backend/src/services/cronLeaseRunner.js:120-130 | Records the loss, stops renewals and aborts the signal |
| LeaseRunner.RunnerProcess.Schedule | backend/src/services/cronLeaseRunner.js:140-143 | Sets the renewal timer while a lease is active |
| CategoryIntegrity.NoDanglingReference | backend/src/services/serviceCategoryReferenceIntegrity.js:118-138 | In every interleaving of transactions under snapshot isolation with first-committer-wins and retries, and of service edits that keep their category, no committed state has a service that points at a deleted category |
| CategoryIntegrity.EditKeepsInv | backend/src/controllers/services/serviceController.js:405-433 | An edit that leaves a service's category alone, at any moment between the transactions, keeps what the result above rests on |
| CategoryIntegrity.CommitReportsTheTruth | backend/src/services/serviceCategoryReferenceIntegrity.js:140-239 | What a commit returns is true of the state it produces: the reference resolves, to an active category unless inactive ones are allowed; a deleted category is gone and unreferenced; a disabled one is there, inactive; an update has the new values and else the old; and the commit changes nothing it does not report |
| CategoryIntegrity.WriteSkewWithoutTouch | backend/src/services/serviceCategoryReferenceIntegrity.js:118-131 | Without the write to the category, adding a reference and deleting the category can both commit and leave the reference dangling |
| CategoryIntegrity.TouchMakesThemConflict | backend/src/services/serviceCategoryReferenceIntegrity.js:118-131 | With it, whichever commits second conflicts |
| CategoryIntegrity.LockedExactlyForItsOwners | backend/src/services/serviceCategoryReferenceIntegrity.js:36-61 | The lock accepts exactly the barbers who own the existing custom category or manage its existing salon, if it is active or an inactive one will do; strangers get 403, all others refused get 400 |
| CategoryIntegrity.CommittedReferenceIsAuthorized | backend/src/services/serviceCategoryReferenceIntegrity.js:101-157 | In every run a reference is committed only by a barber who might make it in the state its transaction read, and the category is still that of this state when the commit lands |
| CategoryIntegrity.DisabledExactlyWhenReferenced | backend/src/services/serviceCategoryReferenceIntegrity.js:214-236 | In every run a committed deletion keeps the category, disabled, exactly when some service referred to it in the state the transaction read |
| CategoryIntegrity.RefusedExactlyWhen | backend/src/services/serviceCategoryReferenceIntegrity.js:101-239 | Each operation fails exactly when it should, with its error: for want of the custom category, of the right to it, or of the service where it should be |
| CategoryIntegrity.FailureChangesNothing | backend/src/services/serviceCategoryReferenceIntegrity.js:101-239 | A transaction that fails leaves the documents as they are and ends with its error |
| CategoryIntegrity.Session.LockCategoryForReference | backend/src/services/serviceCategoryReferenceIntegrity.js:101-138 | Accepts exactly the existing custom categories the barber may use, and marks the category as written exactly then |
| CategoryIntegrity.Session.PersistServiceWithCategoryReference | backend/src/services/serviceCategoryReferenceIntegrity.js:140-157 | Leaves in its session exactly the effect, result and written documents the protocol assumes of it |
| CategoryIntegrity.Session.UpdateCategoryWithReferenceIntegrity | backend/src/services/serviceCategoryReferenceIntegrity.js:159-192 | The same for an update |
| CategoryIntegrity.Session.DeleteCategoryWithReferenceIntegrity | backend/src/services/serviceCategoryReferenceIntegrity.js:194-239 | The same for a deletion, which disables a category still referenced |
| BookingSlotHolds.CollectPlan | backend/scripts/backfill-booking-slot-holds.js:47-133 | Reports nothing exactly when all bookings are valid and pairwise apart, no two holds repeat each other and none contradicts a booking; every report is true; without one the plan is one hold per booked minute |
| BookingSlotHolds.ApartIsNoOverlap | backend/src/utils/bookingUtils.js:179-196 | Valid bookings share a minute of a barber exactly when they are on one day and overlap in the sense of slotOverlaps |
| BookingSlotHolds.CoversInNumbers | backend/scripts/backfill-booking-slot-holds.js:29-45 | A booking occupies exactly the minutes from its time on for its duration, if that is a whole number of minutes that ends by midnight of a real day and it names a barber; it is valid exactly when it occupies some |
| BookingSlotHolds.PlaceMinutes | backend/scripts/backfill-booking-slot-holds.js:69-90 | The inner loop gives each free minute to the booking, reports each that another has, and keeps the first claim |
| BookingSlotHolds.PlanBookings | backend/scripts/backfill-booking-slot-holds.js:55-91 | The claims on minutes, and the report of invalid and clashing bookings |
| BookingSlotHolds.CheckHolds | backend/scripts/backfill-booking-slot-holds.js:98-130 | The report of repeated and contradicting holds |
| BookingSlotHolds.HoldCollection.Backfill | backend/scripts/backfill-booking-slot-holds.js:153-201 | Writes only when asked to and when nothing is reported, and then leaves exactly the specified holds |
| BookingSlotHolds.HoldCollection.DeleteStale | backend/scripts/backfill-booking-slot-holds.js:177-183 | Keeps exactly the holds on planned minutes |
| BookingSlotHolds.HoldCollection.BulkUpsert | backend/scripts/backfill-booking-slot-holds.js:185-201 | Inserts in order the planned holds that are not there |
| BookingSlotHolds.BackfillIsExact | backend/src/models/BookingSlotHold.js:31-38 | Afterwards the stored holds are exactly one per booked minute under its booking; both unique indexes hold then and after each single upsert before |
| BookingSlotHolds.SecondBackfillChangesNothing | backend/scripts/backfill-booking-slot-holds.js:165-201 | A second run is accepted and changes nothing |
| Calendar.YearFromDay | backend/src/utils/bookingDateTime.js:117-125 | The year whose days include a day number (ECMA-262 section 21.4.1) |
| Calendar.MonthOf | backend/src/utils/bookingDateTime.js:117-125 | The month whose days include a day of the year |
| Calendar.MonthLengths | backend/src/utils/bookingDateTime.js:43-50 | The valid dates are those with the lengths of months and leap years everyone knows |
| Calendar.DaysFollow | backend/src/utils/bookingDateTime.js:117-125 | 1 January 1970 is day 0, and the day after a date is the next of its month or the first of the next month or year |
| Calendar.CivilOfDayOf | backend/src/utils/bookingDateTime.js:43-50 | The date of a date's day number is that date |
| Calendar.CivilFromDayIsRight | backend/src/utils/bookingDateTime.js:117-125 | The day number of a day's date is that day |
| Calendar.DateOrderIsDayOrder | backend/src/utils/bookingDateTime.js:163-176 | Dates compare as their day numbers do |
| Calendar.YearsIncrease | backend/src/utils/bookingDateTime.js:144-159 | A later year starts at least 365 days later |
| BookingDateTime.DateKeysAreDates | backend/src/utils/bookingDateTime.js:43-50 | isDateKey accepts exactly the padded keys of the valid dates of the years 1000 to 9999; reading a key and formatting a date undo each other |
| BookingDateTime.KeyOrderIsDayOrder | backend/src/utils/bookingDateTime.js:163-176 | Comparing two keys as strings compares their day numbers, and equal keys are equal days |
| BookingDateTime.TimeKeysAreMinutes | backend/src/utils/barberCardAvailability.js:35-40 | Each minute of the day has exactly one time key: timeToMinutes and minutesToTime undo each other |
| BookingDateTime.TimeOrderIsMinuteOrder | backend/src/utils/bookingDateTime.js:52-68 | Time keys compare as their minutes do |
| BookingDateTime.FieldOrder | backend/src/utils/bookingDateTime.js:43-50 | On digits of one width, string order is number order |
| ArmeniaTime.SplitKey | backend/src/utils/bookingDateTime.js:147-149 | How the key of any date splits at its dashes, also with a negative year |
| ArmeniaTime.DayBoundsContainInstant | backend/src/utils/bookingDateTime.js:117-142 | An instant has a date key exactly when its Armenian year is one of 1000 to 9999; then the day's bounds are 24 hours that hold it |
| ArmeniaTime.DayBoundsMapBack | backend/src/utils/bookingDateTime.js:131-142 | Exactly the instants within the bounds of a key have that key |
| ArmeniaTime.MonthBoundsContainInstant | backend/src/utils/bookingDateTime.js:147-159 | The month bounds of an instant hold it exactly when its Armenian year is 100 or later |
| ArmeniaTime.MonthsTileTime | backend/src/utils/bookingDateTime.js:147-159 | From there on all instants of a month have its bounds, and the next month starts where it ends |
| ArmeniaTime.MinutesSinceMidnight | backend/src/utils/bookingDateTime.js:106-111 | The minutes of day computed from UTC fields are those since Armenian midnight |
| ArmeniaTime.BookingInstant | backend/src/utils/bookingDateTime.js:70-111 | A booking starts at its minute of its day, 14,400,000 ms ahead of UTC, if both its keys are valid; the minute of day of an instant in the same numbers |
| ArmeniaTime.PastIsStarted | backend/src/utils/bookingUtils.js:167-177 | With one reading of the clock, a booking time is past exactly when the instant getBookingDateTime gives has come |
| ArmeniaTime.TwoReadings | backend/src/utils/bookingUtils.js:167-177 | The code's two readings leave the answer between the truths at both, for every booking, exactly when the minute of the day has not gone back between them |
| ArmeniaTime.HorizonIsExact | backend/src/utils/bookingDateTime.js:163-176 | From a day of the years 1000 to 9999, every date key is judged by whether its day is more than 180 after today exactly when the last allowed day still has a year of four digits |
| ArmeniaTime.HorizonPastLastKey | backend/src/utils/bookingDateTime.js:171-175 | Otherwise 9999-12-31 is refused although it lies within the horizon |
| ScheduleUtils.CleanTwice | backend/src/utils/scheduleUtils.js:71-81 | Cleaning for one day and then another, in either order, is cleaning for the later one |
| ScheduleUtils.CleanKeysKeep | backend/src/utils/scheduleUtils.js:42-55 | The cleaned keys are exactly the valid ones from today on, in strict order |
| ScheduleUtils.SortedListIsItsSet | backend/src/utils/scheduleUtils.js:48-54 | A strictly sorted list is determined by its members |
| ScheduleUtils.CleanMapLooksUp | backend/src/utils/scheduleUtils.js:57-69 | Entries of kept dates survive unchanged, the others are gone |
| ScheduleUtils.CleanCurrentAndFutureDateMap | backend/src/utils/scheduleUtils.js:57-69 | The loop keeps exactly the entries of kept dates, in order |
| ScheduleUtils.NormalizeTwice | backend/src/utils/scheduleUtils.js:266-300 | Normalizing again on the same day changes nothing |
| ScheduleUtils.AutoClosedIsEmptied | backend/src/utils/scheduleUtils.js:231-264 | Normalizing empties a week exactly when all seven days are closed without hours and it is not marked as meant, and leaves every other as it is |
| ScheduleUtils.NormalizeKeepsDay | backend/src/utils/scheduleUtils.js:250-300 | For a date from today on, normalizing keeps membership in the days off, and keeps the day's hours exactly unless there is no override, the weekly schedule is the unmarked all-closed one and the weekday counts as explicit |
| ScheduleCleanup.HandleCleansTheCurrentDocument | backend/cron/cleanupNonWorkingDays.js:14-38 | A guarded cleanup write is a no-op or replaces the date fields by exactly what cleaning makes of the document at that moment |
| ScheduleCleanup.HandleCleans | backend/cron/cleanupNonWorkingDays.js:70-87 | A document that is still as it was read, with no date field missing, is cleaned: no date before the day is left in any of the three fields, and dates from the day on are as they were |
| ScheduleCleanup.HandleOutcome | backend/cron/cleanupNonWorkingDays.js:72-86 | Nothing is written exactly when the document is no longer as it was read or cleaning would leave it as it is |
| ScheduleCleanup.PassedOverIsClean | backend/cron/cleanupNonWorkingDays.js:62-68 | The query passes over exactly the documents with nothing in any date field |
| ScheduleCleanup.UndisturbedJobCleansAll | backend/cron/cleanupNonWorkingDays.js:55-94 | An execution that nobody disturbs reads every selected document, in any order, and handles each; afterwards no stored document with all its date fields has a past date left |
| ScheduleCleanup.OnlyWholeDocumentsChange | backend/cron/cleanupNonWorkingDays.js:22-26 | A document that lacks one of the date fields is never rewritten |
| ScheduleCleanup.NoEditIsLost | backend/cron/cleanupNonWorkingDays.js:70-87 | In every interleaving of edits with any number of cleanups, each date field is the users' own or that cleaned for one of the days, and nothing dated on or after all those days is lost, altered or brought back |
| SlotSearch.FindSlotForDate | backend/src/utils/barberCardAvailability.js:211-252 | Finds the least start on the ten-minute grid that passes the search's own tests, whatever the duration, and nothing exactly when none does; for a positive duration that is the least start after now that getScheduleSlotError accepts for the same hours and that overlaps no blocking booking |
| SlotSearch.IsBooked | backend/src/utils/barberCardAvailability.js:229-244 | True exactly when some blocking booking of the day overlaps in the sense of slotOverlaps |
| SlotSearch.PassesIsFree | backend/src/utils/barberCardAvailability.js:221-245 | A start is after now, accepted by the booking validator's hours check and clear of blocking bookings exactly when the duration is positive and the search's own tests pass |
| SlotSearch.SearchContexts | backend/src/utils/barberCardAvailability.js:282-327 | The earliest time over all contexts, ties to the first; without one, whether some context had a schedule at all |
| SlotSearch.GetTodayFirstAvailableSlot | backend/src/utils/barberCardAvailability.js:254-327 | The outcome for a list of contexts, searched with the shortest active service, with every early exit |
| SlotSearch.ShortestDuration | backend/src/utils/barberCardAvailability.js:269-277 | The least usable duration, if there is one |
| SlotSearch.ShorterFits | backend/src/utils/barberCardAvailability.js:221-225 | A start free for a slot is free for a shorter one |
| SlotSearch.ShortestMissesNothing | backend/src/utils/barberCardAvailability.js:277-310 | Whenever any active service has a slot today, the search answers with a time, and none later |
| SlotSearch.SearchAgainstValidator | backend/src/utils/bookingSlotValidation.js:87-104 | Exactly where the search's hours and the validator's differ: an override on a day off, and a day without an override, an explicit weekday or a usable default |
| SlotSearch.WeekdaysCount | backend/src/utils/bookingDateTime.js:25-32 | The weekday of a date follows by counting days from 1970-01-01, a Thursday |
| SlotSearch.HoursOfDate | backend/src/utils/barberCardAvailability.js:157-186 | The hours searched on a date from today on, in terms of the stored schedule: those of its override, none on a day off, those of its weekday's entry if that counts, else those of the default schedule, if it is usable or the weekday counts as explicit |
| SlotSearch.OffersInNumbers | backend/src/utils/barberCardAvailability.js:211-244 | A start is on offer exactly when it is on the ten-minute grid from opening on, later than now, ends by closing time, keeps clear of the break, and meets no pending, accepted or confirmed booking of the day |
| SlotSearch.WantedInNumbers | backend/src/utils/barberCardAvailability.js:269-275 | The durations searched are the positive ones of active services, with 20 minutes for a missing, zero or unreadable one |
| SlotSearch.ExactSourceOfSchedule | backend/src/utils/barberCardAvailability.js:188-209 | A schedule counts as one exactly when, from today on, it has an override or a day off, or a weekday that counts and is closed or has hours, or a usable default |
| SlotSearch.AnswerIsBookable | backend/src/utils/barberCardAvailability.js:277-312 | The answer names a context and a minute later than now on Armenia's today that lies, with the slot's whole length, within that context's hours, clear of its break and of every booking that counts |
| BookingUtils.AcceptedSlotKeepsItsMinutes | backend/src/utils/bookingSlotValidation.js:100-115 | A slot the hours check accepts lies within its day, so it keeps all its minutes exactly when its duration is whole |
| BookingUtils.SlotErrorExactly | backend/src/utils/bookingUtils.js:66-102 | Which of the three answers the hours check gives, and when it accepts |
| BookingUtils.SlotMinutesExactly | backend/src/utils/bookingUtils.js:198-214 | The minutes of a slot are the whole ones it lasts, up to midnight |
| CreationLock.OneAtATimeInOrder | backend/src/utils/bookingSlotValidation.js:132-153 | Tasks on one key never overlap and start and end in the order of the calls, also when they throw |
| CreationLock.EntryWhileBusy | backend/src/utils/bookingSlotValidation.js:139-151 | The map has an entry for a key exactly while a task on it is queued or running |
| CreationLock.NoDeadlock | backend/src/utils/bookingSlotValidation.js:142-152 | While a call is unfinished, some call on its key, no later than it, runs or is free to start |
| CreationLock.EveryCallCanFinish | backend/src/utils/bookingSlotValidation.js:139-152 | Every call can be brought to its end, with whatever outcome its task has, by starting and finishing calls alone |
| CreationLock.NewCallWaits | backend/src/utils/bookingSlotValidation.js:133-140 | A new call waits behind all others, with its key in the map |
| CreationLock.BookingCreationLocks.Enter | backend/src/utils/bookingSlotValidation.js:133-140 | Queues behind the promise found under the key |
| CreationLock.BookingCreationLocks.Start | backend/src/utils/bookingSlotValidation.js:142-145 | Starts the task once that promise has settled |
| CreationLock.BookingCreationLocks.Finish | backend/src/utils/bookingSlotValidation.js:146-152 | Releases, and forgets the key only if no later call took it over |
| ScheduleMigration.MigrationResumes | backend/migrations/migrateScheduleToPerSalon.js:43-97 | Stopped after any single write and run again, the migration ends with the same documents and outcome, and makes just the writes that were left |
| ScheduleMigration.SuccessIsComplete | backend/migrations/migrateScheduleToPerSalon.js:52-88 | On success no legacy schedule is left, each barber that had one has exactly one schedule per approved salon with the five fields, and other documents are as they were |
| ScheduleMigration.SecondRunDoesNothing | backend/migrations/migrateScheduleToPerSalon.js:43-44 | Run again after success it writes nothing |
| ScheduleMigration.RejectedBeforeAnyWrite | backend/migrations/migrateScheduleToPerSalon.js:46-75 | A legacy schedule that fails a check ends the run before any write for it, unchanged |
| ScheduleMigration.CopiesLackExplicitDays | backend/migrations/migrateScheduleToPerSalon.js:7-16 | A copy equals its legacy schedule but for the salon exactly when that has no explicitWeeklyDays |
| ScheduleMigration.ScheduleCollection.MigrateOne | backend/migrations/migrateScheduleToPerSalon.js:76-87 | The writes for one schedule, one by one, are the specified ones |
| ScheduleMigration.ScheduleCollection.MigrateScheduleToPerSalon | backend/migrations/migrateScheduleToPerSalon.js:39-96 | The loop leaves the specified documents and outcome, a dry run changes nothing, and the counters add up |
| ScheduleMigration.PrimaryIsApproved | backend/migrations/migrateScheduleToPerSalon.js:24-37 | The salon that takes over the legacy schedule is one of the approved ones |
| ScheduleMigration.ApprovedAppend | backend/migrations/migrateScheduleToPerSalon.js:25 | The approved memberships are those with that status, in order |
| ScheduleMigration.TargetsFoundExactly | backend/migrations/migrateScheduleToPerSalon.js:24-35 | Targets are found exactly when some memberships are approved, each of those names a salon, no two the same, and at most one is primary |
| ScheduleMigration.TargetsAreApproved | backend/migrations/migrateScheduleToPerSalon.js:36 | The targets are the salons of the approved memberships; the primary one is that of the primary membership, or without one that of the first |
| ScheduleMigration.CheckPassesExactly | backend/migrations/migrateScheduleToPerSalon.js:47-75 | The checks pass exactly for an existing barber with targets whose salons all exist, with no two schedules for one of them and none that differs; else the first that fails names the error |
| WorkHistory.ClassifyHistory | backend/migrations/fixWorkHistory.js:27-77 | Succeeds exactly when the history resolves, names no salon twice and every date it needs is known; returns the corrected history and whether it differs; each error says what failed |
| WorkHistory.CurrentIsApproved | backend/migrations/fixWorkHistory.js:42-75 | The salons with a current entry are exactly the approved ones, and current entries have no end date |
| WorkHistory.NothingIsLost | backend/migrations/fixWorkHistory.js:43-75 | No entry is dropped, renamed or moved, entries of approved salons become current and open-ended, past entries of others are untouched, and those closed now end when they said, or else when the barber was last updated or created |
| WorkHistory.CorrectedIsUnique | backend/migrations/fixWorkHistory.js:29-64 | No salon has two entries |
| WorkHistory.AddedForMembership | backend/migrations/fixWorkHistory.js:58-63 | Every entry behind the old ones was added for an approved membership of a salon the history does not name, with the salon's name and the date of joining, or else of the barber's creation |
| WorkHistory.MembershipIsAdded | backend/migrations/fixWorkHistory.js:58-63 | And every such membership has its entry there |
| WorkHistory.ApprovedAre | backend/migrations/fixWorkHistory.js:18 | The approved memberships are those with that status |
| WorkHistory.SecondRunChangesNothing | backend/migrations/fixWorkHistory.js:65-76 | A second application reports no change, whatever the time of the save between |
| WorkHistory.ApprovedSalonsFor | backend/migrations/fixWorkHistory.js:17-25 | Returns the approved memberships, or refuses exactly the malformed ones |
| WorkHistory.IndexHistory | backend/migrations/fixWorkHistory.js:30-41 | Indexes the entries, or names what is unresolved or repeated |
| WorkHistory.OpenApproved | backend/migrations/fixWorkHistory.js:45-64 | Reopens the entries of approved salons and adds the missing ones, or reports the missing start date |
| WorkHistory.CloseOthers | backend/migrations/fixWorkHistory.js:65-75 | Closes the other current entries, or reports the missing end date |
| WorkHistory.FindEntry | backend/migrations/fixWorkHistory.js:50 | Finds the first entry of a salon |
| MembershipBackfill.EligibleExactlyWhenProven | backend/scripts/auditLegacySalonFieldsHelpers.js:366-395 | A user is eligible exactly when the legacy data proves it: a barber, neither owner nor admin of an existing salon, a known status, no membership yet, and no join request that says otherwise |
| MembershipBackfill.MembershipSaysWhatLegacySays | backend/scripts/auditLegacySalonFieldsHelpers.js:362-396 | The membership of a decision names the user's own legacy salon and status; it is primary and dated by the user's creation exactly when approved, of the staff, accepted when approved, and works as a specialist unless rejected |
| MembershipBackfill.BackfillWritesWhatLegacySays | backend/scripts/backfillLegacySalonMemberships.js:91-111 | After a backfill of unchanged users each eligible one has just that membership and a new version, and nothing else has changed |
| MembershipBackfill.StatesExactly | backend/scripts/auditLegacySalonFieldsHelpers.js:374-379 | Who is skipped, malformed or an orphan, in terms of the stored user |
| MembershipBackfill.CandidatesExactly | backend/scripts/auditLegacySalonFieldsHelpers.js:380-398 | Which of the barbers with an existing legacy salon are existing or in conflict; the rest but the eligible is ambiguous |
| MembershipBackfill.ReasonsAreTrue | backend/scripts/auditLegacySalonFieldsHelpers.js:373-398 | The reason of a decision is true and heads its blockers; the blockers of a candidate are all that stands in its way; the latest join request is cited exactly when a candidate is left in conflict or ambiguous |
| MembershipBackfill.EligibleBecomesExisting | backend/scripts/auditLegacySalonFieldsHelpers.js:394-396 | After the update reclassifying finds the very same membership in place |
| MembershipBackfill.FoundIsLatest | backend/scripts/auditLegacySalonFieldsHelpers.js:351-361 | The request found is one of this user and salon, readable, and none is later, by update, creation and id; with distinct ids the latest is found whenever it is readable |
| MembershipBackfill.RequestOrderIsIrrelevant | backend/scripts/auditLegacySalonFieldsHelpers.js:351-361 | With distinct request ids the decision does not depend on the order of the requests |
| MembershipBackfill.CollectBlockers | backend/scripts/auditLegacySalonFieldsHelpers.js:380-388 | The blockers, in the order they are found, each once |
| MembershipBackfill.BlockedHaveBlockers | backend/scripts/auditLegacySalonFieldsHelpers.js:373-398 | A decision lists blockers exactly when its state is a blocking one |
| MembershipBackfill.BuildBackfillPlan | backend/scripts/backfillLegacySalonMemberships.js:71-87 | Counts every state and plans exactly the eligible users |
| MembershipBackfill.BuildMigrationAudit | backend/scripts/auditLegacySalonFieldsHelpers.js:401-413 | Counts the same states, and has blocking issues exactly when some user is in a blocking state |
| MembershipBackfill.EachUserCountsOnce | backend/scripts/auditLegacySalonFieldsHelpers.js:402-408 | Each user counts once, under the name of their state |
| MembershipBackfill.CountsPartition | backend/scripts/auditLegacySalonFieldsHelpers.js:402-412 | The counts add up to the scanned users |
| MembershipBackfill.AllOrNothing | backend/scripts/backfillLegacySalonMemberships.js:63-105 | A transaction completes exactly when every planned user still has what its snapshot took, null memberships also matching none; then exactly the planned users change, each to its one new membership |
| MembershipBackfill.WriteIsAllOrNothing | backend/scripts/backfillLegacySalonMemberships.js:91-111 | Through any interruptions: success is one whole application of the plans, failure leaves the users as others left them; the returned count is that of the plans and of the updates interrupted attempts had made |
| MembershipBackfill.UserCollection.WriteBackfillPlan | backend/scripts/backfillLegacySalonMemberships.js:91-111 | The retried transaction leaves the specified users and count |
| MembershipBackfill.SecondBackfillWritesNothing | backend/scripts/backfillLegacySalonMemberships.js:123-150 | After a backfill of unchanged users every eligible one is existing, no other changed, and a second one finds none eligible |
| SocketExpiry.OneTimerAndItFits | backend/src/socket.js:184-223 | At most one timer is live, it belongs to the current lifecycle, every delay is between 1 and 2^31-1, and an uncompleted lifecycle always has its live timer |
| SocketExpiry.DisconnectsOnceAndNotEarly | backend/src/socket.js:171-182 | A lifecycle disconnects for expiry at most once and never before a valid expiry |
| SocketExpiry.GoesOnExactlyWhileValid | backend/src/socket.js:156-222 | Whenever a lifecycle is installed or its live timer fires, it goes on, with a new timer of the right length, exactly if the expiry is a safe integer that lies ahead, and else ends with one disconnect |
| SocketExpiry.StaleCallbackIsInert | backend/src/socket.js:207-217 | A callback acts exactly when its timer is live; that of a replaced or completed lifecycle or an old generation changes nothing |
| SocketExpiry.RearmingEnds | backend/src/socket.js:197-218 | With punctual timers and a fixed expiry, a lifecycle sets at most the remaining time over 2^31-1, rounded up, timers |
| SocketExpiry.AuthSocket.ArmSocketExpiryTimer | backend/src/socket.js:183-222 | Arms, or disconnects when the expiry is invalid or has come |
| SocketExpiry.AuthSocket.DisconnectSocketForAuthExpiry | backend/src/socket.js:171-181 | Completes the lifecycle, clears its timer and disconnects, once |
| SocketExpiry.AuthSocket.ClearSocketExpiryTimer | backend/src/socket.js:160-169 | Clears the current lifecycle's timer |
| SocketExpiry.AuthSocket.TimerFired | backend/src/socket.js:207-217 | Arms again only for the current lifecycle's current generation |
| SocketExpiry.AuthSocket.Disconnected | backend/src/socket.js:240-247 | Completes the current lifecycle and clears its timer |
| SocketExpiry.AuthSocket.InstallAuthenticatedSocketLifecycle | backend/src/socket.js:224-255 | Retires the lifecycle there is, installs and arms a new one, and says whether it lives |

## Left out

- Services the code imports whose behaviour lies elsewhere: seat capacity, booking creation, the slot-hold service, refresh sessions, payments and event registration.
- Express controllers, routes, middleware, logging, Redis wiring, uploads and the React front end.
- MongoDB beyond atomic conditional updates, unique keys, and snapshot transactions that abort when a document they write has changed; a `$currentDate` touch always counts as a write.
- JavaScript object inspection: prototypes, proxies, property descriptors, `toObject`, and null where a field normally holds an object or list, are not told apart from absence unless the model says so.
- Times beyond the 8.64e15 ms that `TimeClip` allows, except where the lease service itself checks them; host time zones that skip whole local days, so that `isDateKey` is civil-date validity.
- The length of a token in UTF-16 units: the lease model counts characters.
- LeaseRunner.RunnerProcess.CallStop: an error thrown by the scheduled task's own stop function, which stop rethrows after the same clean-up, is not carried along.
- LeaseRunner.RenewalDueBeforeExpiry: real timers may also fire late; only the delay asked for is modelled.
- LeaseRunner.StopResolvesQuiescent: assumes what the code does not enforce, that jobs await their fenced writes and use their context only while they run; QuietExactlyWhenAwaited says what that costs.
- LeaseRunner.StartIsSafeExactlyWhen: the reactions to the end of a tick's promise run one after the other with nothing between them; a call of stop made by another reaction in that instant is not told apart from one made before or after it.
- LeaseExclusion.AtMostOneLiveHolder: assumes what the code does not enforce, one clock and one ttl for all runners, and jobs that await their fenced writes.
- CategoryIntegrity.Session.PersistServiceWithCategoryReference: the persist callback is taken to save one service with the category it is given.
- BookingSlotHolds.HoldCollection.Backfill: booking ids are distinct, as the database makes them; bookings and holds do not change between the reads and the writes of one run, and creating the indexes afterwards is not modelled.
- SlotSearch.GetTodayFirstAvailableSlot: the older search over a list of salons, which merges several schedules into hours first and then runs the same loop, is left out.
- SlotSearch.SearchAgainstValidator: the validator's defaults are sanitized and merged with a salon entry's; here both sides use the schedule's own.
- ScheduleUtils.NormalizeKeepsDay: a stored default of null, on which the code throws, is not modelled; nor are the sanitizers that check schedules before they are stored.
- ScheduleMigration.MigrationResumes: nothing else writes schedules, users or salons while the migration runs or before it is run again.
- ScheduleMigration.SuccessIsComplete: fields are equal as `same` compares them, up to the order of keys.
- WorkHistory.ClassifyHistory: asks for the name of every approved salon, which its caller has looked up; left out are the loop over all barbers around it, its counters and its saves.
- MembershipBackfill.BuildMigrationAudit: the final sorting of the list of blocked users.
- SocketExpiry.RearmingEnds: assumes that timers do not fire early and the expiry does not change; the other socket results need neither.
- Price, voucher and loyalty arithmetic, permission predicates, onboarding flags, the active-seat plan, media backfills and the report of legacy findings: true but easier, or mostly effects on files.
