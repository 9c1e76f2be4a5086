# go-job: the execution protocol, the cron engine, dispatch and cutover, in Dafny

go-job is a distributed job scheduler: any number of scheduler instances share one coordination
database per tenant and hand work to executors over gRPC. This project models the parts of it that are
hard to get right and proves what they promise, over every run, every input and every interleaving.

| modules | what they model |
|---|---|
| `Machine`, `Rows`, `Transactions` | machine words, the rows of a tenant's schema, and the net effect of every store transaction |
| `Store` | the store as a class: each transaction statement by statement, with rollback, proved equal to its net effect |
| `Protocol`, `Preservation`, `RowSteps`, `Runs` | all transactions as one transition system, its inductive invariant, and the automaton every execution row follows |
| `Claiming`, `Holding`, `Landing`, `Operating` | what every kind of step does in every run, column by column, and exactly when |
| `Ownership`, `Budgets`, `Reports`, `Outcomes`, `Reclaim`, `Requests` | who owns a job, what is charged, what a reported result does, how held work is reclaimed and retired, what a request id serves |
| `PollLoop`, `PollPace`, `PollDelay` | the fixed-delay loop: what keeps it going, one pass at a time, the delay it declares and the delay it gets |
| `Schedules`, `Windows`, `CronFires`, `CronDrift` | schedules that only look forwards, the bisection that looks back, the fate of every cron fire, and what recomputation does to it |
| `Calendar`, `Almanac`, `Zones`, `Fires`, `Cron`, `CronFacts`, `CronEngine` | the calendar, wall clocks with daylight saving, what it means to fire, the search for the next fire, the schedule it amounts to |
| `CronText`, `CronParse`, `CronMeaning` | the text of an expression: words, numbers and names, the tables the fields denote, and what they say of a date and time |
| `Timetable` | the parts together, from the text of an expression to the execution of each of its matches |
| `Dispatch` | handing an attempt to executors over a network that loses requests and replies |
| `Cutover` | re-pointing a tenant at another schema while instances poll the registry |

A run of the protocol (`Protocol.Run`) is a sequence of worlds joined by transactions. The arguments of a
transaction are arbitrary, so every stale snapshot and every order of instances is a run. The database
clock never goes back; business time is whatever the caller's clock says. Names, tokens and instance ids
are opaque identities. Times of ownership are seconds of the database clock, business instants are
nanoseconds, and the two are never compared. Of schedules a run assumes only that the next fire is later
than the instant asked about, which `Timetable.CompilesForward` proves of every accepted expression.

## Where the code and the property part

- The poll loop is not conserved by one step. A claim that finds a pass past its runtime cap ends it
  without restarting the poll clock (internal/store/claim.go:295-299, internal/store/claim.go:471-487), so
  a refused pass claimed again after its cap stops the loop. `PollLoop.LoopCanBeLost` is such a run,
  `PollLoop.ClaimLosesLoopIff` says exactly which claims do it.
- The cron search starts its cursor at the wall clock of the next whole second
  (internal/cron/cron.go:295-298). If that second is the instant clocks go forward over a matching reading,
  and does not match itself, the fire at that instant is missed. `Fires.AnswerIsFirstIff` gives the
  exact condition, `CronFacts.SpringForwardIsOverlooked` a daily job that meets it.
- A recomputation does not check that the row is still out of date (internal/store/materialize.go:407-422).
  Made late on a row that already ticks, it drops a fire exactly when the row's clock is already due, even
  within the misfire grace: `CronFires.StaleRecomputeDropsIff`. `CronDrift.LateRecomputeDropsFire` is a run
  in which two instances see one edit and the second drops a fire.
- An operator's retry of a dead pass puts it beside its own loop when the loop has already moved on
  (internal/store/admin.go:919-976): `PollPace.RetryBreaksPaceIff` and the run `PollPace.RetryBesideLoop`.
- The cutover gate counts observations no older than three staleness limits, and an admission is announced
  once. An engine published more than one limit after its announcement can act at the instant the tenant is
  re-pointed, because a pass that began before the publication refreshes the fence without reporting it:
  `Cutover.LatePublicationSlipsThrough` gives such a run for every greater age, and
  `Cutover.NoEngineAtCutover` proves that publication within one limit is enough.
- A fixed delay is tested before it is multiplied into nanoseconds (job.go:193-197), and the product wraps.
  Beyond 9223372036854 milliseconds a poller gets a shorter delay than it declares, possibly none: `18446744073709`
  is admitted and runs flat out. `PollDelay.DelayIsDeclaredIff` gives the bound, `PollDelay.WrappedDelayIsShort` a
  run for every definition beyond it.
- The step of a cron field is bounded from below only (internal/cron/cron.go:148), and the cursor is a machine word
  (internal/cron/cron.go:182-184). Where the first value plus the step exceeds it, the cursor wraps below the table
  and the parser crashes: `0 0 0 */9223372036854775807 * *`. `CronText.ParseText` says exactly which texts do this,
  `CronText.GreatestStepCrashes` is that text.
- The letters of other cron dialects are refused anywhere in a field (internal/cron/cron.go:84-88), before
  names are looked up. So `WED` and `JUL` are refused while `wed` and `Jul` are read; no other name is
  affected: `CronText.NamesAreReadIff`.

## Model

| member | source | states |
|---|---|---|
| `Store.Store.Claim` | internal/store/claim.go:253-389 | the claim transaction, branch by branch (missing rows, wrong execution, past cap, paused or unserved, held, spent budget, acquired), leaves the tables and gives the answer of its net effect, or rolls back whole |
| `Store.Store.Acquire` | internal/store/claim.go:326-383 | the lock is taken before the execution is marked; if the mark finds no ready row with budget, both are as before |
| `Store.Store.ApplyContention` | internal/store/claim.go:394-439 | a held job skips a scheduled occurrence under FORBID, settling its poll loop, and defers everything else |
| `Store.Store.Accept` | internal/store/claim.go:505-529 | acceptance charges one attempt and starts the silence budget, only while dispatching under this token and epoch |
| `Store.Store.Refuse` | internal/store/claim.go:545-600 | a refusal frees the lock and returns the row to ready, or to dead past its cap, charging nothing; rolled back unless the row was dispatching under this hold |
| `Store.Store.Renew` | internal/store/lease.go:38-88 | both leases are extended together, only by the current owner before expiry, or neither |
| `Store.Store.ExtendDeadline` | internal/store/lease.go:96-118 | progress extends the silence budget only for the current hold before its cap |
| `Store.Store.Complete` | internal/store/complete.go:80-127 | release, charge, terminal compare-and-set, attempt record and poll clock, in that order, all or none |
| `Store.Store.Retry` | internal/store/complete.go:149-203 | the same for a retryable failure: ready with a fresh cap while budget is left, dead otherwise |
| `Store.Store.ChargeUnacceptedAttempt` | internal/store/complete.go:220-241 | an attempt is charged only if its acceptance was never recorded |
| `Store.Store.ReleaseJobLock` | internal/store/complete.go:248-276 | the lock is freed only under its token and epoch, and the success or failure time stamped |
| `Store.Store.SettlePollClock` | internal/store/complete.go:297-332 | the poll clock restarts one computed delay from now, forwards or backwards, exactly when the named row is an ended pass of a fixed-delay job; milliseconds that are not positive refuse the transaction |
| `Store.Store.RecordAttempt` | internal/store/complete.go:390-425 | the first record of a (key, token) pair stays |
| `Store.Store.Adopt` | internal/store/recovery.go:135-236 | an expired hold below its cap passes to a new owner at the next epoch, optionally promoting a start nobody recorded; otherwise nothing changes |
| `Store.Store.Resolve` | internal/store/recovery.go:253-375 | an expired hold is freed and its row lands cancelled, dead or ready, at the next epoch, with the attempt recorded as unknown |
| `Store.Store.FenceTimedOut` | internal/store/recovery.go:487-564 | the cap fence ends the attempt at the next epoch, keeping its token on the row |
| `Store.Store.ExpireSilent` | internal/store/recovery.go:702-769 | the silence fence ends the attempt only if the silence budget is still exceeded under the lock |
| `Store.Store.ReleaseAsOwner` | internal/store/recovery.go:831-903 | an owner ends its own attempt only while its lease is live |
| `Store.Store.CreateJob` | internal/store/admin.go:119-164 | a new job gets a definition and a state row with the clock its kind needs, if enabled; of a delay only the milliseconds are asked to be positive |
| `Store.Store.UpdateJob` | internal/store/admin.go:456-488 | an edit at the version seen replaces the definition and moves the version, keeping retirement; of a delay only the milliseconds are asked to be positive |
| `Store.Store.Retire` | internal/store/admin.go:674-739 | two sweeps cancel pending executions and ask started ones to stop, and the definition is retired |
| `Store.Store.Trigger` | internal/store/admin.go:751-832 | a manual run: a request already served changes nothing, one served for another job or a retired job is refused, anything else creates one ready execution |
| `Store.Store.AuthorizedRetry` | internal/store/admin.go:919-976 | a dead execution of an unretired job becomes ready with exactly one more attempt and no cap |
| `Store.Store.MaterializeCron` | internal/store/materialize.go:141-309 | a due cron row creates at most one execution and moves its clock, through the bisecting lookup and the counting loop, for every schedule that goes onwards |
| `Store.Store.Decide` | internal/store/materialize.go:226-275 | the fire to create and the instant the clock moves past; the missed count is the smaller of the limit and the number of steps missed, flagged exactly when it was cut |
| `Store.Store.MaterializePoll` | internal/store/materialize.go:325-400 | a due pass is created and the clock cleared together; a reused key aborts |
| `Store.Store.Recompute` | internal/store/materialize.go:407-422 | both clocks and the version are recomputed from the definition |
| `Store.Store.NormalizeClocks` | internal/store/materialize.go:434-501 | each kind of definition gets its clock and only its clock; a poller keeps its due time or waits for its outstanding pass |
| `Store.Store.InsertExecution` | internal/store/materialize.go:617-638 | the unique key decides whether anything is inserted |
| `Requests.OneExecutionPerRequest` | internal/store/admin.go:751-832 | in every world of every run two executions that serve one request id are one execution, so a repeated request starts nothing twice and never serves a second job |
| `Preservation.StepKeeps` | internal/store/claim.go:326-383 | every transaction keeps the invariant: coupling of the two rows, leases, caps, budgets, distinct tokens and keys, attempts recorded only for issued tokens |
| `Preservation.ClaimKeeps` | internal/store/claim.go:253-389 | a claim, in all its outcomes, keeps the invariant |
| `Preservation.AdoptKeeps` | internal/store/recovery.go:166-230 | an adoption keeps the invariant, both rows moving to the same epoch and lease |
| `Preservation.RetireKeeps` | internal/store/admin.go:674-739 | retirement, which rewrites every execution of a job, keeps the invariant |
| `Runs.Reachable` | internal/store/store.go:58-77 | the invariant holds in every world of every run from an empty installation |
| `RowSteps.StepMoves` | internal/store/complete.go:86-126 | every step leaves each row alone or moves it along the row automaton: from which status to which, what is charged, what happens to token, epoch and cap |
| `RowSteps.GuardedWrite` | internal/store/complete.go:105-107 | a write presented under a hold changes nothing unless a row is in flight under exactly that hold, and then rewrites only that row |
| `RowSteps.StepInserts` | internal/store/materialize.go:617-638 | a row appears only ready, unowned and uncharged, for a job not retired |
| `Claiming.DispatchedIff` | internal/store/claim.go:253-389 | in every run a row enters dispatching at a step if and only if the step claims it and it is ready, inside its budget and its cap, and its job is not paused, enabled, unretired, served and free |
| `Claiming.ClaimAnswers` | internal/store/claim.go:295-439 | a claim of a ready row answers expired, acquired, skipped or deferred, each exactly under its own condition on the columns: past its cap; claimable; held under FORBID and not by hand; closed, or held otherwise |
| `Claiming.ClaimLaw` | internal/store/claim.go:253-467 | in every run a claim leaves each column of the row and of its job as its condition says, and touches nothing else |
| `Claiming.ClosedIsNotDispatched` | internal/store/claim.go:306-310 | while a job is paused, disabled or retired nothing of it is newly dispatched, whoever claims it |
| `Holding.HoldLaw` | internal/store/lease.go:38-118 | in every run acceptance, refusal, retargeting, renewal, progress and adoption have their effect, column by column, under exactly the hold and the clock they need; a renewal moves both leases to the clock it reads plus the lease given |
| `Landing.LandingLaw` | internal/store/recovery.go:253-432 | in every run each of the six endings lands the row, the job's row and history column by column under exactly its condition; recovery lands cancelled if a cancel was asked for, then dead of its timeout past the cap, then dead of a spent budget, else ready |
| `Landing.LandedStays` | internal/store/complete.go:105-107 | a row that has ended stays exactly as it is until an operator revives it |
| `Landing.RecoveredPastCapIsOver` | internal/store/recovery.go:421-432 | an attempt recovered past its cap is cancelled if that was asked for, otherwise dead of its timeout, until an operator revives it |
| `Operating.OperatorLaw` | internal/store/admin.go:119-976 | in every run making, editing, pausing and retiring jobs, triggering, cancelling and reviving executions, recomputing clocks and starting poll passes have their effect column by column under exactly their conditions |
| `Operating.TickLaw` | internal/store/materialize.go:197-303 | in every run a materialization of a ticking job does nothing before it is due or while work by hand waits, creates its fire on time, nothing under SKIP when late, and under FIRE_ONCE the latest fire missed within the horizon |
| `Operating.UntickedLaw` | internal/store/materialize.go:141-196 | a materialization of a job out of date recomputes it instead |
| `Ownership.OwnershipCoupling` | internal/store/claim.go:339-383 | in every world of every run, a job is held exactly when one of its executions is in flight; it is unique and its key, owner, token, epoch and lease are the state row's |
| `Ownership.GrantsAreOrdered` | internal/store/claim.go:328 | a job held under a (token, epoch) it was not held under before has a strictly higher epoch than then |
| `Ownership.ExecutionEpochs` | internal/store/recovery.go:327 | an execution's epoch never falls and never exceeds its job's by more than one; its identity never changes |
| `Ownership.LapsedForEver` | internal/store/recovery.go:166 | a hold that has lapsed never becomes live again |
| `Ownership.ZombieFenced` | internal/store/recovery.go:288-344 | once a hold has been released, adopted or resolved, no write under it changes any table in any continuation |
| `Ownership.EvictionEndsHold` | internal/store/recovery.go:288-344 | adopting, resolving, fencing or releasing needs the hold to be live and ends it |
| `Budgets.ChargedAtMostOnce` | internal/store/claim.go:505-529 | while one claim lasts, at most one attempt is charged, and the status says whether it was |
| `Budgets.ReportChargesOnce` | internal/store/complete.go:220-241 | a claim that ends in a reported result charged exactly one attempt, or none if a cancel landed before acceptance |
| `Budgets.UnacceptedStaysUncharged` | internal/store/complete.go:446-488 | from a cancel request on, nothing charges the claim any more and it stays cancel-requested until it ends |
| `Budgets.BoundedRetries` | internal/store/complete.go:162-182 | an execution nobody cancels, retires or revives is retried at most max_attempts times and recovered at most max_recoveries times |
| `Budgets.CapIsFixed` | internal/store/claim.go:375 | no claim, refusal, renewal, progress report, cancel or adoption moves the runtime cap |
| `Budgets.CapGatesSteps` | internal/store/complete.go:180-182 | past its cap a row is not dispatched, adopted or extended and records no reported result; a claim can only end it |
| `Budgets.NoDispatchPastCap` | internal/store/claim.go:571-585 | refusal cycles buy no time: past the cap nothing dispatches the row until a new budget is granted |
| `Budgets.InFlightIsCapped` | internal/store/claim.go:375 | every in-flight row of every run has a cap |
| `Budgets.FencedOnlyPastCap` | internal/store/recovery.go:487-564 | a timeout fence made under the hold its scan read is made past the cap, though the transaction does not re-check it |
| `Reports.HistoryIsPermanent` | internal/store/complete.go:390-425 | a recorded attempt is never changed or lost |
| `Reports.EndingQuiets` | internal/store/complete.go:86-126 | a committed ending records its attempt and leaves its token never in flight again |
| `Reports.EndedAtMostOnce` | internal/server/server.go:354-401 | at most one committed step ends the attempt a token names, whoever reports it and however often |
| `Reports.RecordedIsNotInFlight` | internal/store/complete.go:390-425 | no in-flight row carries a token already recorded |
| `Outcomes.UnrecordedInFlight` | internal/store/complete.go:390-425 | no attempt in flight is in history under any key |
| `Outcomes.EndingIsRecordedAs` | internal/store/complete.go:390-425 | history holds what the ending said of the attempt, with the executor, the charged attempt number and the time |
| `Outcomes.CompletionLands` | internal/store/complete.go:80-127 | a committed ending leaves the reported status and reason on the row, and moves the job's last success exactly if it succeeded, its last failure otherwise |
| `Reports.Classify` | internal/outcome/outcome.go:38-62 | only success counts as success, only a failure not called permanent is retried, and every decision is terminal |
| `Reports.AcknowledgedIsRecorded` | internal/server/server.go:334-402 | a report that is acknowledged, from history, by its write or by its second write, is in the history from the answer on |
| `Reports.CurrentReportCommits` | internal/outcome/outcome.go:82-99 | a report under the hold in flight, before its cap, always commits |
| `Reports.ReportSurvivesAdoption` | internal/server/server.go:432-448 | one adoption between a report's read and its write does not lose the result |
| `Outcomes.RecordedReportLands` | internal/outcome/outcome.go:38-99 | a report answered as recorded leaves the row success, cancelled, dead of its timeout, dead of a permanent failure, or ready for another attempt while one is left, as its disposition says, and history success exactly for a success |
| `Outcomes.RedeliveryIsAcknowledged` | internal/server/server.go:325-358 | a report delivered again after it was acknowledged is acknowledged again, whatever has become of the row |
| `Reclaim.NoStrandedHold` | internal/store/recovery.go:253-344 | whatever holds a job in any run can be reclaimed: past the cap the fence commits, past the lease the recovery commits, and either frees the job |
| `Reclaim.RetiredStays` | internal/store/admin.go:674-739 | no step of any run un-retires a job |
| `Reclaim.NeverClaimedAfterRetire` | internal/engine/passes.go:226-244 | after a retirement nothing of the job is claimed again in any continuation |
| `Reclaim.RetirementWindsDown` | internal/store/admin.go:712-735 | what has not ended is the execution in flight at the retirement, and it becomes ready again only through a reported retry |
| `Reclaim.OneSurvivor` | internal/store/admin.go:712-735 | that execution is the only one |
| `PollLoop.StepKeepsLoop` | internal/store/complete.go:297-332 | every step but a claim that expires the only outstanding pass of a stopped clock keeps an in-date poller waiting or running |
| `PollLoop.LoopConserved` | internal/store/materialize.go:459-483 | in every run in which no claim expires the job's last pass, an enabled in-date poller always has its clock set or a pass outstanding |
| `PollLoop.ClaimLosesLoopIff` | internal/store/claim.go:295-300 | a claim loses the loop exactly when it expires the only outstanding pass while the clock is not set |
| `PollLoop.LoopCanBeLost` | internal/store/claim.go:471-487 | a run of five steps that ends with an enabled, in-date poller stopped |
| `PollPace.OnePassAtATime` | internal/store/materialize.go:349-394 | from the start of a run, or from any world where it holds, there are never two passes of a job outstanding, nor one while the next is scheduled, until a retry is made beside its loop |
| `PollPace.PaceKeptIff` | internal/store/materialize.go:349-394 | a step keeps one pass at a time if and only if it is not such a retry |
| `PollPace.RetryBreaksPaceIff` | internal/store/admin.go:919-976 | a retry of a dead pass puts it beside the loop exactly when it commits while the next pass is scheduled or another one outstanding |
| `PollPace.RetryBesideLoop` | internal/store/admin.go:919-976 | a run of five steps in which it does |
| `PollPace.EndedPassWaits` | internal/store/complete.go:297-332 | however a pass ends, its poller then waits for exactly one computed delay after |
| `PollPace.DelaySeparatesPasses` | internal/store/materialize.go:325-400 | the next pass of an unedited poller is scheduled at least one computed delay after the previous one ended, whatever happens to other jobs |
| `PollDelay.DelayIsDeclaredIff` | job.go:193-197 | the computed delay is the declared one if and only if it declares at most 9223372036854 milliseconds, and shorter otherwise |
| `PollDelay.AdmittedDelayIsDeclaredIff` | internal/admin/jobs.go:121-130 | of the pollers the operator API admits, exactly those that declare at most a day get the delay they declare |
| `PollDelay.RestartsAsDeclaredIff` | internal/store/complete.go:297-332 | in every run an ended pass restarts the clock the declared delay later if and only if the milliseconds are within the bound |
| `PollDelay.DeclaredDelaySeparates` | internal/store/materialize.go:325-400 | within the bound the next pass is scheduled at least the declared delay after the previous one ended |
| `PollDelay.WrappedDelayIsShort` | job.go:193-197 | beyond the bound every poller has a run in which the next pass comes sooner than declared, and at the very instant the last one ended if the product is not positive |
| `PollDelay.FlatOutIsAdmitted` | internal/admin/jobs.go:121-130 | 18446744073709 milliseconds pass the operator API's checks and are computed as a delay below zero |
| `Windows.Latest` | internal/cron/window.go:25-60 | the lookup the store makes, in a number of rounds logarithmic in the horizon; on an exact schedule it is the last fire an enumeration of the window finds |
| `Windows.LookupIsEnumeration` | internal/cron/window.go:25-60 | bisecting an exact schedule finds what stepping through every fire of the window finds, the empty window and the excluded end included |
| `Windows.HorizonRounds` | internal/cron/window.go:18-19 | the misfire horizon costs at most twenty-five rounds whatever the expression |
| `Windows.CountBetween` | internal/cron/window.go:72-90 | the count is the smaller of the limit and the number of steps in the window, exact if and only if nothing was cut; on an exact schedule it counts the window's fires |
| `Schedules.CountIsCardinality` | internal/cron/window.go:72-90 | stepping through an exact schedule counts each fire of the window once: the count is the size of the set |
| `CronFires.FiringOwes` | internal/store/materialize.go:226-275 | a pass moves its clock forwards to a fire, and every fire it passes is the one it creates or one its policy excuses |
| `CronFires.CatchUp` | internal/store/materialize.go:242-256 | the catch-up fire is the last one before the grace boundary, unless everything missed is older than the horizon |
| `CronFires.CronTickAt` | internal/store/materialize.go:197-303 | an advancing pass moves next_fire_at strictly forwards past fires it has accounted for |
| `CronFires.OthersKeepClock` | internal/store/materialize.go:555-568 | nothing but its own materialization or a recomputation moves a ticking job's clock |
| `CronFires.NoFireLost` | internal/store/materialize.go:209-303 | while a job of an exact expression ticks, and however often its clock is recomputed before it is due, every fire the clock has passed has its execution or was passed over with an excuse: under FIRE_ONCE, missed and represented by a later catch-up or older than the horizon |
| `CronFires.HarmlessAt` | internal/store/materialize.go:407-422 | a recomputation made before the clock is due keeps the job ticking, on that fire or an earlier one still to come |
| `CronFires.FireRunsOnce` | internal/store/materialize.go:668-670 | one fire of one job has at most one execution in any run |
| `CronFires.CreatedOnTime` | internal/store/materialize.go:199-212 | an execution is created for a fire of the expression, not before the clock and not in the future |
| `CronFires.NormalizedTicks` | internal/store/materialize.go:434-501 | a normalized cron row ticks from the first fire not before now |
| `CronFires.StaleRecomputeDropsIff` | internal/store/materialize.go:407-422 | recomputing a row that already ticks drops a fire exactly when its clock is already due |
| `CronDrift.LateRecomputeDropsFire` | internal/store/materialize.go:407-422 | a run of four steps, whatever the exact expression, in which two instances recompute after one edit and the second drops a fire one nanosecond late, with nothing created for it |
| `CronDrift.CreatedTicks` | internal/store/admin.go:119-164 | a new enabled cron job created with a fire of its expression ticks from that fire |
| `CronDrift.EditedTicks` | internal/store/admin.go:456-488 | an edit takes the row out of date, and the recomputation that follows makes it tick under the new definition |
| `Calendar.OrderAgrees` | internal/cron/cron.go:403-420 | comparing wall-clock values field by field is comparing their seconds |
| `Calendar.RoundTrip` | internal/cron/cron.go:388-396 | a wall-clock value and its seconds determine each other |
| `Calendar.JumpsSkipOnlyTheirStretch` | internal/cron/cron.go:422-485 | each cursor jump lands on the first value outside the month, day, hour, minute or second it leaves |
| `Calendar.NextSecondIsOneLater` | internal/cron/cron.go:422-429 | the smallest cursor move is one second, across every rollover |
| `Calendar.NextLeap` | internal/cron/cron.go:276-285 | a leap year comes within any eight years, centuries included |
| `Almanac.LeapDayIff` | internal/cron/cron.go:252-254 | February has its leap day every four years but for centuries that four hundred does not divide |
| `Almanac.MonthLengths` | internal/cron/cron.go:252-254 | the lengths of the twelve months |
| `Almanac.KnownMonday` | internal/cron/cron.go:256-262 | the first of January 2024 was a Monday |
| `Almanac.WeekdayAfter` | internal/cron/cron.go:256-262 | the day after any valid date, across months and years, is the next day of the week |
| `Almanac.WeekdayIsTheOnlyOne` | internal/cron/cron.go:256-262 | whatever counts weekdays from that Monday, one a day, agrees with the calendar on every date |
| `Zones.Resolve` | internal/cron/cron.go:332-356 | the instant returned is the first at which the wall clock has reached the reading |
| `Zones.GapEnd` | internal/cron/cron.go:367-380 | the bisection finds that instant for a reading that is never shown |
| `Zones.FirstShowing` | internal/cron/cron.go:345-352 | a reading shown twice stands for its first showing |
| `Zones.GapCloses` | internal/cron/cron.go:353-355 | a reading stands for another instant exactly when it is never shown, and then for the end of the gap around it |
| `Zones.JumpCollects` | internal/cron/cron.go:358-366 | all readings a forward jump leaves out stand for the jump |
| `Zones.StandsForOrdered` | internal/cron/cron.go:332-356 | resolution is monotone |
| `Cron.JumpOver` | internal/cron/cron.go:304-315 | a field that does not match rules out everything the cursor jumps over |
| `Cron.Step` | internal/cron/cron.go:304-323 | one move of the cursor skips no matching reading but the one it reports |
| `Cron.Search` | internal/cron/cron.go:293-325 | the search answers with the instant its first candidate reading stands for, or with nothing if every candidate lies beyond the limit |
| `CronEngine.Next` | internal/cron/cron.go:293-325 | there is an answer exactly when the expression matches anything; it is a whole second strictly later, and the least fire after the instant if and only if the search does not start where clocks went forward over a match |
| `CronEngine.CompiledSchedule` | internal/store/materialize.go:17-24 | every satisfiable expression in a regular zone compiles to a schedule that goes onwards, exact with the expression's fires if and only if no forward jump swallows a match |
| `CronParse.MarkPart` | internal/cron/cron.go:182-184 | a part marks the values its range and step denote and no others, or leaves the table and crashes, exactly when its first value plus its step exceeds a machine word |
| `CronParse.ParseInto` | internal/cron/cron.go:139-187 | a field is read, refused or crashed on exactly as its first part that is not fine says, and if all are fine its table is what they denote |
| `CronParse.RejectUnsatisfiable` | internal/cron/cron.go:210-232 | a table is accepted exactly when some wall-clock value matches it, or it is the one table with every date and no weekday, which nothing matches and no text denotes |
| `CronParse.Parse` | internal/cron/cron.go:79-128 | the fields are accepted, refused or crashed on, each exactly when: all parts fine and satisfiable, the first bad part ill formed or nothing matches, the first bad part an overrun; what is accepted becomes the tables denoted, with Sunday at both ends of the week |
| `CronParse.OneFate` | internal/cron/cron.go:139-187 | every list of fields is fine, refused or crashed on, and only one of them |
| `CronMeaning.PartMeans` | internal/cron/cron.go:139-187 | stepping through a part names exactly the values from its first to its last at a distance its step divides |
| `CronMeaning.TablesMean` | internal/cron/cron.go:256-273 | the tables of well-formed fields match a date and time exactly when the first field names its second, the second its minute, the third its hour, the fifth its month, and the day rule holds of the fourth and the sixth, seven being Sunday |
| `CronMeaning.ParseMeaning` | internal/cron/cron.go:79-128 | what the parser accepts matches exactly the dates and times the words of the text say, the first word being the seconds |
| `CronMeaning.HalfPastTwo` | internal/cron/cron.go:91-104 | thirty in the second field and two in the third is half past two, and nothing else |
| `CronText.ParseText` | internal/cron/cron.go:79-128 | a text is accepted, refused or crashed on, each with its exact condition on what the text reads as; what is accepted becomes the tables it denotes |
| `CronText.EveryDaysCrashesIff` | internal/cron/cron.go:182-184 | of all texts for midnight every so many days, exactly the one with the greatest step crashes the parser |
| `CronText.GreatestStepCrashes` | internal/cron/cron.go:148-184 | that text, written out, crashes the parser |
| `CronText.RoundTrip` | internal/cron/cron.go:79-205 | every list of numeric fields can be written as a text, and the text reads back as those fields |
| `CronText.NamesAreReadIff` | internal/cron/cron.go:84-88 | a month or weekday name, in whatever case, is read as its number unless it is Wednesday with a capital W or July with a capital L, which are refused |
| `CronText.NamedIff` | internal/cron/cron.go:50-57 | looking a name up finds its place in the list of months or of weekdays, and nothing else is a name |
| `CronFacts.MatchesSoon` | internal/cron/cron.go:276-285 | what matches once matches again within any eight years |
| `CronFacts.SearchNeverFails` | internal/cron/cron.go:299-303 | from any instant, the search limit is never what ends the search of a satisfiable expression |
| `Fires.AnswerIsFirstIff` | internal/cron/cron.go:293-325 | the answer is the least fire after the instant if and only if the search does not start where clocks went forward over a match; otherwise it misses that one fire and nothing else |
| `Fires.RepresentsIff` | internal/store/materialize.go:17-24 | the engine is the exact schedule the store relies on, with the expression's fires, if and only if no forward jump swallows a match without landing on one |
| `Fires.NoJumpNoLoss` | internal/cron/cron.go:295-298 | where clocks do not go forward nothing is overlooked |
| `CronFacts.SpringForwardIsOverlooked` | internal/cron/cron.go:295-298 | a daily half-past-two job loses its fire of the day clocks go from two to three, when asked in the last second before |
| `Timetable.CompilesForward` | internal/store/materialize.go:17-24 | whatever expressions the parser accepted, in any regular zone, the compiler meets the only assumption the protocol makes of it |
| `Timetable.MatchIsSaid` | internal/cron/cron.go:79-128 | the readings that match for a job are the dates and times its text says |
| `Timetable.NoMatchLost` | internal/store/materialize.go:209-303 | text to execution: every instant at which a wall-clock reading matching the job's text falls, and which the ticking job's clock has passed, has its execution or an excuse, if no forward jump swallows a match of that text |
| `Dispatch.Executor.Run` | internal/testexec/executor.go:123-188 | an executor starts an attempt exactly when it has the handler and room and knows nothing of it, declines exactly when it lacks the handler or is full, names the attempt it has otherwise, and never starts one twice |
| `Dispatch.Executor.Finish` | internal/testexec/executor.go:243-284 | a finished attempt is remembered with its time; only what finished more than ten minutes ago is forgotten |
| `Dispatch.RunKeeps` | internal/testexec/executor.go:135-182 | an executor that still knows the attempt starts it at most once, however often it is sent |
| `Dispatch.FinishKeeps` | internal/testexec/executor.go:276-284 | ending handlers, of this or other attempts, start nothing and forget nothing within ten minutes of the first send |
| `Dispatch.AnswerProves` | internal/dispatch/client.go:274-325 | a refusal proves the executor does not hold the attempt, an acceptance of this token proves it does |
| `Dispatch.PassingKeeps` | internal/engine/passes.go:446-466 | whatever other attempts, ending handlers and forgetting do meanwhile, nobody else starts this attempt, and within ten minutes of its first send nobody forgets it |
| `Dispatch.Dispatcher.Send` | internal/dispatch/client.go:224-258 | one call under any loss keeps the attempt with the recorded target; what gets through to a willing executor is accepted and to one unable refused, and what is lost is unknown; a failed connection counts as refusal only where nothing was ever sent |
| `Dispatch.Dispatcher.AttemptDispatch` | internal/engine/passes.go:443-582 | re-sends go to one executor, and the first send to get through to a willing one is accepted; a refusal in the end means nobody holds the attempt, an acceptance that the target does |
| `Dispatch.Dispatcher.Dispatch` | internal/engine/passes.go:331-440 | over any targets and losses, in every state passed through, only the recorded target may hold the attempt; if every earlier target declines, the first one to take it has it; a released attempt is held by nobody |
| `Dispatch.AtMostOneStart` | internal/engine/passes.go:354-440 | of all handlers ever started in the fleet at most one is this attempt's, at the recorded target |
| `Dispatch.FreshTokenIsSafe` | cmd/gojob/main.go:262-263 | a dispatch of a new token with the deployed re-send window starts where the promise above applies: the window ends before anybody may forget |
| `Cutover.ControlStore.Blockers` | internal/control/registry.go:452-495 | the blockers are exactly the live instances behind the generation or still busy |
| `Cutover.ControlStore.SetTenantDSN` | internal/control/registry.go:497-552 | the tenant moves exactly when its old schema was found quiet, it is disabled and no live instance blocks; its generation moves with it, and the step of the system does the same |
| `Cutover.StepKeeps` | internal/runtime/registry.go:232-438 | every step of passes, admissions, retirements and the control database keeps the invariant tying engines, observations and generations |
| `Cutover.RegistryKeeps` | internal/control/registry.go:403-430 | every change of the registry moves its generation on, and that keeps what the invariant says of every instance |
| `Cutover.RecentAt` | internal/runtime/registry.go:340-438 | in every run with prompt publication, an engine that claims is backed by an observation at most two limits older than its fence, and a pass that overlooked it read at most one limit after that observation |
| `Cutover.ActingBlocks` | internal/runtime/registry.go:340-375 | an engine that may act under a pass that kept it was reported at most two limits ago, at a generation that blocks |
| `Cutover.NoEngineAtCutover` | internal/control/registry.go:497-552 | if an instance never publishes an engine with an observation older than one staleness limit, no step that re-points the tenant finds it with an engine that may act |
| `Cutover.LatePublicationSlipsThrough` | internal/runtime/registry.go:388-438 | the bound is sharp: for every limit and every greater age of the observation at publication there is a run that re-points the tenant while the published engine may act |
| `Cutover.RepointsIff` | internal/control/registry.go:497-552 | a tenant is re-pointed if and only if its old schema was found quiet, it is disabled, and everybody heard of within three limits is quiet at its generation |
| `Cutover.CutoverSucceeds` | internal/control/registry.go:452-552 | a run in which an instance serves the tenant, drains after it is disabled and says so, and the tenant is re-pointed at once |
| `Cutover.PublishesNewestOnly` | internal/runtime/registry.go:488-621 | an instance never publishes an engine for a generation older than the newest it has read |

## Left out

- Store: contention on a row lock (SKIP LOCKED) is a transaction that changes nothing; driver errors, write counters, audit rows, failure texts and summaries are not modelled.
- Store.Store.CreateJob: the schema's limits on definitions and the test of the milliseconds are one predicate, refused as a protocol error; the operator API's limits on lease and delay are `PollDelay.Admitted`; the next fire of a new job is the caller's.
- Store.Store.AuthorizedRetry: names the row by its id, where the source uses the unique execution key.
- Execution keys are values, not strings: building, hashing and parsing them is not modelled, nor is the rounding of stored timestamps to whole seconds.
- Retention of finished rows, copying and syncing of definitions between tenants, parameter merging and description sync: easy, and they do not touch ownership.
- Engine passes other than dispatch (when a scan runs, recovery's question to the executor, load ordering, backoff, the local hold-time gate before a send): any of their store calls may happen at any time in a run.
- PollPace.DelaySeparatesPasses: an unedited, enabled definition, no retry beside the loop, and a pass not ended by claim-time expiry, which does not restart the clock.
- Operating.TickLaw: an exact expression; for another the search of the catch-up fire is the bisection of `Windows.Latest`.
- CronFires.NoFireLost: an unedited, enabled definition, an exact expression, and no recomputation after the clock is due; an edit starts a new schedule from now, and `Fires.RepresentsIff` and `CronFires.StaleRecomputeDropsIff` say what becomes of the other cases.
- Transactions: a definition whose stored expression no longer compiles aborts its transaction in the source; that error is not modelled.
- Timetable.NoMatchLost: one zone for the installation.
- CronText.RoundTrip: numbers that fit a word; texts with names are read by `CronText.NamesAreReadIff` one name at a time. Trimming an atom is left out, since words hold no space.
- Zones.Resolve: zones whose offset stays under a day and changes at most once in any two days.
- Dispatch.Dispatcher.Dispatch: nothing is delivered after its call has ended, and an executor does not restart; what a fenced executor abandons on re-registration is not modelled.
- Freedom from overlapping handlers of different run tokens: an executor that cannot be reached may still be running, and the source does not promise otherwise.
- Cutover.NoEngineAtCutover: one tenant; checking the age of a registry read and refreshing the fence is one moment, as is checking the fence and acting; all clocks run at one rate. The gate is stated at the instant of the commit, and that the old schema was found quiet is the caller's.
- The runtime registry's passes, admissions and retirements are steps on values rather than methods on a shared object, because time passes between any two of them.
