/** What each transaction of the store commits, as one function of the tables.

  A function gives the NET effect of a transaction, or the error it rolls back with; the
  statement-by-statement transactions of `Store` are proved to have exactly these effects.
  `now` is business time, `utc` is the database clock the transaction reads. */
module Transactions {
  import opened Rows
  import opened Schedules

  datatype Tx<+V> = Commit(db: Db, value: V) | Abort(error: Error)

  /** The tables after a transaction: a rollback leaves them as they were. */
  function After<V>(db: Db, tx: Tx<V>): Db {
    if tx.Commit? then tx.db else db
  }

  // ----- shared statements ---------------------------------------------------------------

  function PutExec(db: Db, id: int, e: Execution): Db {
    db.(execs := db.execs[id := e])
  }

  function PutState(db: Db, job: JobName, s: StateRow): Db {
    db.(states := db.states[job := s])
  }

  function Released(s: StateRow, succeeded: bool, now: Instant): StateRow {
    s.(active := Free,
       lastSuccessAt := if succeeded then Some(now) else s.lastSuccessAt,
       lastFailureAt := if succeeded then s.lastFailureAt else Some(now))
  }

  function OrElse<T>(a: Option<T>, b: T): Option<T> {
    if a.Some? then a else Some(b)
  }

  /** A result is proof that a handler started, so it charges an attempt not yet charged. */
  function Charged(e: Execution, now: Instant): Execution {
    if e.status.Dispatching? then e.(attemptNo := e.attemptNo + 1, startedAt := OrElse(e.startedAt, now)) else e
  }

  /** First write wins: a recorded attempt is never overwritten. */
  function Recorded(attempts: Attempts, key: ExecutionKey, token: Token, a: Attempt): Attempts {
    if (key, token) in attempts then attempts else attempts[(key, token) := a]
  }

  /** Drops every ownership column. */
  function Disowned(e: Execution): Execution {
    e.(owner := None, dispatchedTo := None, runToken := None, leaseUntil := None)
  }

  predicate IsPass(e: Execution, job: JobName) {
    e.job == job && e.trigger.ByPoll?
  }

  /** Restarts the poll loop when the execution named is a poll pass that has ended. */
  function Settle(db: Db, job: JobName, id: int, now: Instant): Tx<()> {
    if job !in db.defs then Abort(Protocol)
    else if !db.defs[job].kind.FixedDelay? then Commit(db, ())
    else if db.defs[job].delayMs <= 0 then Abort(Protocol)
    else if job in db.states && id in db.execs && IsPass(db.execs[id], job) && db.execs[id].status.Terminal() then
      Commit(PutState(db, job, db.states[job].(nextPollAt := Some(now + Delay(db.defs[job])))), ())
    else Commit(db, ())
  }

  /** The common tail of every transaction that ends or returns an owned attempt: the state row
      is released, the execution rewritten, the attempt recorded, the poll clock settled. */
  function Finish(db: Db, job: JobName, id: int, key: ExecutionKey, token: Token,
                  succeeded: bool, e: Execution, sentTo: Option<Executor>, outcome: AttemptOutcome,
                  now: Instant): Tx<()>
    requires job in db.states
  {
    var d := PutExec(PutState(db, job, Released(db.states[job], succeeded, now)), id, e);
    Settle(d.(attempts := Recorded(d.attempts, key, token, Attempt(e.attemptNo, sentTo, outcome, now))), job, id, now)
  }

  function Bind<V, W>(tx: Tx<V>, value: W): Tx<W> {
    match tx
    case Commit(db, _) => Commit(db, value)
    case Abort(e) => Abort(e)
  }

  // ----- claim.go ------------------------------------------------------------------------

  datatype ClaimParams = ClaimParams(
    id: int, job: JobName, key: ExecutionKey, owner: Instance, executor: Option<Executor>, token: Token, backoff: int)

  datatype ClaimOutcome = Acquired(epoch: int) | Deferred | ClaimSkipped | Expired

  /** The engine's runnability rule; `served` says whether a live executor declares the handler. */
  predicate Runnable(d: Definition, served: bool) {
    d.enabled && !d.retired && served
  }

  function Defer(db: Db, id: int, backoff: int, now: Instant): Db
    requires id in db.execs
  {
    if db.execs[id].status.Ready? then PutExec(db, id, db.execs[id].(availableAt := now + backoff * SECOND)) else db
  }

  function Ended(e: Execution, status: Status, reason: TerminalReason, now: Instant): Execution {
    e.(status := status, reason := Some(reason), finishedAt := Some(now))
  }

  function Claim(db: Db, p: ClaimParams, served: bool, now: Instant, utc: Clock): Tx<ClaimOutcome> {
    if p.job !in db.states then Abort(MissingState)
    else if p.job !in db.defs then Abort(Protocol)
    else if p.id !in db.execs then Abort(NoSuchExecution)
    else
      var st, def, cur := db.states[p.job], db.defs[p.job], db.execs[p.id];
      if cur.job != p.job || cur.key != p.key then Abort(Protocol)
      else if PastCap(cur, utc) then
        if !cur.status.Ready? then Abort(Protocol)
        else Commit(PutExec(db, p.id, Ended(cur, Dead, ReasonTimeout, now)), Expired)
      else if st.paused || !Runnable(def, served) then Commit(Defer(db, p.id, p.backoff, now), Deferred)
      else if st.active.Held? then
        if def.concurrency.Forbid? && !cur.trigger.ByHand? then
          if !cur.status.Ready? then Abort(Protocol)
          else
            var skipped := Ended(cur, Skipped, ConcurrencySkipped, now).(leaseUntil := None);
            Bind(Settle(PutExec(db, p.id, skipped), p.job, p.id, now), ClaimSkipped)
        else Commit(Defer(db, p.id, p.backoff, now), Deferred)
      else if !cur.status.Ready? || cur.maxAttempts <= cur.attemptNo then Abort(Protocol)
      else
        var epoch := st.fenceEpoch + 1;
        var st' := st.(active := Held(p.key, p.owner, p.token, p.executor, utc + def.lease), fenceEpoch := epoch);
        var cur' := cur.(status := Dispatching, owner := Some(p.owner), dispatchedTo := p.executor,
                         runToken := Some(p.token), fenceEpoch := epoch, leaseUntil := Some(utc + def.lease),
                         timeoutAt := OrElse(cur.timeoutAt, utc + def.timeout));
        Commit(PutExec(PutState(db, p.job, st'), p.id, cur'), Acquired(epoch))
  }

  function Accept(db: Db, id: int, token: Token, epoch: int, silence: int, now: Instant, utc: Clock): Tx<()> {
    if !DispatchingUnder(db, id, token, epoch) then Abort(Fenced)
    else
      var e := db.execs[id];
      Commit(PutExec(db, id, e.(status := Running, attemptNo := e.attemptNo + 1,
                                startedAt := OrElse(e.startedAt, now), deadlineAt := Some(utc + silence))), ())
  }

  function Refuse(db: Db, p: ClaimParams, epoch: int, now: Instant, utc: Clock): Tx<()> {
    if !HoldsJob(db, p.job, p.token, epoch) then Abort(Fenced)
    else if !DispatchingUnder(db, p.id, p.token, epoch) then Abort(Protocol)
    else
      var e := db.execs[p.id];
      var e' := Disowned(if PastCap(e, utc) then Ended(e, Dead, ReasonTimeout, now)
                         else e.(status := Ready, reason := None, finishedAt := None,
                                 availableAt := now + p.backoff * SECOND));
      Settle(PutExec(PutState(db, p.job, db.states[p.job].(active := Free)), p.id, e'), p.job, p.id, now)
  }

  function Retarget(db: Db, h: Holder, executor: Executor): Tx<()> {
    if !DispatchingUnder(db, h.id, h.token, h.epoch) then Abort(Fenced)
    else Commit(PutExec(db, h.id, db.execs[h.id].(dispatchedTo := Some(executor))), ())
  }

  // ----- lease.go ------------------------------------------------------------------------

  function Renew(db: Db, h: Holder, lease: int, utc: Clock): Tx<()> {
    if !HoldsJob(db, h.job, h.token, h.epoch) || !RunsUnder(db, h.id, h.token, h.epoch) then Abort(Fenced)
    else
      var st, e := db.states[h.job], db.execs[h.id];
      if e.owner != Some(h.owner) || e.leaseUntil.None? || e.leaseUntil.value < utc then Abort(Fenced)
      else Commit(PutExec(PutState(db, h.job, st.(active := st.active.(lease := utc + lease))),
                          h.id, e.(leaseUntil := Some(utc + lease))), ())
  }

  function ExtendDeadline(db: Db, h: Holder, silence: int, utc: Clock): Tx<()> {
    if !RunsUnder(db, h.id, h.token, h.epoch) || PastCap(db.execs[h.id], utc) then Abort(Fenced)
    else Commit(PutExec(db, h.id, db.execs[h.id].(deadlineAt := Some(utc + silence))), ())
  }

  // ----- complete.go ---------------------------------------------------------------------

  datatype Outcome = Outcome(status: Status, reason: TerminalReason, attempt: AttemptOutcome,
                             executor: Option<Executor>)

  /** Whether a reported result is admitted: the hold is current and the cap has not passed. */
  predicate Reportable(db: Db, h: Holder, utc: Clock) {
    && HoldsJob(db, h.job, h.token, h.epoch)
    && RunsUnder(db, h.id, h.token, h.epoch)
    && !PastCap(db.execs[h.id], utc)
  }

  function Complete(db: Db, h: Holder, o: Outcome, now: Instant, utc: Clock): Tx<()> {
    if !o.status.Terminal() then Abort(Protocol)
    else if !Reportable(db, h, utc) then Abort(Fenced)
    else
      var e := Ended(Charged(db.execs[h.id], now), o.status, o.reason, now).(leaseUntil := None);
      Finish(db, h.job, h.id, h.key, h.token, o.status.Success?, e, o.executor, o.attempt, now)
  }

  function Retried(e: Execution, backoff: int, now: Instant): Execution {
    var d := Disowned(e).(deadlineAt := None);
    if e.maxAttempts <= e.attemptNo then Ended(d, Dead, BudgetExhausted, now)
    else d.(status := Ready, reason := None, finishedAt := None, availableAt := now + backoff * SECOND,
            timeoutAt := None)
  }

  function Retry(db: Db, h: Holder, o: Outcome, backoff: int, now: Instant, utc: Clock): Tx<()> {
    if !Reportable(db, h, utc) then Abort(Fenced)
    else
      var e := Retried(Charged(db.execs[h.id], now), backoff, now);
      Finish(db, h.job, h.id, h.key, h.token, false, e, o.executor, o.attempt, now)
  }

  function RequestCancel(db: Db, id: int): Tx<()> {
    if id !in db.execs then Abort(NoSuchExecution)
    else if !db.execs[id].status.Dispatching? && !db.execs[id].status.Running? then Abort(Contended)
    else Commit(PutExec(db, id, db.execs[id].(status := CancelRequested)), ())
  }

  // ----- recovery.go ---------------------------------------------------------------------

  function Adopt(db: Db, v: Stale, newOwner: Instance, lease: int, silence: int, promote: bool,
                 now: Instant, utc: Clock): Tx<int> {
    if v.job !in db.states then Abort(MissingState)
    else if !HoldsJob(db, v.job, v.token, v.epoch) then Abort(Contended)
    else if v.id !in db.execs then Abort(NoSuchExecution)
    else if !CarriesHold(db, v.id, v.token, v.epoch) then Abort(Contended)
    else if PastCap(db.execs[v.id], utc) then Abort(CapElapsed)
    else if !(db.states[v.job].active.lease < utc) || !db.execs[v.id].status.InFlight() then Abort(Protocol)
    else
      var st, e := db.states[v.job], db.execs[v.id];
      var st' := st.(active := st.active.(owner := newOwner, lease := utc + lease), fenceEpoch := v.epoch + 1);
      var e' := e.(owner := Some(newOwner), fenceEpoch := v.epoch + 1, leaseUntil := Some(utc + lease));
      var e'' := if promote && e.status.Dispatching? then
                   e'.(status := Running, attemptNo := e.attemptNo + 1, startedAt := OrElse(e.startedAt, now),
                       deadlineAt := Some(utc + silence))
                 else e';
      Commit(PutExec(PutState(db, v.job, st'), v.id, e''), v.epoch + 1)
  }

  /** Where an attempt nobody can account for lands. */
  function ResolvedStatus(e: Execution, utc: Clock): Status {
    if e.status.CancelRequested? then Cancelled
    else if PastCap(e, utc) then Dead
    else if e.maxAttempts <= e.attemptNo || e.maxRecoveries <= e.recoveryCount + 1 then Dead
    else Ready
  }

  function ResolvedReason(e: Execution, utc: Clock): Option<TerminalReason> {
    match ResolvedStatus(e, utc)
    case Dead => Some(if PastCap(e, utc) then ReasonTimeout else BudgetExhausted)
    case Ready => None
    case _ => Some(ReasonFenced)
  }

  function Resolved(e: Execution, backoff: int, now: Instant, utc: Clock): Execution {
    var landed := ResolvedStatus(e, utc);
    var d := Disowned(e).(fenceEpoch := e.fenceEpoch + 1, recoveryCount := e.recoveryCount + 1, deadlineAt := None);
    if landed.Ready? then
      d.(status := Ready, reason := None, finishedAt := None, availableAt := now + backoff * SECOND, timeoutAt := None)
    else d.(status := landed, reason := ResolvedReason(e, utc), finishedAt := Some(now))
  }

  /** The re-verification every recovery transaction makes under the two row locks. */
  function Recheck(db: Db, job: JobName, id: int, token: Token, epoch: int): (err: Option<Error>)
    ensures err.None? ==>
              HoldsJob(db, job, token, epoch) && CarriesHold(db, id, token, epoch) && !db.execs[id].status.Terminal()
  {
    if job !in db.states then Some(MissingState)
    else if !HoldsJob(db, job, token, epoch) then Some(Contended)
    else if id !in db.execs then Some(NoSuchExecution)
    else if !CarriesHold(db, id, token, epoch) || db.execs[id].status.Terminal() then Some(Contended)
    else None
  }

  function Resolve(db: Db, v: Stale, backoff: int, now: Instant, utc: Clock): Tx<Status> {
    var err := Recheck(db, v.job, v.id, v.token, v.epoch);
    if err.Some? then Abort(err.value)
    else if !(db.states[v.job].active.lease < utc) || !db.execs[v.id].status.InFlight() then Abort(Protocol)
    else
      var e := Resolved(db.execs[v.id], backoff, now, utc);
      Bind(Finish(db, v.job, v.id, v.key, v.token, false, e, v.sentTo, AttemptUnknown, now), e.status)
  }

  /** An attempt ended by the scheduler: its epoch moves so nobody can write under it again. */
  function FencedOff(e: Execution, reason: TerminalReason, now: Instant): Execution {
    var cancelled := e.status.CancelRequested?;
    Ended(e, if cancelled then Cancelled else Dead, if cancelled then ReasonFenced else reason, now)
      .(fenceEpoch := e.fenceEpoch + 1, leaseUntil := None, deadlineAt := None)
  }

  function FenceTimedOut(db: Db, v: Stale, now: Instant): Tx<()> {
    var err := Recheck(db, v.job, v.id, v.token, v.epoch);
    if err.Some? then Abort(err.value)
    else if !db.execs[v.id].status.InFlight() then Abort(Protocol)
    else
      var e := FencedOff(db.execs[v.id], ReasonTimeout, now);
      Finish(db, v.job, v.id, v.key, v.token, false, e, v.sentTo, AttemptFenced, now)
  }

  function ExpireSilent(db: Db, v: Stale, now: Instant, utc: Clock): Tx<()> {
    var err := Recheck(db, v.job, v.id, v.token, v.epoch);
    if err.Some? then Abort(err.value)
    else if !SilenceLapsed(db.execs[v.id], utc) then Abort(Contended)
    else if !db.execs[v.id].status.Running? && !db.execs[v.id].status.CancelRequested? then Abort(Protocol)
    else
      var e := FencedOff(db.execs[v.id], ReasonFenced, now);
      Finish(db, v.job, v.id, v.key, v.token, false, e, v.sentTo, AttemptUnknown, now)
  }

  function ReleaseAsOwner(db: Db, h: Holder, now: Instant, utc: Clock): Tx<Status> {
    var err := Recheck(db, h.job, h.id, h.token, h.epoch);
    if err.Some? then Abort(err.value)
    else if db.execs[h.id].leaseUntil.None? || db.execs[h.id].leaseUntil.value < utc then Abort(Contended)
    else if !db.execs[h.id].status.InFlight() then Abort(Protocol)
    else
      var cur := db.execs[h.id];
      var e := Disowned(FencedOff(cur, ReasonFenced, now)).(recoveryCount := cur.recoveryCount + 1);
      Bind(Finish(db, h.job, h.id, h.key, h.token, false, e, None, AttemptUnknown, now), e.status)
  }

  // ----- admin.go ------------------------------------------------------------------------

  function CreateJob(db: Db, job: JobName, d: Definition, nextFire: Instant, now: Instant): Tx<()> {
    if job in db.defs || job in db.states || !ValidDefinition(d) then Abort(Protocol)
    else
      var fire := if d.enabled && d.kind.CronKind? then Some(nextFire) else None;
      var poll := if d.enabled && d.kind.FixedDelay? then Some(now) else None;
      Commit(db.(defs := db.defs[job := d.(retired := false, version := 1)],
                 states := db.states[job := StateRow(fire, poll, false, Free, 0, 1, None, None)]), ())
  }

  /** An edit replaces everything but the retirement flag, and moves the version. */
  function UpdateJob(db: Db, job: JobName, d: Definition, seen: int): Tx<()> {
    if job !in db.defs || db.defs[job].version != seen then Abort(StaleVersion)
    else if !ValidDefinition(d) then Abort(Protocol)
    else Commit(db.(defs := db.defs[job := d.(retired := db.defs[job].retired, version := seen + 1)]), ())
  }

  function SetPaused(db: Db, job: JobName, paused: bool): Tx<()> {
    if job !in db.states then Abort(MissingState)
    else Commit(PutState(db, job, db.states[job].(paused := paused)), ())
  }

  /** What retirement does to one execution: pending work is cancelled, started work is asked to stop. */
  function RetiredRow(e: Execution, job: JobName, now: Instant): Execution {
    if e.job != job then e
    else if e.status.Ready? then Ended(e, Cancelled, ReasonRetired, now)
    else if e.status.Dispatching? || e.status.Running? then e.(status := CancelRequested)
    else e
  }

  function Retire(db: Db, job: JobName, now: Instant): Tx<()> {
    if job !in db.states then Abort(MissingState)
    else if job !in db.defs || db.defs[job].retired then Abort(Protocol)
    else
      var d := db.defs[job];
      Commit(db.(defs := db.defs[job := d.(retired := true, enabled := false, version := d.version + 1)],
                 execs := map id | id in db.execs :: RetiredRow(db.execs[id], job, now)), ())
  }

  predicate KeyTaken(db: Db, key: ExecutionKey) {
    exists id :: id in db.execs && db.execs[id].key == key
  }

  function NewExecution(key: ExecutionKey, job: JobName, trigger: Trigger, at: Instant, d: Definition): Execution {
    Execution(key, job, trigger, at, at, Ready, 0, 0, d.maxAttempts, d.maxRecoveries,
              None, None, None, 0, None, None, None, None, None, None)
  }

  /** A request id names one request for one job. */
  predicate RequestElsewhere(db: Db, job: JobName, request: int) {
    exists id :: id in db.execs && db.execs[id].key.ManualKey? && db.execs[id].key.request == request
      && db.execs[id].key.job != job
  }

  /** A manual run. A repeated request id finds its own execution and creates nothing. */
  function TriggerRun(db: Db, id: int, job: JobName, request: int, now: Instant): Tx<()> {
    if KeyTaken(db, ManualKey(job, request)) then Commit(db, ())
    else if RequestElsewhere(db, job, request) then Abort(Protocol)
    else if job !in db.states then Abort(MissingState)
    else if job !in db.defs then Abort(Protocol)
    else if db.defs[job].retired then Abort(NotRunnable)
    else Commit(PutExec(db, id, NewExecution(ManualKey(job, request), job, ByHand, now, db.defs[job])), ())
  }

  function AuthorizedRetry(db: Db, id: int, now: Instant): Tx<()> {
    if id !in db.execs then Abort(NoSuchExecution)
    else
      var e := db.execs[id];
      if e.job !in db.states then Abort(MissingState)
      else if e.job !in db.defs then Abort(Protocol)
      else if db.defs[e.job].retired then Abort(NotRunnable)
      else if !e.status.Dead? then Abort(Protocol)
      else Commit(PutExec(db, id, e.(status := Ready, maxAttempts := e.attemptNo + 1, availableAt := now,
                                     reason := None, finishedAt := None, timeoutAt := None)), ())
  }

  // ----- materialize.go ------------------------------------------------------------------

  const MISFIRE_HORIZON: int := 366 * 24 * 3600 * SECOND
  const MISSED_LIMIT: nat := 1000

  datatype Materialized = Created(key: ExecutionKey) | Nothing | Suspended

  /** Turns a schedule expression into its fires. */
  type Compile = int -> Schedule

  /** Every schedule answers with a later instant: the cron search returns nothing else. */
  ghost predicate Forward(compile: Compile) {
    forall x :: Onward(compile(x))
  }

  predicate PassOutstanding(db: Db, job: JobName) {
    exists id :: id in db.execs && IsPass(db.execs[id], job) && !db.execs[id].status.Terminal()
  }

  predicate ManualPending(db: Db, job: JobName) {
    exists id :: id in db.execs && db.execs[id].job == job && db.execs[id].trigger.ByHand? && db.execs[id].status.Ready?
  }

  /** Both schedule clocks and the config version, recomputed from the definition. */
  function Normalized(s: StateRow, d: Definition, outstanding: bool, compile: Compile, now: Instant): StateRow {
    var live := d.enabled && !d.retired;
    s.(nextFireAt := if live && d.kind.CronKind? then Some(compile(d.expr).next(now - 1)) else None,
       nextPollAt := if !live || d.kind.CronKind? then None
                     else if s.nextPollAt.Some? then s.nextPollAt
                     else if outstanding then None
                     else Some(now),
       configVersion := d.version)
  }

  function NormalizeClocks(db: Db, compile: Compile, job: JobName, now: Instant): Db
    requires job in db.states && job in db.defs
  {
    PutState(db, job, Normalized(db.states[job], db.defs[job], PassOutstanding(db, job), compile, now))
  }

  function Recompute(db: Db, compile: Compile, job: JobName, now: Instant): Tx<()> {
    if job !in db.states then Abort(MissingState)
    else if job !in db.defs then Abort(Protocol)
    else Commit(NormalizeClocks(db, compile, job, now), ())
  }

  predicate InDate(db: Db, job: JobName, kind: ScheduleKind) {
    && job in db.states && job in db.defs
    && db.defs[job].enabled && !db.defs[job].retired
    && db.defs[job].kind == kind && db.states[job].configVersion == db.defs[job].version
  }

  /** Halves the span between an instant whose next fire is not after `at` and one whose is, down to a
      second. */
  function Bisect(s: Schedule, at: Instant, lo: Instant, hi: Instant): Instant
    decreases hi - lo
  {
    if hi - lo <= SECOND then s.next(lo)
    else
      var mid := lo + (hi - lo) / 2;
      if at < s.next(mid) then Bisect(s, at, lo, mid) else Bisect(s, at, mid, hi)
  }

  /** The catch-up lookup in [at - horizon, at]; `Windows` says when it finds the latest fire. */
  function LatestFire(s: Schedule, at: Instant, horizon: int): Option<Instant> {
    var lo := at - horizon - 1;
    if at < s.next(lo) then None else Some(Bisect(s, at, lo, at))
  }

  /** The instant a due cron row deals with in this pass, and the instant its clock moves past;
      `None` creates nothing. */
  ghost function Firing(s: Schedule, misfire: Misfire, due: Instant, onTimeFrom: Instant, now: Instant):
      (r: (Option<Instant>, Instant))
    requires Onward(s)
  {
    if CountFires(s, due - 1, onTimeFrom - 1) == 0 then (Some(due), due)
    else if misfire.SkipMissed? then (None, now)
    else
      var latest := LatestFire(s, onTimeFrom - 1, MISFIRE_HORIZON);
      (latest, if latest.Some? then latest.value else due)
  }

  ghost function MaterializeCron(db: Db, compile: Compile, id: int, job: JobName, grace: int,
                                 now: Instant): Tx<Materialized>
    requires Forward(compile)
  {
    if job !in db.states then Abort(MissingState)
    else if job !in db.defs then Abort(Protocol)
    else if !InDate(db, job, CronKind) then Commit(NormalizeClocks(db, compile, job, now), Nothing)
    else if ManualPending(db, job) then Commit(db, Suspended)
    else if db.states[job].nextFireAt.None? then Abort(Protocol)
    else if now < db.states[job].nextFireAt.value then Commit(db, Suspended)
    else
      var d, st := db.defs[job], db.states[job];
      var s := compile(d.expr);
      assert Onward(s);
      var (create, anchor) := Firing(s, d.misfire, st.nextFireAt.value, now - grace, now);
      var db' := PutState(db, job, st.(nextFireAt := Some(s.next(anchor)), configVersion := d.version));
      if create.None? || KeyTaken(db, CronKey(job, create.value)) then Commit(db', Nothing)
      else
        var key := CronKey(job, create.value);
        Commit(PutExec(db', id, NewExecution(key, job, ByCron, create.value, d)), Created(key))
  }

  function MaterializePoll(db: Db, compile: Compile, id: int, job: JobName, pass: int, now: Instant): Tx<Materialized> {
    if job !in db.states then Abort(MissingState)
    else if job !in db.defs then Abort(Protocol)
    else if db.states[job].nextPollAt.None? || now < db.states[job].nextPollAt.value then Commit(db, Suspended)
    else if !InDate(db, job, FixedDelay) then Commit(NormalizeClocks(db, compile, job, now), Nothing)
    else if ManualPending(db, job) then Commit(db, Suspended)
    else if KeyTaken(db, PollKey(job, pass)) then Abort(Protocol)
    else
      var key := PollKey(job, pass);
      Commit(PutExec(PutState(db, job, db.states[job].(nextPollAt := None)), id,
                     NewExecution(key, job, ByPoll, now, db.defs[job])), Created(key))
  }
}
