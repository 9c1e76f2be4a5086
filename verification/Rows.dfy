/** The rows of a tenant's coordination schema, and the vocabulary the transactions share.

  Names, keys' discriminators, instance ids and tokens are opaque identities: the protocol only
  compares them for equality, so they are integers here. Two clocks exist and are never mixed:
  a `Clock` is a second of the database's UTC_TIMESTAMP(), an `Instant` is a nanosecond of
  business time. */
module Rows {
  import opened Machine

  datatype Option<+T> = None | Some(value: T)

  type JobName = int
  type Instance = int
  type Executor = int
  type Token = int
  type Clock = int
  type Instant = int

  datatype Status =
    Ready | Dispatching | Running | CancelRequested | Success | Dead | Cancelled | Skipped
  {
    predicate Terminal() {
      Success? || Dead? || Cancelled? || Skipped?
    }

    predicate InFlight() {
      Dispatching? || Running? || CancelRequested?
    }
  }

  datatype TerminalReason =
    HandlerConfirmed | ReasonFenced | ReasonTimeout | BudgetExhausted | PermanentFailure | ReasonRetired
    | ConcurrencySkipped

  datatype AttemptOutcome = AttemptSuccess | AttemptFailed | AttemptUnknown | AttemptFenced

  datatype ScheduleKind = CronKind | FixedDelay

  datatype Concurrency = Queue | Forbid

  datatype Misfire = SkipMissed | FireOnce

  datatype Trigger = ByCron | ByHand | ByPoll

  /** An execution key names what created the execution: a fire instant, an operator's request,
      or a poll pass's fresh identifier. */
  datatype ExecutionKey =
    | CronKey(job: JobName, fireAt: Instant)
    | ManualKey(job: JobName, request: int)
    | PollKey(job: JobName, pass: int)

  datatype Definition = Definition(
    kind: ScheduleKind, expr: int, delayMs: int, enabled: bool, retired: bool,
    concurrency: Concurrency, misfire: Misfire, maxAttempts: int, maxRecoveries: int,
    lease: int, timeout: int, version: int)

  /** The owner columns of job_state: every statement sets all of them or clears all of them. */
  datatype Active =
    | Free
    | Held(execution: ExecutionKey, owner: Instance, token: Token, sentTo: Option<Executor>, lease: Clock)

  datatype StateRow = StateRow(
    nextFireAt: Option<Instant>, nextPollAt: Option<Instant>, paused: bool, active: Active,
    fenceEpoch: int, configVersion: int, lastSuccessAt: Option<Instant>, lastFailureAt: Option<Instant>)

  datatype Execution = Execution(
    key: ExecutionKey, job: JobName, trigger: Trigger, scheduledAt: Instant, availableAt: Instant,
    status: Status, attemptNo: int, recoveryCount: int, maxAttempts: int, maxRecoveries: int,
    owner: Option<Instance>, dispatchedTo: Option<Executor>, runToken: Option<Token>, fenceEpoch: int,
    leaseUntil: Option<Clock>, deadlineAt: Option<Clock>, timeoutAt: Option<Clock>,
    startedAt: Option<Instant>, finishedAt: Option<Instant>, reason: Option<TerminalReason>)

  /** One row of attempt history, keyed by execution key and run token. */
  datatype Attempt = Attempt(attemptNo: int, executor: Option<Executor>, outcome: AttemptOutcome, finishedAt: Instant)

  type Attempts = map<(ExecutionKey, Token), Attempt>

  datatype Db = Db(
    defs: map<JobName, Definition>, states: map<JobName, StateRow>,
    execs: map<int, Execution>, attempts: Attempts)

  datatype Error =
    Contended | Fenced | MissingState | Protocol | NotRunnable | NoSuchExecution | CapElapsed | StaleVersion

  /** One attempt's ownership, carried by every ownership-bearing write. */
  datatype Holder = Holder(job: JobName, id: int, key: ExecutionKey, owner: Instance, token: Token, epoch: int)

  /** What a recovery, timeout or silence scan read, possibly long before it is acted on. */
  datatype Stale = Stale(id: int, key: ExecutionKey, job: JobName, token: Token, epoch: int, sentTo: Option<Executor>)

  const MILLISECOND: Instant := 1_000_000

  /** The pause between passes, as the code computes it: a product of machine words. */
  function Delay(d: Definition): Instant {
    Wrapped(d.delayMs * MILLISECOND)
  }

  /** What the schema's CHECK constraints hold, and the delay's milliseconds being a positive word, which is
      all that is asked of them before they are multiplied. */
  predicate ValidDefinition(d: Definition) {
    && 1 <= d.maxAttempts <= 100
    && 1 <= d.maxRecoveries <= 100
    && 10 <= d.lease
    && 1 <= d.timeout <= 604800
    && (d.kind.FixedDelay? ==> 0 < d.delayMs < WORD_LIMIT)
  }

  predicate PastCap(e: Execution, utc: Clock) {
    e.timeoutAt.Some? && e.timeoutAt.value < utc
  }

  predicate LeaseLapsed(lease: Option<Clock>, utc: Clock) {
    lease.Some? && lease.value < utc
  }

  predicate SilenceLapsed(e: Execution, utc: Clock) {
    e.deadlineAt.Some? && e.deadlineAt.value < utc
  }

  /** The guard on the state row: the job is held under this token and epoch. */
  predicate HoldsJob(db: Db, job: JobName, token: Token, epoch: int) {
    && job in db.states
    && db.states[job].active.Held?
    && db.states[job].active.token == token
    && db.states[job].fenceEpoch == epoch
  }

  /** The guard on the execution row: it carries this token and epoch. */
  predicate CarriesHold(db: Db, id: int, token: Token, epoch: int) {
    && id in db.execs
    && db.execs[id].runToken == Some(token)
    && db.execs[id].fenceEpoch == epoch
  }

  /** The same, among the three in-flight statuses. */
  predicate RunsUnder(db: Db, id: int, token: Token, epoch: int) {
    CarriesHold(db, id, token, epoch) && db.execs[id].status.InFlight()
  }

  predicate DispatchingUnder(db: Db, id: int, token: Token, epoch: int) {
    CarriesHold(db, id, token, epoch) && db.execs[id].status == Dispatching
  }
}
