/** The protocol as a transition system: any number of scheduler instances issue the store's
  transactions, in any order and with arguments read at any earlier time, against one database.

  A step is one committed or rolled-back transaction, carrying the value of the database clock.
  The clock never goes back; business time is whatever the caller's clock says. */
module Protocol {
  import opened Rows
  import opened Schedules
  import Tx = Transactions

  /** The tables, every run token ever put on a row, and the database clock. */
  datatype World = World(db: Db, issued: set<Token>, clock: Clock)

  datatype Op =
    | Claim(p: Tx.ClaimParams, served: bool)
    | Accept(id: int, token: Token, epoch: int, silence: int)
    | Refuse(p: Tx.ClaimParams, epoch: int)
    | Retarget(h: Holder, executor: Executor)
    | Renew(h: Holder, lease: int)
    | ExtendDeadline(h: Holder, silence: int)
    | Complete(h: Holder, o: Tx.Outcome)
    | Retry(h: Holder, o: Tx.Outcome, backoff: int)
    | RequestCancel(id: int)
    | Adopt(v: Stale, newOwner: Instance, lease: int, silence: int, promote: bool)
    | Resolve(v: Stale, backoff: int)
    | FenceTimedOut(v: Stale)
    | ExpireSilent(v: Stale)
    | ReleaseAsOwner(h: Holder)
    | CreateJob(job: JobName, d: Definition, nextFire: Instant)
    | UpdateJob(job: JobName, d: Definition, seen: int)
    | SetPaused(job: JobName, paused: bool)
    | Retire(job: JobName)
    | TriggerRun(id: int, job: JobName, request: int)
    | AuthorizedRetry(id: int)
    | Recompute(job: JobName)
    | MaterializeCron(id: int, job: JobName, grace: int)
    | MaterializePoll(id: int, job: JobName, pass: int)

  /** One transaction, at one reading of each clock. */
  datatype Step = Step(op: Op, now: Instant, utc: Clock)

  /** The tables after a step. */
  ghost function Tables(compile: Tx.Compile, db: Db, s: Step): Db
    requires Tx.Forward(compile)
  {
    match s.op
    case Claim(p, served) => Tx.After(db, Tx.Claim(db, p, served, s.now, s.utc))
    case Accept(id, token, epoch, silence) => Tx.After(db, Tx.Accept(db, id, token, epoch, silence, s.now, s.utc))
    case Refuse(p, epoch) => Tx.After(db, Tx.Refuse(db, p, epoch, s.now, s.utc))
    case Retarget(h, x) => Tx.After(db, Tx.Retarget(db, h, x))
    case Renew(h, lease) => Tx.After(db, Tx.Renew(db, h, lease, s.utc))
    case ExtendDeadline(h, silence) => Tx.After(db, Tx.ExtendDeadline(db, h, silence, s.utc))
    case Complete(h, o) => Tx.After(db, Tx.Complete(db, h, o, s.now, s.utc))
    case Retry(h, o, backoff) => Tx.After(db, Tx.Retry(db, h, o, backoff, s.now, s.utc))
    case RequestCancel(id) => Tx.After(db, Tx.RequestCancel(db, id))
    case Adopt(v, o, lease, silence, promote) => Tx.After(db, Tx.Adopt(db, v, o, lease, silence, promote, s.now, s.utc))
    case Resolve(v, backoff) => Tx.After(db, Tx.Resolve(db, v, backoff, s.now, s.utc))
    case FenceTimedOut(v) => Tx.After(db, Tx.FenceTimedOut(db, v, s.now))
    case ExpireSilent(v) => Tx.After(db, Tx.ExpireSilent(db, v, s.now, s.utc))
    case ReleaseAsOwner(h) => Tx.After(db, Tx.ReleaseAsOwner(db, h, s.now, s.utc))
    case CreateJob(job, d, fire) => Tx.After(db, Tx.CreateJob(db, job, d, fire, s.now))
    case UpdateJob(job, d, seen) => Tx.After(db, Tx.UpdateJob(db, job, d, seen))
    case SetPaused(job, paused) => Tx.After(db, Tx.SetPaused(db, job, paused))
    case Retire(job) => Tx.After(db, Tx.Retire(db, job, s.now))
    case TriggerRun(id, job, request) => Tx.After(db, Tx.TriggerRun(db, id, job, request, s.now))
    case AuthorizedRetry(id) => Tx.After(db, Tx.AuthorizedRetry(db, id, s.now))
    case Recompute(job) => Tx.After(db, Tx.Recompute(db, compile, job, s.now))
    case MaterializeCron(id, job, grace) => Tx.After(db, Tx.MaterializeCron(db, compile, id, job, grace, s.now))
    case MaterializePoll(id, job, pass) => Tx.After(db, Tx.MaterializePoll(db, compile, id, job, pass, s.now))
  }

  /** The database clock does not go back, a claim mints a token nobody has used, and an insert
      gets an id nobody has used. */
  ghost predicate Enabled(w: World, s: Step) {
    && w.clock <= s.utc
    && (s.op.Claim? ==> s.op.p.token !in w.issued)
    && (s.op.TriggerRun? || s.op.MaterializeCron? || s.op.MaterializePoll? ==> s.op.id !in w.db.execs)
  }

  ghost function Next(compile: Tx.Compile, w: World, s: Step): World
    requires Tx.Forward(compile)
  {
    World(Tables(compile, w.db, s), if s.op.Claim? then w.issued + {s.op.p.token} else w.issued, s.utc)
  }

  ghost predicate Init(w: World) {
    w.db == Db(map[], map[], map[], map[])
  }

  /** Step `k` is enabled and leads from world `k` to world `k + 1`. */
  ghost predicate Follows(compile: Tx.Compile, ws: seq<World>, ss: seq<Step>, k: int)
    requires Tx.Forward(compile) && |ws| == |ss| + 1 && 0 <= k < |ss|
  {
    Enabled(ws[k], ss[k]) && ws[k + 1] == Next(compile, ws[k], ss[k])
  }

  /** A run: worlds joined by enabled steps, from an empty installation. */
  ghost predicate Run(compile: Tx.Compile, ws: seq<World>, ss: seq<Step>) {
    && Tx.Forward(compile)
    && |ws| == |ss| + 1
    && Init(ws[0])
    && (forall k :: 0 <= k < |ss| ==> Follows(compile, ws, ss, k))
  }

  // ----- the invariant -------------------------------------------------------------------

  /** The state row names this execution as its holder, column by column. */
  predicate Coupled(s: StateRow, e: Execution) {
    && s.active.Held?
    && s.active.execution == e.key
    && Some(s.active.owner) == e.owner
    && Some(s.active.token) == e.runToken
    && Some(s.active.lease) == e.leaseUntil
    && s.fenceEpoch == e.fenceEpoch
  }

  predicate KeyNamesOrigin(e: Execution) {
    match e.trigger
    case ByCron => e.key == CronKey(e.job, e.scheduledAt)
    case ByHand => e.key.ManualKey? && e.key.job == e.job
    case ByPoll => e.key.PollKey? && e.key.job == e.job
  }

  /** Budgets: a row that may still be started has an attempt left. */
  predicate WithinBudget(e: Execution) {
    && 0 <= e.attemptNo <= e.maxAttempts
    && (e.status.Ready? || e.status.Dispatching? ==> e.attemptNo < e.maxAttempts)
    && 0 <= e.recoveryCount
  }

  predicate RowOk(w: World, e: Execution) {
    && e.job in w.db.states
    && (e.status.InFlight() <==> e.leaseUntil.Some?)
    && (e.status.Terminal() <==> e.finishedAt.Some?)
    && (e.status.Terminal() <==> e.reason.Some?)
    && (e.runToken.Some? ==> e.runToken.value in w.issued)
    && (e.status.InFlight() ==> e.runToken.Some? && e.timeoutAt.Some? && Coupled(w.db.states[e.job], e)
                                && (e.key, e.runToken.value) !in w.db.attempts)
    && (e.status.Running? ==> e.deadlineAt.Some?)
    && WithinBudget(e)
    && 0 <= e.fenceEpoch <= w.db.states[e.job].fenceEpoch + 1
    && KeyNamesOrigin(e)
  }

  predicate JobOk(w: World, job: JobName)
    requires job in w.db.states
  {
    && job in w.db.defs
    && ValidDefinition(w.db.defs[job])
    && w.db.states[job].configVersion <= w.db.defs[job].version
    && 0 <= w.db.states[job].fenceEpoch
    && (w.db.states[job].active.Held? ==> HasRun(w.db, job))
  }

  predicate HasRun(db: Db, job: JobName) {
    exists id :: id in db.execs && db.execs[id].job == job && db.execs[id].status.InFlight()
  }

  predicate TokensDistinct(db: Db) {
    forall a, b :: a in db.execs && b in db.execs && a != b && db.execs[a].runToken.Some?
      ==> db.execs[a].runToken != db.execs[b].runToken
  }

  predicate KeysDistinct(db: Db) {
    forall a, b :: a in db.execs && b in db.execs && a != b ==> db.execs[a].key != db.execs[b].key
  }

  predicate Inv(w: World) {
    && w.db.defs.Keys == w.db.states.Keys
    && (forall job :: job in w.db.states ==> JobOk(w, job))
    && (forall id :: id in w.db.execs ==> RowOk(w, w.db.execs[id]))
    && TokensDistinct(w.db)
    && KeysDistinct(w.db)
    && (forall p :: p in w.db.attempts ==> p.1 in w.issued)
  }

  // ----- one lemma for every step that rewrites one job's state row and one execution ----

  /** Only the state row of `job` and the execution `id` of that job differ. */
  predicate Touches(w: World, w': World, job: JobName, id: int) {
    && job in w.db.states && job in w'.db.states
    && id in w'.db.execs && w'.db.execs[id].job == job
    && w'.db.defs == w.db.defs
    && w'.db.states == w.db.states[job := w'.db.states[job]]
    && w'.db.execs == w.db.execs[id := w'.db.execs[id]]
    && w.issued <= w'.issued
  }

  /** Identity is kept: an existing row keeps its job and key, a new row brings a new key. */
  predicate SameIdentity(w: World, w': World, id: int)
    requires id in w'.db.execs
  {
    if id in w.db.execs then w.db.execs[id].job == w'.db.execs[id].job && w.db.execs[id].key == w'.db.execs[id].key
    else !Tx.KeyTaken(w.db, w'.db.execs[id].key)
  }

  predicate Flies(db: Db, id: int) {
    id in db.execs && db.execs[id].status.InFlight()
  }

  /** Tokens are minted, kept or dropped, never copied; attempts are recorded only for the row touched. */
  predicate TokenDiscipline(w: World, w': World, id: int)
    requires id in w'.db.execs
  {
    var t := w'.db.execs[id].runToken;
    && (t.None? || t.value !in w.issued || (id in w.db.execs && w.db.execs[id].runToken == t))
    && (forall p :: p in w'.db.attempts ==>
          p in w.db.attempts || (id in w.db.execs && w.db.execs[id].runToken == Some(p.1)))
  }

  /** The owner columns change only for a free job or by its holder, and stay paired with a run. */
  predicate OwnerDiscipline(w: World, w': World, job: JobName, id: int)
    requires job in w.db.states && job in w'.db.states && id in w'.db.execs
  {
    var s, s' := w.db.states[job], w'.db.states[job];
    && s.fenceEpoch <= s'.fenceEpoch
    && (s.active.Free? || Flies(w.db, id) || (s'.active == s.active && s'.fenceEpoch == s.fenceEpoch))
    && (s'.active.Held? ==> Flies(w'.db, id) || (s'.active == s.active && !Flies(w.db, id)))
  }

  lemma TouchKeepsRow(w: World, w': World, job: JobName, id: int, b: int)
    requires Inv(w) && Touches(w, w', job, id)
    requires SameIdentity(w, w', id) && TokenDiscipline(w, w', id) && OwnerDiscipline(w, w', job, id)
    requires b in w.db.execs && b != id
    ensures RowOk(w', w.db.execs[b])
  {
  }

  lemma TouchKeepsJobs(w: World, w': World, job: JobName, id: int)
    requires Inv(w) && Touches(w, w', job, id)
    requires SameIdentity(w, w', id) && OwnerDiscipline(w, w', job, id)
    requires w'.db.states[job].configVersion <= w'.db.defs[job].version
    ensures forall j :: j in w'.db.states ==> JobOk(w', j)
  {
    forall j | j in w'.db.states
      ensures JobOk(w', j)
    {
      assert JobOk(w, j);
      if w'.db.states[j].active.Held? && (j != job || !Flies(w'.db, id)) {
        var b :| b in w.db.execs && w.db.execs[b].job == j && w.db.execs[b].status.InFlight();
        assert b in w'.db.execs && w'.db.execs[b].job == j && w'.db.execs[b].status.InFlight();
      }
    }
  }

  lemma TouchKeepsDistinct(w: World, w': World, job: JobName, id: int)
    requires Inv(w) && Touches(w, w', job, id)
    requires SameIdentity(w, w', id) && TokenDiscipline(w, w', id)
    ensures TokensDistinct(w'.db) && KeysDistinct(w'.db)
  {
  }

  lemma TouchKeeps(w: World, w': World, job: JobName, id: int)
    requires Inv(w) && Touches(w, w', job, id)
    requires SameIdentity(w, w', id) && TokenDiscipline(w, w', id) && OwnerDiscipline(w, w', job, id)
    requires w'.db.states[job].configVersion <= w'.db.defs[job].version
    requires RowOk(w', w'.db.execs[id])
    ensures Inv(w')
  {
    forall b | b in w'.db.execs
      ensures RowOk(w', w'.db.execs[b])
    {
      if b != id { TouchKeepsRow(w, w', job, id, b); }
    }
    TouchKeepsJobs(w, w', job, id);
    TouchKeepsDistinct(w, w', job, id);
  }
}
