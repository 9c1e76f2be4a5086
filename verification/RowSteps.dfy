/** One execution's view of the protocol: which transaction may move a row from where to where,
  and what it may change on the way. Every step of every run obeys it, so properties of single
  executions are proved against this automaton instead of against the transactions. */
module RowSteps {
  import opened Rows
  import opened Schedules
  import opened Protocol
  import opened Preservation
  import Tx = Transactions

  /** The execution a transaction is about; retirement is about every execution of its job. */
  predicate Targets(op: Op, id: int, job: JobName) {
    match op
    case Claim(p, _) => p.id == id
    case Accept(i, _, _, _) => i == id
    case Refuse(p, _) => p.id == id
    case Retarget(h, _) => h.id == id
    case Renew(h, _) => h.id == id
    case ExtendDeadline(h, _) => h.id == id
    case Complete(h, _) => h.id == id
    case Retry(h, _, _) => h.id == id
    case RequestCancel(i) => i == id
    case Adopt(v, _, _, _, _) => v.id == id
    case Resolve(v, _) => v.id == id
    case FenceTimedOut(v) => v.id == id
    case ExpireSilent(v) => v.id == id
    case ReleaseAsOwner(h) => h.id == id
    case Retire(j) => j == job
    case AuthorizedRetry(i) => i == id
    case _ => false
  }

  /** The ownership a guarded write presents. */
  function HoldOf(op: Op): Option<(Token, int)> {
    match op
    case Accept(_, token, epoch, _) => Some((token, epoch))
    case Refuse(p, epoch) => Some((p.token, epoch))
    case Retarget(h, _) => Some((h.token, h.epoch))
    case Renew(h, _) => Some((h.token, h.epoch))
    case ExtendDeadline(h, _) => Some((h.token, h.epoch))
    case Complete(h, _) => Some((h.token, h.epoch))
    case Retry(h, _, _) => Some((h.token, h.epoch))
    case Adopt(v, _, _, _, _) => Some((v.token, v.epoch))
    case Resolve(v, _) => Some((v.token, v.epoch))
    case FenceTimedOut(v) => Some((v.token, v.epoch))
    case ExpireSilent(v) => Some((v.token, v.epoch))
    case ReleaseAsOwner(h) => Some((h.token, h.epoch))
    case _ => None
  }

  predicate Presents(op: Op, e: Execution) {
    HoldOf(op).Some? && e.runToken == Some(HoldOf(op).value.0) && e.fenceEpoch == HoldOf(op).value.1
  }

  /** `ready` is left by a claim alone, and never for a dispatch past the runtime cap. */
  predicate ClaimStep(token: Token, utc: Clock, e: Execution, e': Execution) {
    && e.status.Ready?
    && (|| (e' == e.(availableAt := e'.availableAt) && !PastCap(e, utc))
        || (&& e' == e.(status := e'.status, reason := e'.reason, finishedAt := e'.finishedAt)
            && e'.status == (if PastCap(e, utc) then Dead else Skipped))
        || (&& e'.status.Dispatching? && !PastCap(e, utc)
            && e' == e.(status := Dispatching, owner := e'.owner, dispatchedTo := e'.dispatchedTo,
                        runToken := Some(token),
                        fenceEpoch := e'.fenceEpoch, leaseUntil := e'.leaseUntil, timeoutAt := e'.timeoutAt)
            && e.fenceEpoch <= e'.fenceEpoch
            && e'.timeoutAt.Some? && (e.timeoutAt.Some? ==> e'.timeoutAt == e.timeoutAt)))
  }

  predicate SameBudgets(e: Execution, e': Execution) {
    e'.maxAttempts == e.maxAttempts && e'.maxRecoveries == e.maxRecoveries
  }

  /** A reported result: never past the cap, and it charges exactly the start nobody recorded. */
  predicate ReportStep(utc: Clock, e: Execution, e': Execution) {
    && e.status.InFlight() && !PastCap(e, utc)
    && e'.attemptNo == e.attemptNo + (if e.status.Dispatching? then 1 else 0)
    && e'.recoveryCount == e.recoveryCount && e'.fenceEpoch == e.fenceEpoch && SameBudgets(e, e')
  }

  /** An attempt ended by the scheduler: nothing is charged and its epoch moves on. */
  predicate FenceStep(e: Execution, e': Execution) {
    && e.status.InFlight()
    && e'.status == (if e.status.CancelRequested? then Cancelled else Dead)
    && e'.attemptNo == e.attemptNo && SameBudgets(e, e')
    && e'.fenceEpoch == e.fenceEpoch + 1 && e'.timeoutAt == e.timeoutAt
  }

  predicate OwnedStep(op: Op, utc: Clock, e: Execution, e': Execution) {
    match op
    case Accept(_, _, _, _) =>
      && e.status.Dispatching?
      && e' == e.(status := Running, attemptNo := e.attemptNo + 1, startedAt := e'.startedAt,
                  deadlineAt := e'.deadlineAt)
    case Refuse(_, _) =>
      && e.status.Dispatching? && (if PastCap(e, utc) then e'.status.Dead? else e'.status.Ready?)
      && e'.attemptNo == e.attemptNo && e'.recoveryCount == e.recoveryCount && SameBudgets(e, e')
      && e'.timeoutAt == e.timeoutAt && e'.fenceEpoch == e.fenceEpoch && e'.runToken.None?
    case Retarget(_, _) => e.status.Dispatching? && e' == e.(dispatchedTo := e'.dispatchedTo)
    case Renew(_, _) => e.status.InFlight() && e' == e.(leaseUntil := e'.leaseUntil)
    case ExtendDeadline(_, _) => e.status.InFlight() && !PastCap(e, utc) && e' == e.(deadlineAt := e'.deadlineAt)
    case Complete(_, _) =>
      ReportStep(utc, e, e') && e'.status.Terminal() && e'.timeoutAt == e.timeoutAt && e'.runToken == e.runToken
    case Retry(_, _, _) =>
      && ReportStep(utc, e, e') && e'.runToken.None?
      && (if e'.maxAttempts <= e'.attemptNo then e'.status.Dead? && e'.timeoutAt == e.timeoutAt
          else e'.status.Ready? && e'.timeoutAt.None?)
    case Adopt(_, _, _, _, promote) =>
      && e.status.InFlight() && !PastCap(e, utc) && LeaseLapsed(e.leaseUntil, utc)
      && var started := promote && e.status.Dispatching?;
      && e' == e.(owner := e'.owner, fenceEpoch := e.fenceEpoch + 1, leaseUntil := e'.leaseUntil,
                  status := if started then Running else e.status,
                  attemptNo := if started then e.attemptNo + 1 else e.attemptNo,
                  startedAt := e'.startedAt, deadlineAt := e'.deadlineAt)
    case Resolve(_, _) =>
      && e.status.InFlight() && LeaseLapsed(e.leaseUntil, utc)
      && e'.status == Tx.ResolvedStatus(e, utc) && e'.runToken.None?
      && e'.attemptNo == e.attemptNo && e'.recoveryCount == e.recoveryCount + 1 && SameBudgets(e, e')
      && e'.fenceEpoch == e.fenceEpoch + 1 && e'.timeoutAt == (if e'.status.Ready? then None else e.timeoutAt)
    case FenceTimedOut(_) => FenceStep(e, e') && e'.recoveryCount == e.recoveryCount && e'.runToken == e.runToken
    case ExpireSilent(_) =>
      && FenceStep(e, e') && e'.recoveryCount == e.recoveryCount && e'.runToken == e.runToken
      && !e.status.Dispatching? && SilenceLapsed(e, utc)
    case ReleaseAsOwner(_) =>
      && FenceStep(e, e') && e'.recoveryCount == e.recoveryCount + 1 && e'.runToken.None?
      && !LeaseLapsed(e.leaseUntil, utc)
    case _ => false
  }

  /** Everything a step may do to a row of the execution it targets. */
  predicate RowStep(op: Op, now: Instant, utc: Clock, e: Execution, e': Execution) {
    match op
    case Claim(p, _) => ClaimStep(p.token, utc, e, e')
    case RequestCancel(_) => (e.status.Dispatching? || e.status.Running?) && e' == e.(status := CancelRequested)
    case Retire(job) => e' == Tx.RetiredRow(e, job, now)
    case AuthorizedRetry(_) =>
      && e.status.Dead?
      && e' == e.(status := Ready, maxAttempts := e.attemptNo + 1, availableAt := now,
                  reason := None, finishedAt := None, timeoutAt := None)
    case _ => Presents(op, e) && OwnedStep(op, utc, e, e')
  }

  /** A row keeps its identity for ever. */
  predicate SameOrigin(e: Execution, e': Execution) {
    e'.key == e.key && e'.job == e.job && e'.trigger == e.trigger && e'.scheduledAt == e.scheduledAt
  }

  /** The row is untouched, or the step targets it and moves it along the automaton. */
  predicate Moves(s: Step, id: int, e: Execution, e': Execution) {
    && SameOrigin(e, e')
    && (e' == e || (Targets(s.op, id, e.job) && RowStep(s.op, s.now, s.utc, e, e')))
  }

  /** A claim rewrites no execution but its own. */
  lemma ClaimLeavesOthers(db: Db, p: Tx.ClaimParams, served: bool, now: Instant, utc: Clock, id: int)
    requires id in db.execs && id != p.id
    ensures var db' := Tx.After(db, Tx.Claim(db, p, served, now, utc)); id in db'.execs && db'.execs[id] == db.execs[id]
  {
  }

  lemma AcquireMoves(w: World, p: Tx.ClaimParams, served: bool, now: Instant, utc: Clock)
    requires Inv(w) && p.id in w.db.execs
    requires var tx := Tx.Claim(w.db, p, served, now, utc); tx.Commit? && tx.value.Acquired?
    ensures var db' := Tx.Claim(w.db, p, served, now, utc).db;
            p.id in db'.execs && SameOrigin(w.db.execs[p.id], db'.execs[p.id])
              && ClaimStep(p.token, utc, w.db.execs[p.id], db'.execs[p.id])
  {
    assert RowOk(w, w.db.execs[p.id]);
  }

  lemma DeferMoves(db: Db, p: Tx.ClaimParams, served: bool, now: Instant, utc: Clock)
    requires p.id in db.execs
    requires var tx := Tx.Claim(db, p, served, now, utc); tx.Commit? && tx.value.Deferred?
    ensures var db' := Tx.Claim(db, p, served, now, utc).db;
            p.id in db'.execs
              && (db'.execs[p.id] == db.execs[p.id] || ClaimStep(p.token, utc, db.execs[p.id], db'.execs[p.id]))
            && SameOrigin(db.execs[p.id], db'.execs[p.id])
  {
  }

  lemma ClaimEndMoves(w: World, p: Tx.ClaimParams, served: bool, now: Instant, utc: Clock)
    requires Inv(w) && p.id in w.db.execs
    requires var tx := Tx.Claim(w.db, p, served, now, utc); tx.Commit? && (tx.value.ClaimSkipped? || tx.value.Expired?)
    ensures var db' := Tx.Claim(w.db, p, served, now, utc).db;
            p.id in db'.execs && SameOrigin(w.db.execs[p.id], db'.execs[p.id])
              && ClaimStep(p.token, utc, w.db.execs[p.id], db'.execs[p.id])
  {
    assert RowOk(w, w.db.execs[p.id]);
  }

  lemma ClaimMoves(w: World, p: Tx.ClaimParams, served: bool, now: Instant, utc: Clock, id: int)
    requires Inv(w) && id in w.db.execs
    ensures var db' := Tx.After(w.db, Tx.Claim(w.db, p, served, now, utc));
            id in db'.execs && Moves(Step(Claim(p, served), now, utc), id, w.db.execs[id], db'.execs[id])
  {
    var tx := Tx.Claim(w.db, p, served, now, utc);
    if id != p.id {
      ClaimLeavesOthers(w.db, p, served, now, utc, id);
    } else if tx.Commit? && tx.value.Acquired? {
      AcquireMoves(w, p, served, now, utc);
    } else if tx.Commit? && tx.value.Deferred? {
      DeferMoves(w.db, p, served, now, utc);
    } else if tx.Commit? {
      ClaimEndMoves(w, p, served, now, utc);
    }
  }

  /** What the common tail writes: one execution, one released state row. */
  lemma FinishEffect(db: Db, job: JobName, id: int, key: ExecutionKey, token: Token, succeeded: bool,
                     e: Execution, sentTo: Option<Executor>, outcome: AttemptOutcome, now: Instant)
    requires job in db.states
    ensures var tx := Tx.Finish(db, job, id, key, token, succeeded, e, sentTo, outcome, now);
            tx.Commit? ==>
              && tx.db.execs == db.execs[id := e] && tx.db.defs == db.defs
              && job in tx.db.states && tx.db.states[job].active.Free?
              && tx.db.attempts == Tx.Recorded(db.attempts, key, token, Attempt(e.attemptNo, sentTo, outcome, now))
  {
  }

  /** Reported results. */
  lemma CompleteMoves(w: World, h: Holder, o: Tx.Outcome, now: Instant, utc: Clock, id: int)
    requires Inv(w) && id in w.db.execs
    ensures var db' := Tx.After(w.db, Tx.Complete(w.db, h, o, now, utc));
            id in db'.execs && Moves(Step(Complete(h, o), now, utc), id, w.db.execs[id], db'.execs[id])
  {
  }

  lemma RetryMoves(w: World, h: Holder, o: Tx.Outcome, backoff: int, now: Instant, utc: Clock, id: int)
    requires Inv(w) && id in w.db.execs
    ensures var db' := Tx.After(w.db, Tx.Retry(w.db, h, o, backoff, now, utc));
            id in db'.execs && Moves(Step(Retry(h, o, backoff), now, utc), id, w.db.execs[id], db'.execs[id])
  {
  }

  lemma ReportMoves(compile: Tx.Compile, w: World, s: Step, id: int)
    requires Tx.Forward(compile) && Inv(w) && id in w.db.execs && (s.op.Complete? || s.op.Retry?)
    ensures var db' := Tables(compile, w.db, s);
            id in db'.execs && Moves(s, id, w.db.execs[id], db'.execs[id])
  {
    if s.op.Complete? {
      CompleteMoves(w, s.op.h, s.op.o, s.now, s.utc, id);
    } else {
      RetryMoves(w, s.op.h, s.op.o, s.op.backoff, s.now, s.utc, id);
    }
  }

  /** Attempts ended by a scheduler. */
  lemma TimeoutMoves(w: World, v: Stale, now: Instant, utc: Clock, id: int)
    requires Inv(w) && id in w.db.execs
    ensures var db' := Tx.After(w.db, Tx.FenceTimedOut(w.db, v, now));
            id in db'.execs && Moves(Step(FenceTimedOut(v), now, utc), id, w.db.execs[id], db'.execs[id])
  {
  }

  lemma SilenceMoves(w: World, v: Stale, now: Instant, utc: Clock, id: int)
    requires Inv(w) && id in w.db.execs
    ensures var db' := Tx.After(w.db, Tx.ExpireSilent(w.db, v, now, utc));
            id in db'.execs && Moves(Step(ExpireSilent(v), now, utc), id, w.db.execs[id], db'.execs[id])
  {
  }

  lemma ReleaseMoves(w: World, h: Holder, now: Instant, utc: Clock, id: int)
    requires Inv(w) && id in w.db.execs
    ensures var db' := Tx.After(w.db, Tx.ReleaseAsOwner(w.db, h, now, utc));
            id in db'.execs && Moves(Step(ReleaseAsOwner(h), now, utc), id, w.db.execs[id], db'.execs[id])
  {
  }

  /** Recovery of an expired holder. */
  lemma ResolveMoves(w: World, v: Stale, backoff: int, now: Instant, utc: Clock, id: int)
    requires Inv(w) && id in w.db.execs
    ensures var db' := Tx.After(w.db, Tx.Resolve(w.db, v, backoff, now, utc));
            id in db'.execs && Moves(Step(Resolve(v, backoff), now, utc), id, w.db.execs[id], db'.execs[id])
  {
  }

  lemma AdoptMoves(w: World, v: Stale, newOwner: Instance, lease: int, silence: int, promote: bool, now: Instant,
                   utc: Clock, id: int)
    requires Inv(w) && id in w.db.execs
    ensures var db' := Tx.After(w.db, Tx.Adopt(w.db, v, newOwner, lease, silence, promote, now, utc));
            id in db'.execs
              && Moves(Step(Adopt(v, newOwner, lease, silence, promote), now, utc), id, w.db.execs[id], db'.execs[id])
  {
  }

  lemma RecoveryMoves(compile: Tx.Compile, w: World, s: Step, id: int)
    requires Tx.Forward(compile) && Inv(w) && id in w.db.execs && (s.op.Resolve? || s.op.Adopt?)
    ensures var db' := Tables(compile, w.db, s);
            id in db'.execs && Moves(s, id, w.db.execs[id], db'.execs[id])
  {
    if s.op.Resolve? {
      ResolveMoves(w, s.op.v, s.op.backoff, s.now, s.utc, id);
    } else {
      AdoptMoves(w, s.op.v, s.op.newOwner, s.op.lease, s.op.silence, s.op.promote, s.now, s.utc, id);
    }
  }

  lemma RefuseMoves(w: World, p: Tx.ClaimParams, epoch: int, now: Instant, utc: Clock, id: int)
    requires Inv(w) && id in w.db.execs
    ensures var db' := Tx.After(w.db, Tx.Refuse(w.db, p, epoch, now, utc));
            id in db'.execs && Moves(Step(Refuse(p, epoch), now, utc), id, w.db.execs[id], db'.execs[id])
  {
  }

  /** Writes under a hold that leave the attempt in flight. */
  lemma HolderMoves(compile: Tx.Compile, w: World, s: Step, id: int)
    requires Tx.Forward(compile) && Inv(w) && id in w.db.execs
    requires s.op.Accept? || s.op.Retarget? || s.op.Renew? || s.op.ExtendDeadline?
    ensures var db' := Tables(compile, w.db, s);
            id in db'.execs && Moves(s, id, w.db.execs[id], db'.execs[id])
  {
  }

  /** Attempts a scheduler ends by itself. */
  lemma FenceMoves(compile: Tx.Compile, w: World, s: Step, id: int)
    requires Tx.Forward(compile) && Inv(w) && id in w.db.execs
    requires s.op.FenceTimedOut? || s.op.ExpireSilent? || s.op.ReleaseAsOwner?
    ensures var db' := Tables(compile, w.db, s);
            id in db'.execs && Moves(s, id, w.db.execs[id], db'.execs[id])
  {
    match s.op
    case FenceTimedOut(v) => TimeoutMoves(w, v, s.now, s.utc, id);
    case ExpireSilent(v) => SilenceMoves(w, v, s.now, s.utc, id);
    case ReleaseAsOwner(h) => ReleaseMoves(w, h, s.now, s.utc, id);
  }

  lemma HoldMoves(compile: Tx.Compile, w: World, s: Step, id: int)
    requires Tx.Forward(compile) && Inv(w) && id in w.db.execs && HoldOf(s.op).Some?
    ensures var db' := Tables(compile, w.db, s);
            id in db'.execs && Moves(s, id, w.db.execs[id], db'.execs[id])
  {
    if s.op.Complete? || s.op.Retry? {
      ReportMoves(compile, w, s, id);
    } else if s.op.Resolve? || s.op.Adopt? {
      RecoveryMoves(compile, w, s, id);
    } else if s.op.FenceTimedOut? || s.op.ExpireSilent? || s.op.ReleaseAsOwner? {
      FenceMoves(compile, w, s, id);
    } else if s.op.Refuse? {
      RefuseMoves(w, s.op.p, s.op.epoch, s.now, s.utc, id);
    } else {
      HolderMoves(compile, w, s, id);
    }
  }

  /** An operator's steps on executions. */
  lemma CancelMoves(db: Db, target: int, now: Instant, utc: Clock, id: int)
    requires id in db.execs
    ensures var db' := Tx.After(db, Tx.RequestCancel(db, target));
            id in db'.execs && Moves(Step(RequestCancel(target), now, utc), id, db.execs[id], db'.execs[id])
  {
  }

  lemma RetireMoves(db: Db, job: JobName, now: Instant, utc: Clock, id: int)
    requires id in db.execs
    ensures var db' := Tx.After(db, Tx.Retire(db, job, now));
            id in db'.execs && Moves(Step(Retire(job), now, utc), id, db.execs[id], db'.execs[id])
  {
  }

  lemma RevivalMoves(db: Db, target: int, now: Instant, utc: Clock, id: int)
    requires id in db.execs
    ensures var db' := Tx.After(db, Tx.AuthorizedRetry(db, target, now));
            id in db'.execs && Moves(Step(AuthorizedRetry(target), now, utc), id, db.execs[id], db'.execs[id])
  {
  }

  lemma OperatorMoves(compile: Tx.Compile, w: World, s: Step, id: int)
    requires Tx.Forward(compile) && id in w.db.execs && (s.op.RequestCancel? || s.op.Retire? || s.op.AuthorizedRetry?)
    ensures var db' := Tables(compile, w.db, s);
            id in db'.execs && Moves(s, id, w.db.execs[id], db'.execs[id])
  {
    match s.op
    case RequestCancel(target) => CancelMoves(w.db, target, s.now, s.utc, id);
    case Retire(job) => RetireMoves(w.db, job, s.now, s.utc, id);
    case AuthorizedRetry(target) => RevivalMoves(w.db, target, s.now, s.utc, id);
  }

  /** Definitions and clocks change; executions do not. */
  lemma JobStepRows(compile: Tx.Compile, db: Db, s: Step)
    requires Tx.Forward(compile)
    requires s.op.CreateJob? || s.op.UpdateJob? || s.op.SetPaused? || s.op.Recompute?
    ensures Tables(compile, db, s).execs == db.execs
  {
  }

  /** An insertion leaves every row it finds. */
  lemma CronInserts(db: Db, compile: Tx.Compile, target: int, job: JobName, grace: int, now: Instant, id: int)
    requires Tx.Forward(compile) && target !in db.execs && id in db.execs
    ensures var db' := Tx.After(db, Tx.MaterializeCron(db, compile, target, job, grace, now));
            id in db'.execs && db'.execs[id] == db.execs[id]
  {
  }

  lemma PollInserts(db: Db, compile: Tx.Compile, target: int, job: JobName, pass: int, now: Instant, id: int)
    requires Tx.Forward(compile) && target !in db.execs && id in db.execs
    ensures var db' := Tx.After(db, Tx.MaterializePoll(db, compile, target, job, pass, now));
            id in db'.execs && db'.execs[id] == db.execs[id]
  {
  }

  lemma InsertMoves(compile: Tx.Compile, w: World, s: Step, id: int)
    requires Tx.Forward(compile) && Enabled(w, s) && id in w.db.execs
    requires s.op.TriggerRun? || s.op.MaterializeCron? || s.op.MaterializePoll?
    ensures var db' := Tables(compile, w.db, s);
            id in db'.execs && db'.execs[id] == w.db.execs[id]
  {
    if s.op.MaterializeCron? {
      CronInserts(w.db, compile, s.op.id, s.op.job, s.op.grace, s.now, id);
    } else if s.op.MaterializePoll? {
      PollInserts(w.db, compile, s.op.id, s.op.job, s.op.pass, s.now, id);
    }
  }

  /** Every step moves every row along the automaton, or leaves it alone. */
  lemma StepMoves(compile: Tx.Compile, w: World, s: Step, id: int)
    requires Tx.Forward(compile) && Inv(w) && Enabled(w, s) && id in w.db.execs
    ensures var w' := Next(compile, w, s);
            id in w'.db.execs && Moves(s, id, w.db.execs[id], w'.db.execs[id])
  {
    if s.op.Claim? {
      ClaimMoves(w, s.op.p, s.op.served, s.now, s.utc, id);
    } else if HoldOf(s.op).Some? {
      HoldMoves(compile, w, s, id);
    } else if s.op.RequestCancel? || s.op.Retire? || s.op.AuthorizedRetry? {
      OperatorMoves(compile, w, s, id);
    } else if s.op.TriggerRun? || s.op.MaterializeCron? || s.op.MaterializePoll? {
      InsertMoves(compile, w, s, id);
    } else {
      JobStepRows(compile, w.db, s);
    }
  }

  function TargetOf(op: Op): int
    requires HoldOf(op).Some?
  {
    match op
    case Accept(id, _, _, _) => id
    case Refuse(p, _) => p.id
    case Retarget(h, _) => h.id
    case Renew(h, _) => h.id
    case ExtendDeadline(h, _) => h.id
    case Complete(h, _) => h.id
    case Retry(h, _, _) => h.id
    case Adopt(v, _, _, _, _) => v.id
    case Resolve(v, _) => v.id
    case FenceTimedOut(v) => v.id
    case ExpireSilent(v) => v.id
    case ReleaseAsOwner(h) => h.id
  }

  /** Either nothing changed, or the target was in flight under exactly the hold presented and is
      the only execution rewritten. */
  predicate Guarded(op: Op, db: Db, db': Db)
    requires HoldOf(op).Some?
  {
    || db' == db
    || (&& RunsUnder(db, TargetOf(op), HoldOf(op).value.0, HoldOf(op).value.1)
        && TargetOf(op) in db'.execs
        && db'.execs == db.execs[TargetOf(op) := db'.execs[TargetOf(op)]]
        && db'.defs == db.defs)
  }

  /** The transactions that end an owned attempt and record it. */
  predicate Ends(op: Op) {
    op.Complete? || op.Retry? || op.Resolve? || op.FenceTimedOut? || op.ExpireSilent? || op.ReleaseAsOwner?
  }

  function AsHolder(v: Stale): Holder {
    Holder(v.job, v.id, v.key, 0, v.token, v.epoch)
  }

  function HolderOf(op: Op): (h: Holder)
    requires Ends(op)
    ensures HoldOf(op) == Some((h.token, h.epoch)) && TargetOf(op) == h.id
  {
    match op
    case Complete(h, _) => h
    case Retry(h, _, _) => h
    case ReleaseAsOwner(h) => h
    case Resolve(v, _) => AsHolder(v)
    case FenceTimedOut(v) => AsHolder(v)
    case ExpireSilent(v) => AsHolder(v)
  }

  lemma MissingRow(compile: Tx.Compile, db: Db, s: Step)
    requires Tx.Forward(compile) && Ends(s.op) && HolderOf(s.op).id !in db.execs
    ensures Tables(compile, db, s) == db
  {
  }

  lemma ReportForm(compile: Tx.Compile, db: Db, s: Step)
      returns (succeeded: bool, e: Execution, sentTo: Option<Executor>, outcome: AttemptOutcome)
    requires Tx.Forward(compile) && (s.op.Complete? || s.op.Retry?) && HolderOf(s.op).id in db.execs
    ensures var h, db' := HolderOf(s.op), Tables(compile, db, s);
            db' == db || (&& HoldsJob(db, h.job, h.token, h.epoch) && RunsUnder(db, h.id, h.token, h.epoch)
                          && db' == Tx.After(db, Tx.Finish(db, h.job, h.id, h.key, h.token, succeeded,
                                                           e, sentTo, outcome, s.now)))
  {
    var charged, o := Tx.Charged(db.execs[s.op.h.id], s.now), s.op.o;
    sentTo, outcome := o.executor, o.attempt;
    if s.op.Complete? {
      succeeded, e := o.status.Success?, Tx.Ended(charged, o.status, o.reason, s.now).(leaseUntil := None);
    } else {
      succeeded, e := false, Tx.Retried(charged, s.op.backoff, s.now);
    }
  }

  lemma ResolveForm(compile: Tx.Compile, db: Db, s: Step)
    requires Tx.Forward(compile) && s.op.Resolve? && s.op.v.id in db.execs
    ensures var v, db' := s.op.v, Tables(compile, db, s);
            db' == db || (&& HoldsJob(db, v.job, v.token, v.epoch) && RunsUnder(db, v.id, v.token, v.epoch)
                          && db' == Tx.After(db, Tx.Finish(db, v.job, v.id, v.key, v.token, false,
                                                           Tx.Resolved(db.execs[v.id], s.op.backoff, s.now, s.utc),
                                                           v.sentTo, AttemptUnknown, s.now)))
  {
  }

  lemma TimeoutForm(db: Db, v: Stale, now: Instant)
    requires v.id in db.execs
    ensures var db' := Tx.After(db, Tx.FenceTimedOut(db, v, now));
            db' == db || (&& HoldsJob(db, v.job, v.token, v.epoch) && RunsUnder(db, v.id, v.token, v.epoch)
                          && db' == Tx.After(db, Tx.Finish(db, v.job, v.id, v.key, v.token, false,
                                                           Tx.FencedOff(db.execs[v.id], ReasonTimeout, now),
                                                           v.sentTo, AttemptFenced, now)))
  {
  }

  lemma SilenceForm(db: Db, v: Stale, now: Instant, utc: Clock)
    requires v.id in db.execs
    ensures var db' := Tx.After(db, Tx.ExpireSilent(db, v, now, utc));
            db' == db || (&& HoldsJob(db, v.job, v.token, v.epoch) && RunsUnder(db, v.id, v.token, v.epoch)
                          && db' == Tx.After(db, Tx.Finish(db, v.job, v.id, v.key, v.token, false,
                                                           Tx.FencedOff(db.execs[v.id], ReasonFenced, now),
                                                           v.sentTo, AttemptUnknown, now)))
  {
  }

  function GivenUp(e: Execution, now: Instant): Execution {
    Tx.Disowned(Tx.FencedOff(e, ReasonFenced, now)).(recoveryCount := e.recoveryCount + 1)
  }

  lemma ReleaseForm(db: Db, h: Holder, now: Instant, utc: Clock)
    requires h.id in db.execs
    ensures var db' := Tx.After(db, Tx.ReleaseAsOwner(db, h, now, utc));
            db' == db || (&& HoldsJob(db, h.job, h.token, h.epoch) && RunsUnder(db, h.id, h.token, h.epoch)
                          && db' == Tx.After(db, Tx.Finish(db, h.job, h.id, h.key, h.token, false,
                                                           GivenUp(db.execs[h.id], now), None, AttemptUnknown, now)))
  {
  }

  lemma FenceForm(compile: Tx.Compile, db: Db, s: Step)
      returns (e: Execution, sentTo: Option<Executor>, outcome: AttemptOutcome)
    requires Tx.Forward(compile) && (s.op.FenceTimedOut? || s.op.ExpireSilent? || s.op.ReleaseAsOwner?)
    requires HolderOf(s.op).id in db.execs
    ensures var h, db' := HolderOf(s.op), Tables(compile, db, s);
            db' == db || (&& HoldsJob(db, h.job, h.token, h.epoch) && RunsUnder(db, h.id, h.token, h.epoch)
                          && db' == Tx.After(db, Tx.Finish(db, h.job, h.id, h.key, h.token, false,
                                                           e, sentTo, outcome, s.now)))
  {
    match s.op
    case FenceTimedOut(v) =>
      TimeoutForm(db, v, s.now);
      sentTo, outcome, e := v.sentTo, AttemptFenced, Tx.FencedOff(db.execs[v.id], ReasonTimeout, s.now);
    case ExpireSilent(v) =>
      SilenceForm(db, v, s.now, s.utc);
      sentTo, outcome, e := v.sentTo, AttemptUnknown, Tx.FencedOff(db.execs[v.id], ReasonFenced, s.now);
    case ReleaseAsOwner(h) =>
      ReleaseForm(db, h, s.now, s.utc);
      sentTo, outcome, e := None, AttemptUnknown, GivenUp(db.execs[h.id], s.now);
  }

  /** All of them share one tail, under guards that need the hold to be current on both rows. */
  lemma FinishForm(compile: Tx.Compile, db: Db, s: Step)
      returns (succeeded: bool, e: Execution, sentTo: Option<Executor>, outcome: AttemptOutcome)
    requires Tx.Forward(compile) && Ends(s.op) && HolderOf(s.op).id in db.execs
    ensures var h, db' := HolderOf(s.op), Tables(compile, db, s);
            db' == db || (&& HoldsJob(db, h.job, h.token, h.epoch) && RunsUnder(db, h.id, h.token, h.epoch)
                          && db' == Tx.After(db, Tx.Finish(db, h.job, h.id, h.key, h.token, succeeded,
                                                           e, sentTo, outcome, s.now)))
  {
    if s.op.Complete? || s.op.Retry? {
      succeeded, e, sentTo, outcome := ReportForm(compile, db, s);
    } else if s.op.Resolve? {
      ResolveForm(compile, db, s);
      succeeded, e := false, Tx.Resolved(db.execs[s.op.v.id], s.op.backoff, s.now, s.utc);
      sentTo, outcome := s.op.v.sentTo, AttemptUnknown;
    } else {
      succeeded := false;
      e, sentTo, outcome := FenceForm(compile, db, s);
    }
  }

  lemma EndGuarded(compile: Tx.Compile, db: Db, s: Step)
    requires Tx.Forward(compile) && Ends(s.op)
    ensures Guarded(s.op, db, Tables(compile, db, s))
  {
    var h := HolderOf(s.op);
    if h.id !in db.execs {
      MissingRow(compile, db, s);
    } else {
      var succeeded, e, sentTo, outcome := FinishForm(compile, db, s);
      if Tables(compile, db, s) != db {
        FinishEffect(db, h.job, h.id, h.key, h.token, succeeded, e, sentTo, outcome, s.now);
      }
    }
  }

  /** A guarded write under a hold no in-flight row carries changes nothing; otherwise it
      rewrites that row. This needs no invariant: it is what the guards say. */
  lemma GuardedWrite(compile: Tx.Compile, db: Db, s: Step)
    requires Tx.Forward(compile) && HoldOf(s.op).Some?
    ensures Guarded(s.op, db, Tables(compile, db, s))
  {
    if Ends(s.op) {
      EndGuarded(compile, db, s);
    }
  }

  /** A row appears only by being inserted, `ready`, unowned and uncharged, for a job not retired. */
  lemma StepInserts(compile: Tx.Compile, w: World, s: Step, id: int)
    requires Tx.Forward(compile) && Inv(w) && Enabled(w, s) && id !in w.db.execs && id in Next(compile, w, s).db.execs
    ensures var e := Next(compile, w, s).db.execs[id];
            && e.job in w.db.defs && !w.db.defs[e.job].retired
            && e == Tx.NewExecution(e.key, e.job, e.trigger, e.scheduledAt, w.db.defs[e.job])
            && (s.op.TriggerRun? || s.op.MaterializeCron? || s.op.MaterializePoll?)
            && s.op.id == id && s.op.job == e.job
  {
    if HoldOf(s.op).Some? {
      GuardedWrite(compile, w.db, s);
    } else if s.op.Claim? {
      ClaimKeepsIds(w.db, s.op.p, s.op.served, s.now, s.utc);
    }
  }

  lemma ClaimKeepsIds(db: Db, p: Tx.ClaimParams, served: bool, now: Instant, utc: Clock)
    ensures Tx.After(db, Tx.Claim(db, p, served, now, utc)).execs.Keys == db.execs.Keys
  {
  }
}
