/** What an owner may do with its hold, column by column: accept, be refused, retarget, renew, report progress; and
  how a hold that ran out passes on. */
module Holding {
  import opened Rows
  import opened Schedules
  import opened Protocol
  import opened Preservation
  import opened RowSteps
  import opened Runs
  import opened Claiming
  import Tx = Transactions

  /** The job is held under this token and epoch. */
  predicate JobHeld(db: Db, job: JobName, token: Token, epoch: int) {
    && job in db.states && db.states[job].active.Held?
    && db.states[job].active.token == token && db.states[job].fenceEpoch == epoch
  }

  /** The row carries this token and epoch. */
  predicate RowCarries(db: Db, id: int, token: Token, epoch: int) {
    id in db.execs && db.execs[id].runToken == Some(token) && db.execs[id].fenceEpoch == epoch
  }

  /** Dispatching, running, or asked to stop. */
  predicate Started(e: Execution) {
    e.status == Dispatching || e.status == Running || e.status == CancelRequested
  }

  function OrNow(t: Option<Instant>, now: Instant): Option<Instant> {
    if t.Some? then t else Some(now)
  }

  predicate AcceptedAs(db: Db, db': Db, id: int, token: Token, epoch: int, silence: int, now: Instant, utc: Clock) {
    if RowCarries(db, id, token, epoch) && db.execs[id].status == Dispatching then
      var e := db.execs[id];
      OnlyRow(db, db', id, e.(status := Running, attemptNo := e.attemptNo + 1,
                              startedAt := OrNow(e.startedAt, now), deadlineAt := Some(utc + silence)))
    else db' == db
  }

  lemma AcceptLaw(db: Db, id: int, token: Token, epoch: int, silence: int, now: Instant, utc: Clock)
    ensures AcceptedAs(db, Tx.After(db, Tx.Accept(db, id, token, epoch, silence, now, utc)), id, token, epoch, silence,
                       now, utc)
  {
  }

  predicate RetargetedAs(db: Db, db': Db, h: Holder, x: Executor) {
    if RowCarries(db, h.id, h.token, h.epoch) && db.execs[h.id].status == Dispatching then
      OnlyRow(db, db', h.id, db.execs[h.id].(dispatchedTo := Some(x)))
    else db' == db
  }

  lemma RetargetLaw(db: Db, h: Holder, x: Executor)
    ensures RetargetedAs(db, Tx.After(db, Tx.Retarget(db, h, x)), h, x)
  {
  }

  /** A renewal moves both leases to the lease given, from the clock it reads, for the owner of a hold not run out. */
  predicate RenewedAs(db: Db, db': Db, h: Holder, lease: int, utc: Clock) {
    if && JobHeld(db, h.job, h.token, h.epoch) && RowCarries(db, h.id, h.token, h.epoch)
       && Started(db.execs[h.id]) && db.execs[h.id].owner == Some(h.owner)
       && db.execs[h.id].leaseUntil.Some? && utc <= db.execs[h.id].leaseUntil.value
    then
      var st, e := db.states[h.job], db.execs[h.id];
      && db' == db.(states := db'.states, execs := db.execs[h.id := e.(leaseUntil := Some(utc + lease))])
      && db'.states == db.states[h.job := st.(active := Held(st.active.execution, st.active.owner,
                                                             st.active.token, st.active.sentTo, utc + lease))]
    else db' == db
  }

  lemma RenewLaw(db: Db, h: Holder, lease: int, utc: Clock)
    ensures RenewedAs(db, Tx.After(db, Tx.Renew(db, h, lease, utc)), h, lease, utc)
  {
  }

  predicate ProgressedAs(db: Db, db': Db, h: Holder, silence: int, utc: Clock) {
    if && RowCarries(db, h.id, h.token, h.epoch) && Started(db.execs[h.id])
       && !Elapsed(db.execs[h.id].timeoutAt, utc)
    then OnlyRow(db, db', h.id, db.execs[h.id].(deadlineAt := Some(utc + silence)))
    else db' == db
  }

  lemma ProgressLaw(db: Db, h: Holder, silence: int, utc: Clock)
    ensures ProgressedAs(db, Tx.After(db, Tx.ExtendDeadline(db, h, silence, utc)), h, silence, utc)
  {
  }

  /** The row a refusal leaves: nothing charged, nothing owned; over its cap it is dead, below it ready again. */
  function RefusedRow(e: Execution, backoff: int, now: Instant, utc: Clock): Execution {
    var late := Elapsed(e.timeoutAt, utc);
    e.(status := if late then Dead else Ready, reason := if late then Some(ReasonTimeout) else None,
       finishedAt := if late then Some(now) else None,
       availableAt := if late then e.availableAt else now + backoff * 1_000_000_000,
       owner := None, dispatchedTo := None, runToken := None, leaseUntil := None)
  }

  /** The poll clock after a row of the job has come to rest. */
  function ClockAfter(db: Db, job: JobName, e': Execution, now: Instant): Option<Instant>
    requires job in db.states && job in db.defs
  {
    var over := e'.status == Success || e'.status == Dead || e'.status == Cancelled || e'.status == Skipped;
    if db.defs[job].kind == FixedDelay && e'.job == job && e'.trigger == ByPoll && over then
      Some(now + Delay(db.defs[job]))
    else db.states[job].nextPollAt
  }

  predicate RefusedAs(db: Db, db': Db, p: Tx.ClaimParams, epoch: int, now: Instant, utc: Clock)
    requires p.job in db.states ==> p.job in db.defs
  {
    if && JobHeld(db, p.job, p.token, epoch) && RowCarries(db, p.id, p.token, epoch)
       && db.execs[p.id].status == Dispatching
    then
      var e' := RefusedRow(db.execs[p.id], p.backoff, now, utc);
      && db'.defs == db.defs && db'.attempts == db.attempts && db'.execs == db.execs[p.id := e']
      && db'.states == db.states[p.job := db.states[p.job].(active := Free,
                                                           nextPollAt := ClockAfter(db, p.job, e', now))]
    else db' == db
  }

  lemma RefuseLaw(db: Db, p: Tx.ClaimParams, epoch: int, now: Instant, utc: Clock)
    requires p.job in db.states ==> p.job in db.defs && ValidDefinition(db.defs[p.job])
    ensures RefusedAs(db, Tx.After(db, Tx.Refuse(db, p, epoch, now, utc)), p, epoch, now, utc)
  {
  }

  /** A hold that ran out below its cap passes to a new owner at the next epoch, with a new lease on both rows; a
      start nobody recorded may be recorded with it. */
  predicate AdoptedAs(db: Db, db': Db, v: Stale, owner: Instance, lease: int, silence: int, promote: bool,
                      now: Instant, utc: Clock) {
    if && JobHeld(db, v.job, v.token, v.epoch) && RowCarries(db, v.id, v.token, v.epoch)
       && Started(db.execs[v.id]) && db.states[v.job].active.lease < utc
       && !Elapsed(db.execs[v.id].timeoutAt, utc)
    then
      var st, e := db.states[v.job], db.execs[v.id];
      var start := promote && e.status == Dispatching;
      && db'.defs == db.defs && db'.attempts == db.attempts
      && db'.states == db.states[v.job := st.(fenceEpoch := v.epoch + 1,
                                              active := Held(st.active.execution, owner, st.active.token,
                                                             st.active.sentTo, utc + lease))]
      && db'.execs == db.execs[v.id := e.(owner := Some(owner), fenceEpoch := v.epoch + 1,
                                          leaseUntil := Some(utc + lease),
                                          status := if start then Running else e.status,
                                          attemptNo := e.attemptNo + if start then 1 else 0,
                                          startedAt := if start then OrNow(e.startedAt, now) else e.startedAt,
                                          deadlineAt := if start then Some(utc + silence) else e.deadlineAt)]
    else db' == db
  }

  lemma AdoptLaw(db: Db, v: Stale, owner: Instance, lease: int, silence: int, promote: bool, now: Instant, utc: Clock)
    ensures AdoptedAs(db, Tx.After(db, Tx.Adopt(db, v, owner, lease, silence, promote, now, utc)), v, owner, lease,
                      silence, promote, now, utc)
  {
  }

  predicate OfHolder(op: Op) {
    op.Accept? || op.Refuse? || op.Retarget? || op.Renew? || op.ExtendDeadline? || op.Adopt?
  }

  /** Everything such a step does to the tables. */
  predicate HoldEffect(s: Step, db: Db, db': Db)
    requires OfHolder(s.op) && db.states.Keys <= db.defs.Keys
  {
    match s.op
    case Accept(id, token, epoch, silence) => AcceptedAs(db, db', id, token, epoch, silence, s.now, s.utc)
    case Refuse(p, epoch) => RefusedAs(db, db', p, epoch, s.now, s.utc)
    case Retarget(h, x) => RetargetedAs(db, db', h, x)
    case Renew(h, lease) => RenewedAs(db, db', h, lease, s.utc)
    case ExtendDeadline(h, silence) => ProgressedAs(db, db', h, silence, s.utc)
    case Adopt(v, owner, lease, silence, promote) =>
      AdoptedAs(db, db', v, owner, lease, silence, promote, s.now, s.utc)
  }

  /** A step under a hold, in a run: it has its effect under its condition, and otherwise none. */
  lemma HoldLaw(compile: Tx.Compile, ws: seq<World>, ss: seq<Step>, k: nat)
    requires Run(compile, ws, ss) && k < |ss| && OfHolder(ss[k].op)
    ensures ws[k].db.states.Keys <= ws[k].db.defs.Keys && HoldEffect(ss[k], ws[k].db, ws[k + 1].db)
  {
    Reachable(compile, ws, ss, k);
    assert Follows(compile, ws, ss, k);
    var db, s := ws[k].db, ss[k];
    match s.op
    case Accept(id, token, epoch, silence) => AcceptLaw(db, id, token, epoch, silence, s.now, s.utc);
    case Refuse(p, epoch) =>
      assert p.job in db.states ==> JobOk(ws[k], p.job);
      RefuseLaw(db, p, epoch, s.now, s.utc);
    case Retarget(h, x) => RetargetLaw(db, h, x);
    case Renew(h, lease) => RenewLaw(db, h, lease, s.utc);
    case ExtendDeadline(h, silence) => ProgressLaw(db, h, silence, s.utc);
    case Adopt(v, owner, lease, silence, promote) =>
      AdoptLaw(db, v, owner, lease, silence, promote, s.now, s.utc);
  }
}
