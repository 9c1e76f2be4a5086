/** Who gets dispatched. A row enters `dispatching` by a claim, exactly when it is ready, inside its budget and its
  cap, and its job is open, served and free; what every other claim does is said column by column. */
module Claiming {
  import opened Rows
  import opened Schedules
  import opened Protocol
  import opened Preservation
  import opened RowSteps
  import opened Runs
  import Tx = Transactions

  /** A deadline of the database clock that has passed. */
  predicate Elapsed(t: Option<Clock>, utc: Clock) {
    t.Some? && t.value < utc
  }

  /** The claim names a ready row, its key and its job. */
  predicate Candidate(db: Db, p: Tx.ClaimParams) {
    && p.job in db.states && p.job in db.defs
    && p.id in db.execs && db.execs[p.id].job == p.job && db.execs[p.id].key == p.key
    && db.execs[p.id].status == Ready
  }

  /** The job may run: nobody paused it, it is enabled and not retired, and some executor serves it. */
  predicate Open(db: Db, job: JobName, served: bool)
    requires job in db.states && job in db.defs
  {
    db.states[job].paused == false && db.defs[job].enabled == true && db.defs[job].retired == false && served == true
  }

  /** A held job passes over a scheduled occurrence instead of keeping it waiting. */
  predicate PassesOver(db: Db, p: Tx.ClaimParams)
    requires Candidate(db, p)
  {
    db.defs[p.job].concurrency == Forbid && db.execs[p.id].trigger != ByHand
  }

  predicate Claimable(db: Db, p: Tx.ClaimParams, served: bool, utc: Clock) {
    && Candidate(db, p) && !Elapsed(db.execs[p.id].timeoutAt, utc)
    && db.execs[p.id].attemptNo < db.execs[p.id].maxAttempts
    && Open(db, p.job, served) && db.states[p.job].active == Free
  }

  /** The answer to a claim of a ready row, one condition for each. */
  lemma ClaimAnswers(db: Db, p: Tx.ClaimParams, served: bool, now: Instant, utc: Clock)
    requires Candidate(db, p) && ValidDefinition(db.defs[p.job])
    ensures var tx, late := Tx.Claim(db, p, served, now, utc), Elapsed(db.execs[p.id].timeoutAt, utc);
            var open, free := Open(db, p.job, served), db.states[p.job].active == Free;
            && (tx.Commit? && tx.value.Expired? <==> late)
            && (tx.Commit? && tx.value.Acquired? <==> Claimable(db, p, served, utc))
            && (tx.Commit? && tx.value.ClaimSkipped? <==> !late && open && !free && PassesOver(db, p))
            && (tx.Commit? && tx.value.Deferred? <==> !late && (!open || (!free && !PassesOver(db, p))))
            && (tx.Commit? && tx.value.Acquired? ==> tx.value.epoch == db.states[p.job].fenceEpoch + 1)
  {
  }

  predicate OnlyRow(db: Db, db': Db, id: int, e': Execution) {
    db' == db.(execs := db.execs[id := e'])
  }

  /** What the claim of a ready row leaves behind. */
  predicate ClaimedAs(db: Db, db': Db, p: Tx.ClaimParams, served: bool, now: Instant, utc: Clock)
    requires Candidate(db, p)
  {
    var st, def, e := db.states[p.job], db.defs[p.job], db.execs[p.id];
    if Elapsed(e.timeoutAt, utc) then
      OnlyRow(db, db', p.id, e.(status := Dead, reason := Some(ReasonTimeout), finishedAt := Some(now)))
    else if !Open(db, p.job, served) || (st.active != Free && !PassesOver(db, p)) then
      OnlyRow(db, db', p.id, e.(availableAt := now + p.backoff * 1_000_000_000))
    else if st.active != Free then
      var restarted := def.kind == FixedDelay && e.trigger == ByPoll;
      && db'.defs == db.defs && db'.attempts == db.attempts
      && db'.execs == db.execs[p.id := e.(status := Skipped, reason := Some(ConcurrencySkipped),
                                          finishedAt := Some(now), leaseUntil := None)]
      && db'.states == if restarted then db.states[p.job := st.(nextPollAt := Some(now + Delay(def)))] else db.states
    else
      && db'.defs == db.defs && db'.attempts == db.attempts
      && db'.states == db.states[p.job := st.(active := Held(p.key, p.owner, p.token, p.executor, utc + def.lease),
                                              fenceEpoch := st.fenceEpoch + 1)]
      && db'.execs == db.execs[p.id := e.(status := Dispatching, owner := Some(p.owner), dispatchedTo := p.executor,
                                          runToken := Some(p.token), fenceEpoch := st.fenceEpoch + 1,
                                          leaseUntil := Some(utc + def.lease),
                                          timeoutAt := if e.timeoutAt.Some? then e.timeoutAt
                                                       else Some(utc + def.timeout))]
  }

  lemma ClaimEffect(db: Db, p: Tx.ClaimParams, served: bool, now: Instant, utc: Clock)
    requires Candidate(db, p) && ValidDefinition(db.defs[p.job])
    requires db.execs[p.id].attemptNo < db.execs[p.id].maxAttempts
    ensures ClaimedAs(db, Tx.After(db, Tx.Claim(db, p, served, now, utc)), p, served, now, utc)
  {
    var st := db.states[p.job];
    assert db.states[p.job := st] == db.states;
  }

  lemma IdleClaim(db: Db, p: Tx.ClaimParams, served: bool, now: Instant, utc: Clock)
    requires !Candidate(db, p)
    ensures Tx.After(db, Tx.Claim(db, p, served, now, utc)) == db
  {
  }

  lemma ClaimTablesAt(compile: Tx.Compile, ws: seq<World>, ss: seq<Step>, k: nat)
    requires Run(compile, ws, ss) && k < |ss| && ss[k].op.Claim?
    ensures ws[k + 1].db == Tx.After(ws[k].db, Tx.Claim(ws[k].db, ss[k].op.p, ss[k].op.served, ss[k].now, ss[k].utc))
  {
    assert Follows(compile, ws, ss, k);
  }

  /** A claim in a run: it does to a ready row what its columns and its job's say, and nothing to any other. */
  lemma ClaimLaw(compile: Tx.Compile, ws: seq<World>, ss: seq<Step>, k: nat)
    requires Run(compile, ws, ss) && k < |ss| && ss[k].op.Claim?
    ensures var db, db', p := ws[k].db, ws[k + 1].db, ss[k].op.p;
            if Candidate(db, p) then ClaimedAs(db, db', p, ss[k].op.served, ss[k].now, ss[k].utc) else db' == db
  {
    Reachable(compile, ws, ss, k);
    ClaimTablesAt(compile, ws, ss, k);
    var db, p := ws[k].db, ss[k].op.p;
    if Candidate(db, p) {
      assert JobOk(ws[k], p.job) && RowOk(ws[k], db.execs[p.id]);
      ClaimEffect(db, p, ss[k].op.served, ss[k].now, ss[k].utc);
    } else {
      IdleClaim(db, p, ss[k].op.served, ss[k].now, ss[k].utc);
    }
  }

  predicate IsDispatching(db: Db, id: int) {
    id in db.execs && db.execs[id].status == Dispatching
  }

  lemma OnlyClaimsDispatch(s: Step, id: int, e: Execution, e': Execution)
    requires Moves(s, id, e, e') && e.status != Dispatching && e'.status == Dispatching
    ensures s.op.Claim? && s.op.p.id == id
  {
  }

  lemma ClaimDispatchesIff(db: Db, db': Db, p: Tx.ClaimParams, served: bool, now: Instant, utc: Clock)
    requires Candidate(db, p) && db.execs[p.id].attemptNo < db.execs[p.id].maxAttempts
    requires ClaimedAs(db, db', p, served, now, utc)
    ensures IsDispatching(db', p.id) <==> Claimable(db, p, served, utc)
  {
  }

  /** A row enters `dispatching` at a step if and only if the step claims it and it is claimable: ready, inside its
      budget and its cap, of a job that is not paused, is enabled, unretired, served and free. */
  lemma DispatchedIff(compile: Tx.Compile, ws: seq<World>, ss: seq<Step>, k: nat, id: int)
    requires Run(compile, ws, ss) && k < |ss|
    ensures !IsDispatching(ws[k].db, id) && IsDispatching(ws[k + 1].db, id) <==>
              && ss[k].op.Claim? && ss[k].op.p.id == id
              && Claimable(ws[k].db, ss[k].op.p, ss[k].op.served, ss[k].utc)
  {
    if ss[k].op.Claim? && ss[k].op.p.id == id {
      Reachable(compile, ws, ss, k);
      ClaimLaw(compile, ws, ss, k);
      if Candidate(ws[k].db, ss[k].op.p) {
        assert RowOk(ws[k], ws[k].db.execs[id]);
        ClaimDispatchesIff(ws[k].db, ws[k + 1].db, ss[k].op.p, ss[k].op.served, ss[k].now, ss[k].utc);
      }
    } else if id in ws[k].db.execs {
      MovesAt(compile, ws, ss, k, id);
      if ws[k].db.execs[id].status != Dispatching && ws[k + 1].db.execs[id].status == Dispatching {
        OnlyClaimsDispatch(ss[k], id, ws[k].db.execs[id], ws[k + 1].db.execs[id]);
      }
    } else if id in ws[k + 1].db.execs {
      InsertsAt(compile, ws, ss, k, id);
    }
  }

  /** While a job is paused, disabled or retired, nothing of it is newly dispatched, whoever claims it. */
  lemma ClosedIsNotDispatched(compile: Tx.Compile, ws: seq<World>, ss: seq<Step>, k: nat, id: int)
    requires Run(compile, ws, ss) && k < |ss| && id in ws[k].db.execs
    requires var db, job := ws[k].db, ws[k].db.execs[id].job;
             job in db.states && job in db.defs && !Open(db, job, true)
    ensures IsDispatching(ws[k + 1].db, id) ==> IsDispatching(ws[k].db, id)
  {
    DispatchedIff(compile, ws, ss, k, id);
  }
}
