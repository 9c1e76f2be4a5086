/** The store, statement by statement. Each public method runs one transaction: guarded updates on the
  tables in the order the transaction issues them, stopping at the first that matches no row and
  putting back what was there before. Each is proved to have exactly the net effect, and to give
  exactly the answer, that `Transactions` gives it. */
module Store {
  import opened Rows
  import opened Schedules
  import Tx = Transactions
  import Windows

  datatype Result<+V> = Ok(value: V) | Err(error: Error)

  function Answer<V>(tx: Tx.Tx<V>): Result<V> {
    match tx
    case Commit(_, value) => Ok(value)
    case Abort(error) => Err(error)
  }

  /** A row written twice keeps the second write. */
  lemma PutTwice(db: Db, id: int, e: Execution, e': Execution)
    ensures Tx.PutExec(Tx.PutExec(db, id, e), id, e') == Tx.PutExec(db, id, e')
  {
  }

  function CancelPending(execs: map<int, Execution>, job: JobName, now: Instant): map<int, Execution> {
    map id | id in execs ::
      if execs[id].job == job && execs[id].status.Ready? then Tx.Ended(execs[id], Cancelled, ReasonRetired, now)
      else execs[id]
  }

  function StopStarted(execs: map<int, Execution>, job: JobName): map<int, Execution> {
    map id | id in execs ::
      if execs[id].job == job && (execs[id].status.Dispatching? || execs[id].status.Running?)
      then execs[id].(status := CancelRequested) else execs[id]
  }

  class Store {
    var defs: map<JobName, Definition>
    var states: map<JobName, StateRow>
    var execs: map<int, Execution>
    var attempts: Attempts

    function View(): Db
      reads this
    {
      Db(defs, states, execs, attempts)
    }

    constructor ()
      ensures View() == Db(map[], map[], map[], map[])
    {
      defs, states, execs, attempts := map[], map[], map[], map[];
    }

    method Rollback(saved: Db)
      modifies this
      ensures View() == saved
    {
      defs, states, execs, attempts := saved.defs, saved.states, saved.execs, saved.attempts;
    }

    // ----- statements --------------------------------------------------------------------

    method UpdateExecution(id: int, e: Execution)
      modifies `execs
      ensures View() == Tx.PutExec(old(View()), id, e)
    {
      execs := execs[id := e];
    }

    method UpdateState(job: JobName, s: StateRow)
      modifies `states
      ensures View() == Tx.PutState(old(View()), job, s)
    {
      states := states[job := s];
    }

    /** Frees the job lock, if it is held under this token and epoch. */
    method ReleaseJobLock(job: JobName, token: Token, epoch: int, succeeded: bool, now: Instant)
        returns (err: Option<Error>)
      modifies `states
      ensures err == if HoldsJob(old(View()), job, token, epoch) then None else Some(Fenced)
      ensures View() == if err.None? then Tx.PutState(old(View()), job, Tx.Released(old(states)[job], succeeded, now))
              else old(View())
    {
      if job !in states || states[job].active.Free? || states[job].active.token != token
         || states[job].fenceEpoch != epoch {
        return Some(Fenced);
      }
      UpdateState(job, Tx.Released(states[job], succeeded, now));
      return None;
    }

    /** Charges the attempt a result proves was started but whose acceptance was never recorded. */
    method ChargeUnacceptedAttempt(id: int, token: Token, epoch: int, now: Instant)
      modifies `execs
      ensures View() == if DispatchingUnder(old(View()), id, token, epoch)
                        then Tx.PutExec(old(View()), id, Tx.Charged(old(execs)[id], now)) else old(View())
    {
      if id in execs && execs[id].status == Dispatching && execs[id].runToken == Some(token)
         && execs[id].fenceEpoch == epoch {
        var e := execs[id];
        UpdateExecution(id, e.(attemptNo := e.attemptNo + 1,
                               startedAt := if e.startedAt.Some? then e.startedAt else Some(now)));
      }
    }

    /** Inserts the attempt, unless one is already recorded under its key and token. */
    method RecordAttempt(id: int, key: ExecutionKey, token: Token, executor: Option<Executor>, outcome: AttemptOutcome,
                         now: Instant)
      requires id in execs
      modifies `attempts
      ensures View() == old(View()).(attempts := Tx.Recorded(old(attempts), key, token,
                                                             Attempt(execs[id].attemptNo, executor, outcome, now)))
    {
      var attemptNo := execs[id].attemptNo;
      if (key, token) !in attempts {
        attempts := attempts[(key, token) := Attempt(attemptNo, executor, outcome, now)];
      }
    }

    /** Restarts the poll loop when the execution named is a poll pass that has ended. */
    method SettlePollClock(job: JobName, id: int, now: Instant) returns (err: Option<Error>)
      modifies `states
      ensures View() == Tx.After(old(View()), Tx.Settle(old(View()), job, id, now))
      ensures err == if Tx.Settle(old(View()), job, id, now).Commit? then None else Some(Protocol)
    {
      if job !in defs { return Some(Protocol); }
      var def := defs[job];
      if !def.kind.FixedDelay? { return None; }
      if def.delayMs <= 0 { return Some(Protocol); }
      if job in states && id in execs && execs[id].job == job && execs[id].trigger.ByPoll?
         && execs[id].status.Terminal() {
        UpdateState(job, states[job].(nextPollAt := Some(now + Delay(def))));
      }
      return None;
    }

    /** The tail of every transaction that ends an owned attempt, after its execution was rewritten. */
    method RecordAndSettle(ghost before: Db, job: JobName, id: int, key: ExecutionKey, token: Token,
                           ghost succeeded: bool, ghost e: Execution, executor: Option<Executor>,
                           outcome: AttemptOutcome, now: Instant, saved: Db)
        returns (err: Option<Error>)
      requires job in before.states
      requires View() == Tx.PutExec(Tx.PutState(before, job, Tx.Released(before.states[job], succeeded, now)), id, e)
      requires saved == before
      modifies this
      ensures var tx := Tx.Finish(before, job, id, key, token, succeeded, e, executor, outcome, now);
              View() == Tx.After(before, tx) && err == if tx.Commit? then None else Some(tx.error)
    {
      RecordAttempt(id, key, token, executor, outcome, now);
      err := SettlePollClock(job, id, now);
      if err.Some? { Rollback(saved); }
    }

    // ----- claim.go ----------------------------------------------------------------------

    /** Pushes a candidate that is still ready into the future. */
    method DeferCandidate(id: int, backoff: int, now: Instant)
      requires id in execs
      modifies `execs
      ensures View() == Tx.Defer(old(View()), id, backoff, now)
    {
      if execs[id].status.Ready? {
        UpdateExecution(id, execs[id].(availableAt := now + backoff * SECOND));
      }
    }

    /** A held job under FORBID skips a scheduled occurrence; anything else waits. */
    method ApplyContention(p: Tx.ClaimParams, def: Definition, now: Instant) returns (r: Result<Tx.ClaimOutcome>)
      requires p.id in execs
      modifies this
      ensures var db, cur := old(View()), old(execs)[p.id];
              if def.concurrency.Forbid? && !cur.trigger.ByHand? then
                if !cur.status.Ready? then View() == db && r == Err(Protocol)
                else var skipped := Tx.Ended(cur, Skipped, ConcurrencySkipped, now).(leaseUntil := None);
                     var tx := Tx.Bind(Tx.Settle(Tx.PutExec(db, p.id, skipped), p.job, p.id, now), Tx.ClaimSkipped);
                     View() == Tx.After(db, tx) && r == Answer(tx)
              else View() == Tx.Defer(db, p.id, p.backoff, now) && r == Ok(Tx.Deferred)
    {
      var saved := View();
      var cur := execs[p.id];
      if def.concurrency.Forbid? && !cur.trigger.ByHand? {
        if !cur.status.Ready? { return Err(Protocol); }
        UpdateExecution(p.id, cur.(status := Skipped, reason := Some(ConcurrencySkipped), finishedAt := Some(now),
                                   leaseUntil := None));
        var err := SettlePollClock(p.job, p.id, now);
        if err.Some? {
          Rollback(saved);
          return Err(err.value);
        }
        return Ok(Tx.ClaimSkipped);
      }
      DeferCandidate(p.id, p.backoff, now);
      return Ok(Tx.Deferred);
    }

    method Claim(p: Tx.ClaimParams, served: bool, now: Instant, utc: Clock) returns (r: Result<Tx.ClaimOutcome>)
      modifies this
      ensures View() == Tx.After(old(View()), Tx.Claim(old(View()), p, served, now, utc))
      ensures r == Answer(Tx.Claim(old(View()), p, served, now, utc))
    {
      if p.job !in states { return Err(MissingState); }
      if p.job !in defs { return Err(Protocol); }
      if p.id !in execs { return Err(NoSuchExecution); }
      var st, def, cur := states[p.job], defs[p.job], execs[p.id];
      if cur.job != p.job || cur.key != p.key { return Err(Protocol); }
      if PastCap(cur, utc) {
        if !cur.status.Ready? { return Err(Protocol); }
        UpdateExecution(p.id, cur.(status := Dead, reason := Some(ReasonTimeout), finishedAt := Some(now)));
        return Ok(Tx.Expired);
      }
      if st.paused || !Tx.Runnable(def, served) {
        DeferCandidate(p.id, p.backoff, now);
        return Ok(Tx.Deferred);
      }
      if st.active.Held? {
        r := ApplyContention(p, def, now);
        return;
      }
      r := Acquire(p, st, def, cur, utc);
    }

    /** Takes the free lock, then marks the execution; the lock is given back if the mark finds no row. */
    method Acquire(p: Tx.ClaimParams, st: StateRow, def: Definition, cur: Execution, utc: Clock)
        returns (r: Result<Tx.ClaimOutcome>)
      requires p.job in states && states[p.job] == st && st.active.Free? && p.id in execs && execs[p.id] == cur
      modifies this
      ensures var db := old(View());
              if !cur.status.Ready? || cur.maxAttempts <= cur.attemptNo then View() == db && r == Err(Protocol)
              else var epoch := st.fenceEpoch + 1;
                   var st' := st.(active := Held(p.key, p.owner, p.token, p.executor, utc + def.lease),
                                  fenceEpoch := epoch);
                   var cur' := cur.(status := Dispatching, owner := Some(p.owner), dispatchedTo := p.executor,
                                    runToken := Some(p.token), fenceEpoch := epoch, leaseUntil := Some(utc + def.lease),
                                    timeoutAt := Tx.OrElse(cur.timeoutAt, utc + def.timeout));
                   View() == Tx.PutExec(Tx.PutState(db, p.job, st'), p.id, cur') && r == Ok(Tx.Acquired(epoch))
    {
      var saved := View();
      var epoch := st.fenceEpoch + 1;
      UpdateState(p.job, st.(active := Held(p.key, p.owner, p.token, p.executor, utc + def.lease),
                             fenceEpoch := epoch));
      if !cur.status.Ready? || cur.maxAttempts <= cur.attemptNo {
        Rollback(saved);
        return Err(Protocol);
      }
      UpdateExecution(p.id, cur.(status := Dispatching, owner := Some(p.owner), dispatchedTo := p.executor,
                                 runToken := Some(p.token), fenceEpoch := epoch, leaseUntil := Some(utc + def.lease),
                                 timeoutAt := if cur.timeoutAt.Some? then cur.timeoutAt else Some(utc + def.timeout)));
      return Ok(Tx.Acquired(epoch));
    }

    method Accept(id: int, token: Token, epoch: int, silence: int, now: Instant, utc: Clock) returns (r: Result<()>)
      modifies this
      ensures View() == Tx.After(old(View()), Tx.Accept(old(View()), id, token, epoch, silence, now, utc))
      ensures r == Answer(Tx.Accept(old(View()), id, token, epoch, silence, now, utc))
    {
      if id !in execs || execs[id].status != Dispatching || execs[id].runToken != Some(token)
         || execs[id].fenceEpoch != epoch {
        return Err(Fenced);
      }
      var e := execs[id];
      UpdateExecution(id, e.(status := Running, attemptNo := e.attemptNo + 1,
                             startedAt := if e.startedAt.Some? then e.startedAt else Some(now),
                             deadlineAt := Some(utc + silence)));
      return Ok(());
    }

    method Refuse(p: Tx.ClaimParams, epoch: int, now: Instant, utc: Clock) returns (r: Result<()>)
      modifies this
      ensures View() == Tx.After(old(View()), Tx.Refuse(old(View()), p, epoch, now, utc))
      ensures r == Answer(Tx.Refuse(old(View()), p, epoch, now, utc))
    {
      var saved := View();
      if p.job !in states || states[p.job].active.Free? || states[p.job].active.token != p.token
         || states[p.job].fenceEpoch != epoch {
        return Err(Fenced);
      }
      UpdateState(p.job, states[p.job].(active := Free));
      if p.id !in execs || execs[p.id].status != Dispatching || execs[p.id].runToken != Some(p.token)
         || execs[p.id].fenceEpoch != epoch {
        Rollback(saved);
        return Err(Protocol);
      }
      var e, dead := execs[p.id], PastCap(execs[p.id], utc);
      UpdateExecution(p.id, e.(status := if dead then Dead else Ready,
                               reason := if dead then Some(ReasonTimeout) else None,
                               finishedAt := if dead then Some(now) else None,
                               availableAt := if dead then e.availableAt else now + p.backoff * SECOND,
                               owner := None, dispatchedTo := None, runToken := None, leaseUntil := None));
      var err := SettlePollClock(p.job, p.id, now);
      if err.Some? {
        Rollback(saved);
        return Err(err.value);
      }
      return Ok(());
    }

    method Retarget(h: Holder, executor: Executor) returns (r: Result<()>)
      modifies this
      ensures View() == Tx.After(old(View()), Tx.Retarget(old(View()), h, executor))
      ensures r == Answer(Tx.Retarget(old(View()), h, executor))
    {
      if h.id !in execs || execs[h.id].status != Dispatching || execs[h.id].runToken != Some(h.token)
         || execs[h.id].fenceEpoch != h.epoch {
        return Err(Fenced);
      }
      UpdateExecution(h.id, execs[h.id].(dispatchedTo := Some(executor)));
      return Ok(());
    }

    // ----- lease.go ----------------------------------------------------------------------

    predicate InFlightUnder(id: int, token: Token, epoch: int)
      reads this
    {
      id in execs && execs[id].status.InFlight() && execs[id].runToken == Some(token) && execs[id].fenceEpoch == epoch
    }

    method Renew(h: Holder, lease: int, utc: Clock) returns (r: Result<()>)
      modifies this
      ensures View() == Tx.After(old(View()), Tx.Renew(old(View()), h, lease, utc))
      ensures r == Answer(Tx.Renew(old(View()), h, lease, utc))
    {
      var saved := View();
      if h.job !in states || states[h.job].active.Free? || states[h.job].active.token != h.token
         || states[h.job].fenceEpoch != h.epoch {
        return Err(Fenced);
      }
      UpdateState(h.job, states[h.job].(active := states[h.job].active.(lease := utc + lease)));
      if !InFlightUnder(h.id, h.token, h.epoch) || execs[h.id].owner != Some(h.owner)
         || execs[h.id].leaseUntil.None? || execs[h.id].leaseUntil.value < utc {
        Rollback(saved);
        return Err(Fenced);
      }
      UpdateExecution(h.id, execs[h.id].(leaseUntil := Some(utc + lease)));
      return Ok(());
    }

    method ExtendDeadline(h: Holder, silence: int, utc: Clock) returns (r: Result<()>)
      modifies this
      ensures View() == Tx.After(old(View()), Tx.ExtendDeadline(old(View()), h, silence, utc))
      ensures r == Answer(Tx.ExtendDeadline(old(View()), h, silence, utc))
    {
      if !InFlightUnder(h.id, h.token, h.epoch) || PastCap(execs[h.id], utc) { return Err(Fenced); }
      UpdateExecution(h.id, execs[h.id].(deadlineAt := Some(utc + silence)));
      return Ok(());
    }

    // ----- complete.go -------------------------------------------------------------------

    method Complete(h: Holder, o: Tx.Outcome, now: Instant, utc: Clock) returns (r: Result<()>)
      modifies this
      ensures View() == Tx.After(old(View()), Tx.Complete(old(View()), h, o, now, utc))
      ensures r == Answer(Tx.Complete(old(View()), h, o, now, utc))
    {
      if !o.status.Terminal() { return Err(Protocol); }
      var saved := View();
      var err := ReleaseJobLock(h.job, h.token, h.epoch, o.status.Success?, now);
      if err.Some? { return Err(err.value); }
      ChargeUnacceptedAttempt(h.id, h.token, h.epoch, now);
      if !InFlightUnder(h.id, h.token, h.epoch) || PastCap(execs[h.id], utc) {
        Rollback(saved);
        return Err(Fenced);
      }
      var e := execs[h.id].(status := o.status, reason := Some(o.reason), finishedAt := Some(now), leaseUntil := None);
      ghost var charged := execs[h.id];
      UpdateExecution(h.id, e);
      PutTwice(Tx.PutState(saved, h.job, Tx.Released(saved.states[h.job], o.status.Success?, now)), h.id, charged, e);
      err := RecordAndSettle(saved, h.job, h.id, h.key, h.token, o.status.Success?, e, o.executor, o.attempt, now,
                             saved);
      return if err.Some? then Err(err.value) else Ok(());
    }

    method Retry(h: Holder, o: Tx.Outcome, backoff: int, now: Instant, utc: Clock) returns (r: Result<()>)
      modifies this
      ensures View() == Tx.After(old(View()), Tx.Retry(old(View()), h, o, backoff, now, utc))
      ensures r == Answer(Tx.Retry(old(View()), h, o, backoff, now, utc))
    {
      var saved := View();
      var err := ReleaseJobLock(h.job, h.token, h.epoch, false, now);
      if err.Some? { return Err(err.value); }
      ChargeUnacceptedAttempt(h.id, h.token, h.epoch, now);
      if !InFlightUnder(h.id, h.token, h.epoch) || PastCap(execs[h.id], utc) {
        Rollback(saved);
        return Err(Fenced);
      }
      var cur, spent := execs[h.id], execs[h.id].maxAttempts <= execs[h.id].attemptNo;
      var e := cur.(status := if spent then Dead else Ready,
                    reason := if spent then Some(BudgetExhausted) else None,
                    finishedAt := if spent then Some(now) else None,
                    availableAt := if spent then cur.availableAt else now + backoff * SECOND,
                    timeoutAt := if spent then cur.timeoutAt else None,
                    owner := None, dispatchedTo := None, runToken := None, leaseUntil := None, deadlineAt := None);
      UpdateExecution(h.id, e);
      PutTwice(Tx.PutState(saved, h.job, Tx.Released(saved.states[h.job], false, now)), h.id, cur, e);
      err := RecordAndSettle(saved, h.job, h.id, h.key, h.token, false, e, o.executor, o.attempt, now, saved);
      return if err.Some? then Err(err.value) else Ok(());
    }

    method RequestCancel(id: int) returns (r: Result<()>)
      modifies this
      ensures View() == Tx.After(old(View()), Tx.RequestCancel(old(View()), id))
      ensures r == Answer(Tx.RequestCancel(old(View()), id))
    {
      if id !in execs { return Err(NoSuchExecution); }
      if execs[id].status != Dispatching && execs[id].status != Running { return Err(Contended); }
      UpdateExecution(id, execs[id].(status := CancelRequested));
      return Ok(());
    }

    // ----- recovery.go -------------------------------------------------------------------

    method Adopt(v: Stale, newOwner: Instance, lease: int, silence: int, promote: bool, now: Instant, utc: Clock)
        returns (r: Result<int>)
      modifies this
      ensures View() == Tx.After(old(View()), Tx.Adopt(old(View()), v, newOwner, lease, silence, promote, now, utc))
      ensures r == Answer(Tx.Adopt(old(View()), v, newOwner, lease, silence, promote, now, utc))
    {
      var saved := View();
      if v.job !in states { return Err(MissingState); }
      var st := states[v.job];
      if st.active.Free? || st.active.token != v.token || st.fenceEpoch != v.epoch { return Err(Contended); }
      if v.id !in execs { return Err(NoSuchExecution); }
      var cur := execs[v.id];
      if cur.runToken != Some(v.token) || cur.fenceEpoch != v.epoch { return Err(Contended); }
      if PastCap(cur, utc) { return Err(CapElapsed); }
      var epoch := v.epoch + 1;
      if st.active.lease >= utc { return Err(Protocol); }
      UpdateState(v.job, st.(active := st.active.(owner := newOwner, lease := utc + lease), fenceEpoch := epoch));
      var promoteNow := promote && cur.status.Dispatching?;
      if !cur.status.InFlight() {
        Rollback(saved);
        return Err(Protocol);
      }
      UpdateExecution(v.id, cur.(owner := Some(newOwner), fenceEpoch := epoch,
                                 attemptNo := if promoteNow then cur.attemptNo + 1 else cur.attemptNo,
                                 startedAt := if promoteNow && cur.startedAt.None? then Some(now) else cur.startedAt,
                                 deadlineAt := if promoteNow then Some(utc + silence) else cur.deadlineAt,
                                 status := if promoteNow then Running else cur.status,
                                 leaseUntil := Some(utc + lease)));
      return Ok(epoch);
    }

    /** Re-verifies, under the row locks, what a scan saw without them. */
    method Verify(job: JobName, id: int, token: Token, epoch: int) returns (err: Option<Error>)
      ensures err == Tx.Recheck(View(), job, id, token, epoch)
    {
      if job !in states { return Some(MissingState); }
      if states[job].active.Free? || states[job].active.token != token
         || states[job].fenceEpoch != epoch {
        return Some(Contended);
      }
      if id !in execs { return Some(NoSuchExecution); }
      if execs[id].runToken != Some(token) || execs[id].fenceEpoch != epoch
         || execs[id].status.Terminal() {
        return Some(Contended);
      }
      return None;
    }

    /** Where an attempt nobody can account for lands, and why. */
    method LandingOf(cur: Execution, utc: Clock) returns (landed: Status, reason: Option<TerminalReason>)
      ensures landed == Tx.ResolvedStatus(cur, utc) && reason == Tx.ResolvedReason(cur, utc)
    {
      if cur.status.CancelRequested? {
        return Cancelled, Some(ReasonFenced);
      }
      if PastCap(cur, utc) {
        return Dead, Some(ReasonTimeout);
      }
      if cur.attemptNo >= cur.maxAttempts || cur.recoveryCount + 1 >= cur.maxRecoveries {
        return Dead, Some(BudgetExhausted);
      }
      return Ready, None;
    }

    method LandedRow(cur: Execution, backoff: int, now: Instant, utc: Clock) returns (e: Execution)
      ensures e == Tx.Resolved(cur, backoff, now, utc)
    {
      var landed, reason := LandingOf(cur, utc);
      e := cur.(status := landed, reason := reason,
                finishedAt := if landed.Ready? then None else Some(now),
                availableAt := if landed.Ready? then now + backoff * SECOND else cur.availableAt,
                timeoutAt := if landed.Ready? then None else cur.timeoutAt,
                fenceEpoch := cur.fenceEpoch + 1, recoveryCount := cur.recoveryCount + 1,
                owner := None, dispatchedTo := None, runToken := None, leaseUntil := None, deadlineAt := None);
    }

    method Resolve(v: Stale, backoff: int, now: Instant, utc: Clock) returns (r: Result<Status>)
      modifies this
      ensures View() == Tx.After(old(View()), Tx.Resolve(old(View()), v, backoff, now, utc))
      ensures r == Answer(Tx.Resolve(old(View()), v, backoff, now, utc))
    {
      var saved := View();
      var err := Verify(v.job, v.id, v.token, v.epoch);
      if err.Some? { return Err(err.value); }
      if states[v.job].active.lease >= utc { return Err(Protocol); }
      UpdateState(v.job, states[v.job].(active := Free, lastFailureAt := Some(now)));
      var cur := execs[v.id];
      if !cur.status.InFlight() {
        Rollback(saved);
        return Err(Protocol);
      }
      var e := LandedRow(cur, backoff, now, utc);
      UpdateExecution(v.id, e);
      err := RecordAndSettle(saved, v.job, v.id, v.key, v.token, false, e, v.sentTo, AttemptUnknown, now, saved);
      return if err.Some? then Err(err.value) else Ok(e.status);
    }

    method FenceTimedOut(v: Stale, now: Instant) returns (r: Result<()>)
      modifies this
      ensures View() == Tx.After(old(View()), Tx.FenceTimedOut(old(View()), v, now))
      ensures r == Answer(Tx.FenceTimedOut(old(View()), v, now))
    {
      var saved := View();
      var err := Verify(v.job, v.id, v.token, v.epoch);
      if err.Some? { return Err(err.value); }
      var cur := execs[v.id];
      var landed, reason := Dead, ReasonTimeout;
      if cur.status.CancelRequested? { landed, reason := Cancelled, ReasonFenced; }
      err := ReleaseJobLock(v.job, v.token, v.epoch, false, now);
      assert err.None?; // the lock was verified above
      if !cur.status.InFlight() {
        Rollback(saved);
        return Err(Protocol);
      }
      var e := cur.(status := landed, reason := Some(reason), finishedAt := Some(now),
                    fenceEpoch := cur.fenceEpoch + 1, leaseUntil := None, deadlineAt := None);
      UpdateExecution(v.id, e);
      err := RecordAndSettle(saved, v.job, v.id, v.key, v.token, false, e, v.sentTo, AttemptFenced, now, saved);
      return if err.Some? then Err(err.value) else Ok(());
    }

    method ExpireSilent(v: Stale, now: Instant, utc: Clock) returns (r: Result<()>)
      modifies this
      ensures View() == Tx.After(old(View()), Tx.ExpireSilent(old(View()), v, now, utc))
      ensures r == Answer(Tx.ExpireSilent(old(View()), v, now, utc))
    {
      var saved := View();
      var err := Verify(v.job, v.id, v.token, v.epoch);
      if err.Some? { return Err(err.value); }
      var cur := execs[v.id];
      if !SilenceLapsed(cur, utc) { return Err(Contended); }
      var landed := if cur.status.CancelRequested? then Cancelled else Dead;
      err := ReleaseJobLock(v.job, v.token, v.epoch, false, now);
      assert err.None?; // the lock was verified above
      if cur.status != Running && cur.status != CancelRequested {
        Rollback(saved);
        return Err(Protocol);
      }
      var e := cur.(status := landed, reason := Some(ReasonFenced), finishedAt := Some(now),
                    fenceEpoch := cur.fenceEpoch + 1, leaseUntil := None, deadlineAt := None);
      UpdateExecution(v.id, e);
      err := RecordAndSettle(saved, v.job, v.id, v.key, v.token, false, e, v.sentTo, AttemptUnknown, now, saved);
      return if err.Some? then Err(err.value) else Ok(());
    }

    method ReleaseAsOwner(h: Holder, now: Instant, utc: Clock) returns (r: Result<Status>)
      modifies this
      ensures View() == Tx.After(old(View()), Tx.ReleaseAsOwner(old(View()), h, now, utc))
      ensures r == Answer(Tx.ReleaseAsOwner(old(View()), h, now, utc))
    {
      var saved := View();
      var err := Verify(h.job, h.id, h.token, h.epoch);
      if err.Some? { return Err(err.value); }
      var cur := execs[h.id];
      if cur.leaseUntil.None? || cur.leaseUntil.value < utc { return Err(Contended); }
      err := ReleaseJobLock(h.job, h.token, h.epoch, false, now);
      assert err.None?; // the lock was verified above
      var landed := if cur.status.CancelRequested? then Cancelled else Dead;
      if !cur.status.InFlight() {
        Rollback(saved);
        return Err(Protocol);
      }
      var e := cur.(status := landed, reason := Some(ReasonFenced), finishedAt := Some(now),
                    fenceEpoch := cur.fenceEpoch + 1, recoveryCount := cur.recoveryCount + 1,
                    owner := None, dispatchedTo := None, runToken := None, leaseUntil := None, deadlineAt := None);
      UpdateExecution(h.id, e);
      err := RecordAndSettle(saved, h.job, h.id, h.key, h.token, false, e, None, AttemptUnknown, now, saved);
      return if err.Some? then Err(err.value) else Ok(landed);
    }

    // ----- admin.go ----------------------------------------------------------------------

    /** Retirement sweeps the executions of the job twice: pending work is cancelled, then work already
        dispatched is asked to stop. */
    method Retire(job: JobName, now: Instant) returns (r: Result<()>)
      modifies this
      ensures View() == Tx.After(old(View()), Tx.Retire(old(View()), job, now))
      ensures r == Answer(Tx.Retire(old(View()), job, now))
    {
      if job !in states { return Err(MissingState); }
      if job !in defs || defs[job].retired { return Err(Protocol); }
      defs := defs[job := defs[job].(retired := true, enabled := false, version := defs[job].version + 1)];
      ghost var before := execs;
      execs := CancelPending(execs, job, now);
      execs := StopStarted(execs, job);
      assert execs == map id | id in before :: Tx.RetiredRow(before[id], job, now);
      return Ok(());
    }

    method CreateJob(job: JobName, d: Definition, nextFire: Instant, now: Instant) returns (r: Result<()>)
      modifies this
      ensures View() == Tx.After(old(View()), Tx.CreateJob(old(View()), job, d, nextFire, now))
      ensures r == Answer(Tx.CreateJob(old(View()), job, d, nextFire, now))
    {
      if job in defs || job in states || !ValidDefinition(d) { return Err(Protocol); }
      defs := defs[job := d.(retired := false, version := 1)];
      var fire, poll := None, None;
      if d.enabled {
        if d.kind.CronKind? {
          fire := Some(nextFire);
        } else {
          poll := Some(now);
        }
      }
      UpdateState(job, StateRow(fire, poll, false, Free, 0, 1, None, None));
      return Ok(());
    }

    method UpdateJob(job: JobName, d: Definition, seen: int) returns (r: Result<()>)
      modifies this
      ensures View() == Tx.After(old(View()), Tx.UpdateJob(old(View()), job, d, seen))
      ensures r == Answer(Tx.UpdateJob(old(View()), job, d, seen))
    {
      if job !in defs || defs[job].version != seen { return Err(StaleVersion); }
      if !ValidDefinition(d) { return Err(Protocol); }
      defs := defs[job := d.(retired := defs[job].retired, version := defs[job].version + 1)];
      return Ok(());
    }

    method SetPaused(job: JobName, paused: bool) returns (r: Result<()>)
      modifies this
      ensures View() == Tx.After(old(View()), Tx.SetPaused(old(View()), job, paused))
      ensures r == Answer(Tx.SetPaused(old(View()), job, paused))
    {
      if job !in states { return Err(MissingState); }
      UpdateState(job, states[job].(paused := paused));
      return Ok(());
    }

    /** Looks the request up before and, through the unique key, after taking the lock. */
    method Trigger(id: int, job: JobName, request: int, now: Instant) returns (r: Result<()>)
      modifies this
      ensures View() == Tx.After(old(View()), Tx.TriggerRun(old(View()), id, job, request, now))
      ensures r == Answer(Tx.TriggerRun(old(View()), id, job, request, now))
    {
      var key := ManualKey(job, request);
      if Tx.KeyTaken(View(), key) { return Ok(()); }
      if Tx.RequestElsewhere(View(), job, request) { return Err(Protocol); }
      if job !in states { return Err(MissingState); }
      if job !in defs { return Err(Protocol); }
      if defs[job].retired { return Err(NotRunnable); }
      var created := InsertExecution(id, Tx.NewExecution(key, job, ByHand, now, defs[job]));
      return Ok(());
    }

    method AuthorizedRetry(id: int, now: Instant) returns (r: Result<()>)
      modifies this
      ensures View() == Tx.After(old(View()), Tx.AuthorizedRetry(old(View()), id, now))
      ensures r == Answer(Tx.AuthorizedRetry(old(View()), id, now))
    {
      if id !in execs { return Err(NoSuchExecution); }
      var e := execs[id];
      if e.job !in states { return Err(MissingState); }
      if e.job !in defs { return Err(Protocol); }
      if defs[e.job].retired { return Err(NotRunnable); }
      if e.status != Dead { return Err(Protocol); }
      UpdateExecution(id, e.(status := Ready, maxAttempts := e.attemptNo + 1, availableAt := now,
                             reason := None, finishedAt := None, timeoutAt := None));
      return Ok(());
    }

    // ----- materialize.go ----------------------------------------------------------------

    /** The unique key decides: a key already used inserts nothing. */
    method InsertExecution(id: int, e: Execution) returns (created: bool)
      modifies `execs
      ensures created == !Tx.KeyTaken(old(View()), e.key)
      ensures View() == if created then Tx.PutExec(old(View()), id, e) else old(View())
    {
      created := !Tx.KeyTaken(View(), e.key);
      if created { UpdateExecution(id, e); }
    }

    method NormalizeClocks(compile: Tx.Compile, job: JobName, now: Instant)
      requires job in states && job in defs
      modifies `states
      ensures View() == Tx.NormalizeClocks(old(View()), compile, job, now)
    {
      var st, def := states[job], defs[job];
      var fire, poll := None, None;
      if !def.enabled || def.retired {
      } else if def.kind.CronKind? {
        fire := Some(compile(def.expr).next(now - 1));
      } else if st.nextPollAt.Some? {
        poll := st.nextPollAt;
      } else {
        var outstanding := Tx.PassOutstanding(View(), job);
        if !outstanding { poll := Some(now); }
      }
      UpdateState(job, st.(nextFireAt := fire, nextPollAt := poll, configVersion := def.version));
    }

    method Recompute(compile: Tx.Compile, job: JobName, now: Instant) returns (r: Result<()>)
      modifies this
      ensures View() == Tx.After(old(View()), Tx.Recompute(old(View()), compile, job, now))
      ensures r == Answer(Tx.Recompute(old(View()), compile, job, now))
    {
      if job !in states { return Err(MissingState); }
      if job !in defs { return Err(Protocol); }
      NormalizeClocks(compile, job, now);
      return Ok(());
    }

    /** What a due cron row does now: the fire to create, and the instant its clock moves past. */
    method Decide(s: Schedule, misfire: Misfire, due: Instant, grace: int, now: Instant)
        returns (create: Option<Instant>, anchor: Instant, missed: nat, exact: bool)
      requires Onward(s)
      ensures (create, anchor) == Tx.Firing(s, misfire, due, now - grace, now)
      ensures missed == Windows.Min(Tx.MISSED_LIMIT, CountFires(s, due - 1, now - grace - 1))
      ensures exact <==> missed == CountFires(s, due - 1, now - grace - 1)
    {
      var onTimeFrom := now - grace;
      missed, exact := Windows.CountBetween(s, due - 1, onTimeFrom - 1, Tx.MISSED_LIMIT);
      create := Some(due);
      if missed == 0 {
      } else if misfire.SkipMissed? {
        create := None;
      } else {
        var latest, rounds := Windows.Latest(s, onTimeFrom - 1, Tx.MISFIRE_HORIZON);
        create := latest;
      }
      anchor := if create.Some? then create.value else if misfire.SkipMissed? then now else due;
    }

    method MaterializeCron(compile: Tx.Compile, id: int, job: JobName, grace: int, now: Instant)
        returns (r: Result<Tx.Materialized>)
      requires Tx.Forward(compile)
      modifies this
      ensures View() == Tx.After(old(View()), Tx.MaterializeCron(old(View()), compile, id, job, grace, now))
      ensures r == Answer(Tx.MaterializeCron(old(View()), compile, id, job, grace, now))
    {
      if job !in states { return Err(MissingState); }
      if job !in defs { return Err(Protocol); }
      var st, def := states[job], defs[job];
      if !def.enabled || def.retired || def.kind != CronKind || st.configVersion != def.version {
        NormalizeClocks(compile, job, now);
        return Ok(Tx.Nothing);
      }
      if Tx.ManualPending(View(), job) { return Ok(Tx.Suspended); }
      if st.nextFireAt.None? { return Err(Protocol); }
      if now < st.nextFireAt.value { return Ok(Tx.Suspended); }
      var s := compile(def.expr);
      assert Onward(s);
      var create, anchor, missed, exact := Decide(s, def.misfire, st.nextFireAt.value, grace, now);
      r := Ok(Tx.Nothing);
      if create.Some? {
        var key := CronKey(job, create.value);
        var created := InsertExecution(id, Tx.NewExecution(key, job, ByCron, create.value, def));
        if created { r := Ok(Tx.Created(key)); }
      }
      UpdateState(job, st.(nextFireAt := Some(s.next(anchor)), configVersion := def.version));
    }

    method MaterializePoll(compile: Tx.Compile, id: int, job: JobName, pass: int, now: Instant)
        returns (r: Result<Tx.Materialized>)
      modifies this
      ensures View() == Tx.After(old(View()), Tx.MaterializePoll(old(View()), compile, id, job, pass, now))
      ensures r == Answer(Tx.MaterializePoll(old(View()), compile, id, job, pass, now))
    {
      if job !in states { return Err(MissingState); }
      if job !in defs { return Err(Protocol); }
      var st, def := states[job], defs[job];
      if st.nextPollAt.None? || now < st.nextPollAt.value { return Ok(Tx.Suspended); }
      if !def.enabled || def.retired || def.kind != FixedDelay || st.configVersion != def.version {
        NormalizeClocks(compile, job, now);
        return Ok(Tx.Nothing);
      }
      if Tx.ManualPending(View(), job) { return Ok(Tx.Suspended); }
      var key := PollKey(job, pass);
      var created := InsertExecution(id, Tx.NewExecution(key, job, ByPoll, now, def));
      if !created { return Err(Protocol); }
      UpdateState(job, st.(nextPollAt := None));
      return Ok(Tx.Created(key));
    }
  }
}
