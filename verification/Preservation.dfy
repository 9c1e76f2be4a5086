/** Every transaction preserves the protocol invariant, whatever arguments it is called with. */
module Preservation {
  import opened Rows
  import opened Schedules
  import opened Protocol
  import Tx = Transactions

  /** The world a transaction leads to. */
  function Led(w: World, db: Db, utc: Clock): World {
    World(db, w.issued, utc)
  }

  lemma ClockKeeps(w: World, utc: Clock)
    requires Inv(w)
    ensures Inv(Led(w, w.db, utc))
  {
  }

  /** A job held under a token is held by the one in-flight row that carries it. */
  lemma HolderIsRow(w: World, job: JobName, id: int, token: Token, epoch: int)
    requires Inv(w) && HoldsJob(w.db, job, token, epoch) && CarriesHold(w.db, id, token, epoch)
    ensures RowOk(w, w.db.execs[id]) && w.db.execs[id].job == job && w.db.execs[id].status.InFlight()
  {
  }

  /** Every transaction that ends or returns an owned attempt keeps the invariant. */
  lemma FinishKeeps(w: World, job: JobName, id: int, key: ExecutionKey, token: Token, epoch: int, succeeded: bool,
                    e: Execution, sentTo: Option<Executor>, outcome: AttemptOutcome, now: Instant, utc: Clock)
    requires Inv(w) && HoldsJob(w.db, job, token, epoch) && CarriesHold(w.db, id, token, epoch)
    requires !e.status.InFlight() && e.leaseUntil.None?
    requires e.status.Terminal() <==> e.finishedAt.Some?
    requires e.status.Terminal() <==> e.reason.Some?
    requires e.runToken.None? || e.runToken == Some(token)
    requires WithinBudget(e) && 0 <= e.fenceEpoch <= epoch + 1 && KeyNamesOrigin(e)
    requires e.job == w.db.execs[id].job && e.key == w.db.execs[id].key
    ensures Inv(Led(w, Tx.After(w.db, Tx.Finish(w.db, job, id, key, token, succeeded, e, sentTo, outcome, now)), utc))
  {
    HolderIsRow(w, job, id, token, epoch);
    assert JobOk(w, job);
    var tx := Tx.Finish(w.db, job, id, key, token, succeeded, e, sentTo, outcome, now);
    if tx.Commit? {
      TouchKeeps(w, Led(w, tx.db, utc), job, id);
    } else {
      ClockKeeps(w, utc);
    }
  }

  /** Rewriting one row keeps the invariant when the row stays as owned as it was and its job's
      owner columns are untouched; at most the job's poll clock moves with it. */
  lemma RowKeeps(w: World, w': World, id: int)
    requires Inv(w) && id in w.db.execs && id in w'.db.execs && w.issued <= w'.issued
    requires w.db.execs[id].job in w.db.states && w.db.execs[id].job in w'.db.states
    requires Touches(w, w', w.db.execs[id].job, id)
    requires w'.db.attempts == w.db.attempts
    requires w'.db.execs[id].key == w.db.execs[id].key && w'.db.execs[id].runToken == w.db.execs[id].runToken
    requires w'.db.execs[id].status.InFlight() == w.db.execs[id].status.InFlight()
    requires w'.db.states[w.db.execs[id].job].(nextPollAt := None) ==
             w.db.states[w.db.execs[id].job].(nextPollAt := None)
    requires RowOk(w', w'.db.execs[id])
    ensures Inv(w')
  {
    var job := w.db.execs[id].job;
    assert JobOk(w, job);
    var s, s' := w.db.states[job].(nextPollAt := None), w'.db.states[job].(nextPollAt := None);
    assert s'.active == s.active && s'.fenceEpoch == s.fenceEpoch && s'.configVersion == s.configVersion;
    TouchKeeps(w, w', job, id);
  }

  /** Rewriting one row and nothing else. */
  lemma PutKeeps(w: World, id: int, e: Execution, issued: set<Token>, utc: Clock)
    requires Inv(w) && id in w.db.execs && w.issued <= issued
    requires e.job == w.db.execs[id].job && e.key == w.db.execs[id].key && e.runToken == w.db.execs[id].runToken
    requires e.status.InFlight() == w.db.execs[id].status.InFlight()
    requires RowOk(w, e)
    ensures Inv(World(Tx.PutExec(w.db, id, e), issued, utc))
  {
    assert RowOk(w, w.db.execs[id]);
    RowKeeps(w, World(Tx.PutExec(w.db, id, e), issued, utc), id);
  }

  lemma GrowKeeps(w: World, issued: set<Token>, utc: Clock)
    requires Inv(w) && w.issued <= issued
    ensures Inv(World(w.db, issued, utc))
  {
  }

  lemma DeferKeeps(w: World, id: int, backoff: int, now: Instant, issued: set<Token>, utc: Clock)
    requires Inv(w) && id in w.db.execs && w.issued <= issued
    ensures Inv(World(Tx.Defer(w.db, id, backoff, now), issued, utc))
  {
    assert RowOk(w, w.db.execs[id]);
    if w.db.execs[id].status.Ready? {
      PutKeeps(w, id, w.db.execs[id].(availableAt := now + backoff * SECOND), issued, utc);
    } else {
      GrowKeeps(w, issued, utc);
    }
  }

  /** FORBID ends the occurrence and, for a poll pass, restarts the loop. */
  lemma SkipKeeps(w: World, id: int, now: Instant, issued: set<Token>, utc: Clock)
    requires Inv(w) && id in w.db.execs && w.db.execs[id].status.Ready? && w.issued <= issued
    ensures var e := Tx.Ended(w.db.execs[id], Skipped, ConcurrencySkipped, now).(leaseUntil := None);
            Inv(World(Tx.After(w.db, Tx.Settle(Tx.PutExec(w.db, id, e), e.job, id, now)), issued, utc))
  {
    var e := Tx.Ended(w.db.execs[id], Skipped, ConcurrencySkipped, now).(leaseUntil := None);
    assert RowOk(w, w.db.execs[id]);
    var tx := Tx.Settle(Tx.PutExec(w.db, id, e), e.job, id, now);
    if tx.Commit? {
      RowKeeps(w, World(tx.db, issued, utc), id);
    } else {
      GrowKeeps(w, issued, utc);
    }
  }

  lemma AcquireKeeps(w: World, p: Tx.ClaimParams, served: bool, now: Instant, utc: Clock)
    requires Inv(w) && p.token !in w.issued
    requires Tx.Claim(w.db, p, served, now, utc).Commit? && Tx.Claim(w.db, p, served, now, utc).value.Acquired?
    ensures Inv(World(Tx.Claim(w.db, p, served, now, utc).db, w.issued + {p.token}, utc))
  {
    assert RowOk(w, w.db.execs[p.id]);
    assert JobOk(w, p.job);
    TouchKeeps(w, World(Tx.Claim(w.db, p, served, now, utc).db, w.issued + {p.token}, utc), p.job, p.id);
  }

  lemma ClaimKeeps(w: World, p: Tx.ClaimParams, served: bool, now: Instant, utc: Clock)
    requires Inv(w) && p.token !in w.issued
    ensures Inv(World(Tx.After(w.db, Tx.Claim(w.db, p, served, now, utc)), w.issued + {p.token}, utc))
  {
    var tx := Tx.Claim(w.db, p, served, now, utc);
    var issued := w.issued + {p.token};
    if tx.Abort? {
      GrowKeeps(w, issued, utc);
    } else if tx.value.Acquired? {
      AcquireKeeps(w, p, served, now, utc);
    } else if tx.value.Deferred? {
      DeferKeeps(w, p.id, p.backoff, now, issued, utc);
    } else if tx.value.ClaimSkipped? {
      SkipKeeps(w, p.id, now, issued, utc);
    } else {
      assert RowOk(w, w.db.execs[p.id]);
      PutKeeps(w, p.id, Tx.Ended(w.db.execs[p.id], Dead, ReasonTimeout, now), issued, utc);
    }
  }

  lemma AcceptKeeps(w: World, id: int, token: Token, epoch: int, silence: int, now: Instant, utc: Clock)
    requires Inv(w)
    ensures Inv(Led(w, Tx.After(w.db, Tx.Accept(w.db, id, token, epoch, silence, now, utc)), utc))
  {
    var tx := Tx.Accept(w.db, id, token, epoch, silence, now, utc);
    if tx.Commit? {
      assert RowOk(w, w.db.execs[id]);
      PutKeeps(w, id, tx.db.execs[id], w.issued, utc);
    } else {
      ClockKeeps(w, utc);
    }
  }

  lemma RefuseKeeps(w: World, p: Tx.ClaimParams, epoch: int, now: Instant, utc: Clock)
    requires Inv(w)
    ensures Inv(Led(w, Tx.After(w.db, Tx.Refuse(w.db, p, epoch, now, utc)), utc))
  {
    var tx := Tx.Refuse(w.db, p, epoch, now, utc);
    if tx.Commit? {
      HolderIsRow(w, p.job, p.id, p.token, epoch);
      assert JobOk(w, p.job);
      TouchKeeps(w, Led(w, tx.db, utc), p.job, p.id);
    } else {
      ClockKeeps(w, utc);
    }
  }

  lemma RetargetKeeps(w: World, h: Holder, executor: Executor, utc: Clock)
    requires Inv(w)
    ensures Inv(Led(w, Tx.After(w.db, Tx.Retarget(w.db, h, executor)), utc))
  {
    var tx := Tx.Retarget(w.db, h, executor);
    if tx.Commit? {
      assert RowOk(w, w.db.execs[h.id]);
      PutKeeps(w, h.id, tx.db.execs[h.id], w.issued, utc);
    } else {
      ClockKeeps(w, utc);
    }
  }

  lemma RenewKeeps(w: World, h: Holder, lease: int, utc: Clock)
    requires Inv(w)
    ensures Inv(Led(w, Tx.After(w.db, Tx.Renew(w.db, h, lease, utc)), utc))
  {
    var tx := Tx.Renew(w.db, h, lease, utc);
    if tx.Commit? {
      HolderIsRow(w, h.job, h.id, h.token, h.epoch);
      assert JobOk(w, h.job);
      TouchKeeps(w, Led(w, tx.db, utc), h.job, h.id);
    } else {
      ClockKeeps(w, utc);
    }
  }

  lemma ExtendDeadlineKeeps(w: World, h: Holder, silence: int, utc: Clock)
    requires Inv(w)
    ensures Inv(Led(w, Tx.After(w.db, Tx.ExtendDeadline(w.db, h, silence, utc)), utc))
  {
    var tx := Tx.ExtendDeadline(w.db, h, silence, utc);
    if tx.Commit? {
      assert RowOk(w, w.db.execs[h.id]);
      PutKeeps(w, h.id, tx.db.execs[h.id], w.issued, utc);
    } else {
      ClockKeeps(w, utc);
    }
  }

  lemma CompleteKeeps(w: World, h: Holder, o: Tx.Outcome, now: Instant, utc: Clock)
    requires Inv(w)
    ensures Inv(Led(w, Tx.After(w.db, Tx.Complete(w.db, h, o, now, utc)), utc))
  {
    if o.status.Terminal() && Tx.Reportable(w.db, h, utc) {
      HolderIsRow(w, h.job, h.id, h.token, h.epoch);
      var e := Tx.Ended(Tx.Charged(w.db.execs[h.id], now), o.status, o.reason, now).(leaseUntil := None);
      FinishKeeps(w, h.job, h.id, h.key, h.token, h.epoch, o.status.Success?, e, o.executor, o.attempt, now, utc);
    } else {
      ClockKeeps(w, utc);
    }
  }

  lemma RetryKeeps(w: World, h: Holder, o: Tx.Outcome, backoff: int, now: Instant, utc: Clock)
    requires Inv(w)
    ensures Inv(Led(w, Tx.After(w.db, Tx.Retry(w.db, h, o, backoff, now, utc)), utc))
  {
    if Tx.Reportable(w.db, h, utc) {
      HolderIsRow(w, h.job, h.id, h.token, h.epoch);
      var e := Tx.Retried(Tx.Charged(w.db.execs[h.id], now), backoff, now);
      FinishKeeps(w, h.job, h.id, h.key, h.token, h.epoch, false, e, o.executor, o.attempt, now, utc);
    } else {
      ClockKeeps(w, utc);
    }
  }

  lemma RequestCancelKeeps(w: World, id: int, utc: Clock)
    requires Inv(w)
    ensures Inv(Led(w, Tx.After(w.db, Tx.RequestCancel(w.db, id)), utc))
  {
    var tx := Tx.RequestCancel(w.db, id);
    if tx.Commit? {
      assert RowOk(w, w.db.execs[id]);
      PutKeeps(w, id, tx.db.execs[id], w.issued, utc);
    } else {
      ClockKeeps(w, utc);
    }
  }

  lemma AdoptKeeps(w: World, v: Stale, newOwner: Instance, lease: int, silence: int, promote: bool, now: Instant,
                   utc: Clock)
    requires Inv(w)
    ensures Inv(Led(w, Tx.After(w.db, Tx.Adopt(w.db, v, newOwner, lease, silence, promote, now, utc)), utc))
  {
    var tx := Tx.Adopt(w.db, v, newOwner, lease, silence, promote, now, utc);
    if tx.Commit? {
      HolderIsRow(w, v.job, v.id, v.token, v.epoch);
      assert JobOk(w, v.job);
      TouchKeeps(w, Led(w, tx.db, utc), v.job, v.id);
    } else {
      ClockKeeps(w, utc);
    }
  }

  lemma ResolveKeeps(w: World, v: Stale, backoff: int, now: Instant, utc: Clock)
    requires Inv(w)
    ensures Inv(Led(w, Tx.After(w.db, Tx.Resolve(w.db, v, backoff, now, utc)), utc))
  {
    if Tx.Recheck(w.db, v.job, v.id, v.token, v.epoch).None? {
      HolderIsRow(w, v.job, v.id, v.token, v.epoch);
      var e := Tx.Resolved(w.db.execs[v.id], backoff, now, utc);
      FinishKeeps(w, v.job, v.id, v.key, v.token, v.epoch, false, e, v.sentTo, AttemptUnknown, now, utc);
    }
    ClockKeeps(w, utc);
  }

  lemma FenceTimedOutKeeps(w: World, v: Stale, now: Instant, utc: Clock)
    requires Inv(w)
    ensures Inv(Led(w, Tx.After(w.db, Tx.FenceTimedOut(w.db, v, now)), utc))
  {
    if Tx.Recheck(w.db, v.job, v.id, v.token, v.epoch).None? {
      HolderIsRow(w, v.job, v.id, v.token, v.epoch);
      var e := Tx.FencedOff(w.db.execs[v.id], ReasonTimeout, now);
      FinishKeeps(w, v.job, v.id, v.key, v.token, v.epoch, false, e, v.sentTo, AttemptFenced, now, utc);
    }
    ClockKeeps(w, utc);
  }

  lemma ExpireSilentKeeps(w: World, v: Stale, now: Instant, utc: Clock)
    requires Inv(w)
    ensures Inv(Led(w, Tx.After(w.db, Tx.ExpireSilent(w.db, v, now, utc)), utc))
  {
    if Tx.Recheck(w.db, v.job, v.id, v.token, v.epoch).None? {
      HolderIsRow(w, v.job, v.id, v.token, v.epoch);
      var e := Tx.FencedOff(w.db.execs[v.id], ReasonFenced, now);
      FinishKeeps(w, v.job, v.id, v.key, v.token, v.epoch, false, e, v.sentTo, AttemptUnknown, now, utc);
    }
    ClockKeeps(w, utc);
  }

  /** The execution an owner gives up is unowned, ended and within its budgets. */
  lemma GivenUpRow(w: World, h: Holder, e: Execution, now: Instant)
    requires Inv(w) && Tx.Recheck(w.db, h.job, h.id, h.token, h.epoch).None? && w.db.execs[h.id].status.InFlight()
    requires var cur := w.db.execs[h.id];
             e == Tx.Disowned(Tx.FencedOff(cur, ReasonFenced, now)).(recoveryCount := cur.recoveryCount + 1)
    ensures e.status.Terminal() && e.finishedAt.Some? && e.reason.Some? && e.leaseUntil.None? && e.runToken.None?
    ensures WithinBudget(e) && 0 <= e.fenceEpoch <= h.epoch + 1 && KeyNamesOrigin(e)
    ensures e.job == w.db.execs[h.id].job && e.key == w.db.execs[h.id].key
  {
    assert RowOk(w, w.db.execs[h.id]);
  }

  lemma ReleaseAsOwnerKeeps(w: World, h: Holder, now: Instant, utc: Clock)
    requires Inv(w)
    ensures Inv(Led(w, Tx.After(w.db, Tx.ReleaseAsOwner(w.db, h, now, utc)), utc))
  {
    if Tx.ReleaseAsOwner(w.db, h, now, utc).Abort? {
      ClockKeeps(w, utc);
    } else {
      var cur := w.db.execs[h.id];
      var e := Tx.Disowned(Tx.FencedOff(cur, ReasonFenced, now)).(recoveryCount := cur.recoveryCount + 1);
      GivenUpRow(w, h, e, now);
      FinishKeeps(w, h.job, h.id, h.key, h.token, h.epoch, false, e, None, AttemptUnknown, now, utc);
    }
  }

  /** Steps that change definitions or clocks but no owner column and no execution. */
  lemma JobsKeep(w: World, w': World)
    requires Inv(w)
    requires w'.db.execs == w.db.execs && w'.db.attempts == w.db.attempts && w'.issued == w.issued
    requires w'.db.defs.Keys == w'.db.states.Keys && w.db.states.Keys <= w'.db.states.Keys
    requires forall job :: job in w.db.states ==>
               w'.db.states[job].active == w.db.states[job].active
                 && w'.db.states[job].fenceEpoch == w.db.states[job].fenceEpoch
    requires forall job :: job in w'.db.states ==>
               && ValidDefinition(w'.db.defs[job]) && w'.db.states[job].configVersion <= w'.db.defs[job].version
               && (job in w.db.states || (w'.db.states[job].active.Free? && w'.db.states[job].fenceEpoch == 0))
    ensures Inv(w')
  {
  }

  lemma CreateJobKeeps(w: World, job: JobName, d: Definition, nextFire: Instant, now: Instant, utc: Clock)
    requires Inv(w)
    ensures Inv(Led(w, Tx.After(w.db, Tx.CreateJob(w.db, job, d, nextFire, now)), utc))
  {
  }

  lemma UpdateJobKeeps(w: World, job: JobName, d: Definition, seen: int, utc: Clock)
    requires Inv(w)
    ensures Inv(Led(w, Tx.After(w.db, Tx.UpdateJob(w.db, job, d, seen)), utc))
  {
  }

  lemma SetPausedKeeps(w: World, job: JobName, paused: bool, utc: Clock)
    requires Inv(w)
    ensures Inv(Led(w, Tx.After(w.db, Tx.SetPaused(w.db, job, paused)), utc))
  {
  }

  lemma RecomputeKeeps(w: World, compile: Tx.Compile, job: JobName, now: Instant, utc: Clock)
    requires Inv(w)
    ensures Inv(Led(w, Tx.After(w.db, Tx.Recompute(w.db, compile, job, now)), utc))
  {
  }

  /** Retirement rewrites every execution of the job, each in place. */
  lemma RetireKeepsRow(w: World, job: JobName, now: Instant, utc: Clock, id: int)
    requires Inv(w) && id in w.db.execs && Tx.Retire(w.db, job, now).Commit?
    ensures RowOk(Led(w, Tx.Retire(w.db, job, now).db, utc), Tx.RetiredRow(w.db.execs[id], job, now))
  {
  }

  lemma RetireKeepsJob(w: World, job: JobName, now: Instant, utc: Clock, j: JobName)
    requires Inv(w) && j in w.db.states && Tx.Retire(w.db, job, now).Commit?
    ensures JobOk(Led(w, Tx.Retire(w.db, job, now).db, utc), j)
  {
    var w' := Led(w, Tx.Retire(w.db, job, now).db, utc);
    assert JobOk(w, j);
    if w.db.states[j].active.Held? {
      var b :| b in w.db.execs && w.db.execs[b].job == j && w.db.execs[b].status.InFlight();
      assert b in w'.db.execs && w'.db.execs[b].job == j && w'.db.execs[b].status.InFlight();
    }
  }

  lemma RetireKeeps(w: World, job: JobName, now: Instant, utc: Clock)
    requires Inv(w)
    ensures Inv(Led(w, Tx.After(w.db, Tx.Retire(w.db, job, now)), utc))
  {
    var tx := Tx.Retire(w.db, job, now);
    if tx.Commit? {
      var w' := Led(w, tx.db, utc);
      forall id | id in w'.db.execs ensures RowOk(w', w'.db.execs[id]) { RetireKeepsRow(w, job, now, utc, id); }
      forall j | j in w'.db.states ensures JobOk(w', j) { RetireKeepsJob(w, job, now, utc, j); }
      forall id | id in w.db.execs
        ensures w'.db.execs[id].key == w.db.execs[id].key && w'.db.execs[id].runToken == w.db.execs[id].runToken {}
    } else {
      ClockKeeps(w, utc);
    }
  }

  /** Inserting a fresh `ready` row, with at most the job's schedule clocks moved. */
  lemma InsertKeeps(w: World, w': World, job: JobName, id: int, key: ExecutionKey, trigger: Trigger, at: Instant)
    requires Inv(w) && job in w.db.states && job in w.db.defs && job in w'.db.states
    requires id !in w.db.execs && !Tx.KeyTaken(w.db, key)
    requires w'.db.execs == w.db.execs[id := Tx.NewExecution(key, job, trigger, at, w.db.defs[job])]
    requires w'.db.states == w.db.states[job := w'.db.states[job]]
    requires w'.db.states[job].active == w.db.states[job].active
    requires w'.db.states[job].fenceEpoch == w.db.states[job].fenceEpoch
    requires w'.db.states[job].configVersion <= w.db.defs[job].version
    requires w'.db.defs == w.db.defs && w'.db.attempts == w.db.attempts && w'.issued == w.issued
    requires KeyNamesOrigin(Tx.NewExecution(key, job, trigger, at, w.db.defs[job]))
    ensures Inv(w')
  {
    assert JobOk(w, job);
    TouchKeeps(w, w', job, id);
  }

  lemma TriggerKeeps(w: World, id: int, job: JobName, request: int, now: Instant, utc: Clock)
    requires Inv(w) && id !in w.db.execs
    ensures Inv(Led(w, Tx.After(w.db, Tx.TriggerRun(w.db, id, job, request, now)), utc))
  {
    var w' := Led(w, Tx.After(w.db, Tx.TriggerRun(w.db, id, job, request, now)), utc);
    if w'.db != w.db {
      assert JobOk(w, job);
      InsertKeeps(w, w', job, id, ManualKey(job, request), ByHand, now);
    } else {
      ClockKeeps(w, utc);
    }
  }

  lemma AuthorizedRetryKeeps(w: World, id: int, now: Instant, utc: Clock)
    requires Inv(w)
    ensures Inv(Led(w, Tx.After(w.db, Tx.AuthorizedRetry(w.db, id, now)), utc))
  {
    var tx := Tx.AuthorizedRetry(w.db, id, now);
    if tx.Commit? {
      assert RowOk(w, w.db.execs[id]);
      PutKeeps(w, id, tx.db.execs[id], w.issued, utc);
    } else {
      ClockKeeps(w, utc);
    }
  }

  lemma MaterializeCronKeeps(w: World, compile: Tx.Compile, id: int, job: JobName, grace: int, now: Instant, utc: Clock)
    requires Inv(w) && Tx.Forward(compile) && id !in w.db.execs
    ensures Inv(Led(w, Tx.After(w.db, Tx.MaterializeCron(w.db, compile, id, job, grace, now)), utc))
  {
    var tx := Tx.MaterializeCron(w.db, compile, id, job, grace, now);
    forall j | j in w.db.states ensures JobOk(w, j) {}
    if tx.Commit? && tx.value.Created? {
      InsertKeeps(w, Led(w, tx.db, utc), job, id, tx.value.key, ByCron, tx.value.key.fireAt);
    } else {
      JobsKeep(w, Led(w, Tx.After(w.db, tx), utc));
    }
  }

  lemma MaterializePollKeeps(w: World, compile: Tx.Compile, id: int, job: JobName, pass: int, now: Instant, utc: Clock)
    requires Inv(w) && id !in w.db.execs
    ensures Inv(Led(w, Tx.After(w.db, Tx.MaterializePoll(w.db, compile, id, job, pass, now)), utc))
  {
    var tx := Tx.MaterializePoll(w.db, compile, id, job, pass, now);
    forall j | j in w.db.states ensures JobOk(w, j) {}
    if tx.Commit? && tx.value.Created? {
      InsertKeeps(w, Led(w, tx.db, utc), job, id, tx.value.key, ByPoll, now);
    } else {
      JobsKeep(w, Led(w, Tx.After(w.db, tx), utc));
    }
  }

  lemma OwnerStepKeeps(compile: Tx.Compile, w: World, s: Step)
    requires Tx.Forward(compile) && Inv(w)
    requires s.op.Accept? || s.op.Refuse? || s.op.Retarget? || s.op.Renew? || s.op.ExtendDeadline? || s.op.Adopt?
    ensures Inv(Next(compile, w, s))
  {
    match s.op
    case Accept(id, token, epoch, silence) => AcceptKeeps(w, id, token, epoch, silence, s.now, s.utc);
    case Refuse(p, epoch) => RefuseKeeps(w, p, epoch, s.now, s.utc);
    case Retarget(h, x) => RetargetKeeps(w, h, x, s.utc);
    case Renew(h, lease) => RenewKeeps(w, h, lease, s.utc);
    case ExtendDeadline(h, silence) => ExtendDeadlineKeeps(w, h, silence, s.utc);
    case Adopt(v, o, lease, silence, promote) => AdoptKeeps(w, v, o, lease, silence, promote, s.now, s.utc);
  }

  lemma EndingStepKeeps(compile: Tx.Compile, w: World, s: Step)
    requires Tx.Forward(compile) && Inv(w)
    requires s.op.Complete? || s.op.Retry? || s.op.Resolve? || s.op.FenceTimedOut? || s.op.ExpireSilent?
             || s.op.ReleaseAsOwner?
    ensures Inv(Next(compile, w, s))
  {
    match s.op
    case Complete(h, o) => CompleteKeeps(w, h, o, s.now, s.utc);
    case Retry(h, o, backoff) => RetryKeeps(w, h, o, backoff, s.now, s.utc);
    case Resolve(v, backoff) => ResolveKeeps(w, v, backoff, s.now, s.utc);
    case FenceTimedOut(v) => FenceTimedOutKeeps(w, v, s.now, s.utc);
    case ExpireSilent(v) => ExpireSilentKeeps(w, v, s.now, s.utc);
    case ReleaseAsOwner(h) => ReleaseAsOwnerKeeps(w, h, s.now, s.utc);
  }

  lemma JobStepKeeps(compile: Tx.Compile, w: World, s: Step)
    requires Tx.Forward(compile) && Inv(w)
    requires s.op.CreateJob? || s.op.UpdateJob? || s.op.SetPaused? || s.op.Recompute?
    ensures Inv(Next(compile, w, s))
  {
    match s.op
    case CreateJob(job, d, fire) => CreateJobKeeps(w, job, d, fire, s.now, s.utc);
    case UpdateJob(job, d, seen) => UpdateJobKeeps(w, job, d, seen, s.utc);
    case SetPaused(job, paused) => SetPausedKeeps(w, job, paused, s.utc);
    case Recompute(job) => RecomputeKeeps(w, compile, job, s.now, s.utc);
  }

  lemma InsertStepKeeps(compile: Tx.Compile, w: World, s: Step)
    requires Tx.Forward(compile) && Inv(w) && Enabled(w, s)
    requires s.op.TriggerRun? || s.op.MaterializeCron? || s.op.MaterializePoll?
    ensures Inv(Next(compile, w, s))
  {
    match s.op
    case TriggerRun(id, job, request) => TriggerKeeps(w, id, job, request, s.now, s.utc);
    case MaterializeCron(id, job, grace) => MaterializeCronKeeps(w, compile, id, job, grace, s.now, s.utc);
    case MaterializePoll(id, job, pass) => MaterializePollKeeps(w, compile, id, job, pass, s.now, s.utc);
  }

  lemma RowStepKeeps(compile: Tx.Compile, w: World, s: Step)
    requires Tx.Forward(compile) && Inv(w) && Enabled(w, s)
    requires s.op.Claim? || s.op.RequestCancel? || s.op.AuthorizedRetry?
    ensures Inv(Next(compile, w, s))
  {
    match s.op
    case Claim(p, served) => ClaimKeeps(w, p, served, s.now, s.utc);
    case RequestCancel(id) => RequestCancelKeeps(w, id, s.utc);
    case AuthorizedRetry(id) => AuthorizedRetryKeeps(w, id, s.now, s.utc);
  }

  /** The invariant is inductive: every enabled step keeps it. */
  lemma StepKeeps(compile: Tx.Compile, w: World, s: Step)
    requires Tx.Forward(compile) && Inv(w) && Enabled(w, s)
    ensures Inv(Next(compile, w, s))
  {
    if s.op.Accept? || s.op.Refuse? || s.op.Retarget? || s.op.Renew? || s.op.ExtendDeadline? || s.op.Adopt? {
      OwnerStepKeeps(compile, w, s);
    } else if s.op.CreateJob? || s.op.UpdateJob? || s.op.SetPaused? || s.op.Recompute? {
      JobStepKeeps(compile, w, s);
    } else if s.op.Retire? {
      RetireKeeps(w, s.op.job, s.now, s.utc);
    } else if s.op.TriggerRun? || s.op.MaterializeCron? || s.op.MaterializePoll? {
      InsertStepKeeps(compile, w, s);
    } else if s.op.Claim? || s.op.RequestCancel? || s.op.AuthorizedRetry? {
      RowStepKeeps(compile, w, s);
    } else {
      EndingStepKeeps(compile, w, s);
    }
  }
}
