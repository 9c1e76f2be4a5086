/** The pace of the fixed-delay loop: one pass at a time, and never sooner than the delay after
  the previous one ended. An operator's retry of a dead pass may put it beside the loop; when it does is
  stated exactly, and every other step keeps the pace. */
module PollPace {
  import opened Rows
  import opened Schedules
  import opened Protocol
  import opened Preservation
  import opened RowSteps
  import opened Runs
  import opened PollLoop
  import Tx = Transactions

  /** The step creates a pass of the job. */
  ghost predicate CreatesPass(db: Db, db': Db, job: JobName) {
    exists b :: b !in db.execs && b in db'.execs && Tx.IsPass(db'.execs[b], job)
  }

  lemma InsertedTrigger(compile: Tx.Compile, w: World, s: Step, id: int)
    requires Tx.Forward(compile) && Inv(w) && Enabled(w, s)
    requires s.op.TriggerRun? || s.op.MaterializeCron? || s.op.MaterializePoll?
    requires id !in w.db.execs && id in Next(compile, w, s).db.execs
    ensures Next(compile, w, s).db.execs[id].trigger.ByPoll? ==> s.op.MaterializePoll?
  {
  }

  /** An operator retries a pass of the job. */
  predicate RetriesPass(db: Db, s: Step, job: JobName) {
    s.op.AuthorizedRetry? && s.op.id in db.execs && Tx.IsPass(db.execs[s.op.id], job)
  }

  /** The retry commits while the next pass is already scheduled or another one is outstanding. */
  predicate RetriesBeside(db: Db, s: Step, job: JobName) {
    && RetriesPass(db, s, job) && Tx.AuthorizedRetry(db, s.op.id, s.now).Commit?
    && ((job in db.states && db.states[job].nextPollAt.Some?) || Tx.PassOutstanding(db, job))
  }

  /** No step from `i` to `n` retries a pass of the job beside its loop. */
  predicate NoneBeside(ws: seq<World>, ss: seq<Step>, i: int, n: int, job: JobName)
    requires |ws| == |ss| + 1 && 0 <= i <= n <= |ss|
  {
    forall k :: i <= k < n ==> !RetriesBeside(ws[k].db, ss[k], job)
  }

  lemma RevivedByOperator(s: Step, id: int, e: Execution, e': Execution)
    requires Moves(s, id, e, e') && e.status.Terminal() && !e'.status.Terminal()
    ensures s.op.AuthorizedRetry? && s.op.id == id
  {
  }

  /** A pass is outstanding only if it was, or was just created. */
  lemma NoNewPass(compile: Tx.Compile, w: World, s: Step, job: JobName, b: int)
    requires Tx.Forward(compile) && Inv(w) && Enabled(w, s) && !RetriesPass(w.db, s, job)
    requires Outstanding(Next(compile, w, s).db, job, b)
    ensures Outstanding(w.db, job, b) || (b !in w.db.execs && s.op.MaterializePoll? && s.op.job == job && s.op.id == b)
  {
    if b in w.db.execs {
      StepMoves(compile, w, s, b);
      if w.db.execs[b].status.Terminal() {
        RevivedByOperator(s, b, w.db.execs[b], Next(compile, w, s).db.execs[b]);
      }
    } else {
      StepInserts(compile, w, s, b);
      InsertedTrigger(compile, w, s, b);
    }
  }

  /** The clock is set now: it was set before, or the job has no pass left. */
  ghost predicate SetWhenIdle(db: Db, db': Db, job: JobName) {
    job in db'.states && db'.states[job].nextPollAt.Some? ==>
      (job in db.states && db.states[job].nextPollAt.Some?) || (forall b :: !Outstanding(db', job, b))
  }

  lemma SettledWhenIdle(db: Db, db': Db, id: int, now: Instant, job: JobName)
    requires Settled(db, db', id, now) && Exclusive(db, job)
    requires !db.execs[id].status.Terminal()
    requires db'.execs[id].job == db.execs[id].job && db'.execs[id].trigger == db.execs[id].trigger
    ensures SetWhenIdle(db, db', job)
  {
    if job in db.states && db.states[job].nextPollAt.None? && db'.states[job].nextPollAt.Some? {
      assert Outstanding(db, job, id);
      forall b
        ensures !Outstanding(db', job, b)
      {
        assert b != id ==> (Outstanding(db', job, b) ==> Outstanding(db, job, b));
      }
    }
  }

  lemma HoldWhenIdle(compile: Tx.Compile, w: World, s: Step, job: JobName)
    requires Tx.Forward(compile) && Inv(w) && Enabled(w, s) && HoldOf(s.op).Some? && Exclusive(w.db, job)
    ensures SetWhenIdle(w.db, Next(compile, w, s).db, job)
  {
    var db' := Next(compile, w, s).db;
    HoldSettles(compile, w, s);
    if db' != w.db && (Ends(s.op) || s.op.Refuse?) {
      GuardedWrite(compile, w.db, s);
      StepMoves(compile, w, s, TargetOf(s.op));
      SettledWhenIdle(w.db, db', TargetOf(s.op), s.now, job);
    }
  }

  lemma ClaimWhenIdle(compile: Tx.Compile, w: World, s: Step, job: JobName)
    requires Tx.Forward(compile) && Inv(w) && Enabled(w, s) && s.op.Claim? && Exclusive(w.db, job)
    ensures SetWhenIdle(w.db, Next(compile, w, s).db, job)
  {
    var db' := Next(compile, w, s).db;
    var tx := Tx.Claim(w.db, s.op.p, s.op.served, s.now, s.utc);
    ClaimClocks(w, s.op.p, s.op.served, s.now, s.utc);
    if tx.Commit? && tx.value.ClaimSkipped? {
      StepMoves(compile, w, s, s.op.p.id);
      SkipsReady(w.db, s.op.p, s.op.served, s.now, s.utc);
      SettledWhenIdle(w.db, db', s.op.p.id, s.now, job);
    }
  }

  lemma SkipsReady(db: Db, p: Tx.ClaimParams, served: bool, now: Instant, utc: Clock)
    requires var tx := Tx.Claim(db, p, served, now, utc); tx.Commit? && tx.value.ClaimSkipped?
    ensures p.id in db.execs && db.execs[p.id].status.Ready?
  {
  }

  lemma NormalizeWhenIdle(db: Db, compile: Tx.Compile, j: JobName, now: Instant, job: JobName)
    requires j in db.states && j in db.defs
    ensures SetWhenIdle(db, Tx.NormalizeClocks(db, compile, j, now), job)
  {
  }

  lemma CronWhenIdle(db: Db, compile: Tx.Compile, id: int, j: JobName, grace: int, now: Instant, job: JobName)
    requires Tx.Forward(compile)
    ensures SetWhenIdle(db, Tx.After(db, Tx.MaterializeCron(db, compile, id, j, grace, now)), job)
  {
  }

  lemma PollWhenIdle(db: Db, compile: Tx.Compile, id: int, j: JobName, pass: int, now: Instant, job: JobName)
    ensures SetWhenIdle(db, Tx.After(db, Tx.MaterializePoll(db, compile, id, j, pass, now)), job)
  {
  }

  lemma OtherWhenIdle(compile: Tx.Compile, w: World, s: Step, job: JobName)
    requires Tx.Forward(compile) && Inv(w) && Enabled(w, s)
    requires s.op.RequestCancel? || s.op.SetPaused? || s.op.TriggerRun? || s.op.AuthorizedRetry? || s.op.CreateJob?
             || s.op.UpdateJob? || s.op.Retire?
    ensures SetWhenIdle(w.db, Next(compile, w, s).db, job)
  {
  }

  lemma StepSetsWhenIdle(compile: Tx.Compile, w: World, s: Step, job: JobName)
    requires Tx.Forward(compile) && Inv(w) && Enabled(w, s) && Exclusive(w.db, job)
    ensures SetWhenIdle(w.db, Next(compile, w, s).db, job)
  {
    if s.op.Claim? {
      ClaimWhenIdle(compile, w, s, job);
    } else if HoldOf(s.op).Some? {
      HoldWhenIdle(compile, w, s, job);
    } else if s.op.MaterializeCron? {
      CronWhenIdle(w.db, compile, s.op.id, s.op.job, s.op.grace, s.now, job);
    } else if s.op.MaterializePoll? {
      PollWhenIdle(w.db, compile, s.op.id, s.op.job, s.op.pass, s.now, job);
    } else if s.op.Recompute? {
      if s.op.job in w.db.states && s.op.job in w.db.defs { NormalizeWhenIdle(w.db, compile, s.op.job, s.now, job); }
    } else {
      OtherWhenIdle(compile, w, s, job);
    }
  }

  // ----- exclusivity ---------------------------------------------------------------------

  /** A pass is created only off a set clock that has come due, and clears it. */
  lemma CreationClears(db: Db, compile: Tx.Compile, id: int, job: JobName, pass: int, now: Instant)
    requires id !in db.execs
    ensures var db' := Tx.After(db, Tx.MaterializePoll(db, compile, id, job, pass, now));
            id in db'.execs ==>
              && Tx.InDate(db, job, FixedDelay) && db.states[job].nextPollAt.Some?
              && db.states[job].nextPollAt.value <= now
              && db'.states[job].nextPollAt.None? && db'.execs[id].scheduledAt == now
              && db'.execs == db.execs[id := db'.execs[id]]
  {
  }

  lemma CreationKeepsExclusive(db: Db, compile: Tx.Compile, id: int, job: JobName, pass: int, now: Instant)
    requires id !in db.execs && Exclusive(db, job)
    ensures Exclusive(Tx.After(db, Tx.MaterializePoll(db, compile, id, job, pass, now)), job)
  {
    var db' := Tx.After(db, Tx.MaterializePoll(db, compile, id, job, pass, now));
    PollWhenIdle(db, compile, id, job, pass, now, job);
    CreationClears(db, compile, id, job, pass, now);
    forall b | Outstanding(db', job, b) && b != id
      ensures Outstanding(db, job, b)
    {
    }
  }

  lemma OtherKeepsExclusive(compile: Tx.Compile, w: World, s: Step, job: JobName)
    requires Tx.Forward(compile) && Inv(w) && Enabled(w, s) && Exclusive(w.db, job) && !RetriesPass(w.db, s, job)
    ensures Exclusive(Next(compile, w, s).db, job)
  {
    if s.op.MaterializePoll? && s.op.job == job {
      CreationKeepsExclusive(w.db, compile, s.op.id, job, s.op.pass, s.now);
    } else {
      StepSetsWhenIdle(compile, w, s, job);
      forall b | Outstanding(Next(compile, w, s).db, job, b)
        ensures Outstanding(w.db, job, b)
      {
        NoNewPass(compile, w, s, job, b);
      }
    }
  }

  /** A retry of a dead pass puts it beside the loop exactly when it commits while the next pass is already
      scheduled or another one is outstanding. */
  lemma RetryBreaksPaceIff(db: Db, id: int, job: JobName, now: Instant)
    requires Exclusive(db, job) && id in db.execs && Tx.IsPass(db.execs[id], job)
    ensures var tx := Tx.AuthorizedRetry(db, id, now);
            Exclusive(Tx.After(db, tx), job) <==>
              tx.Abort? || (db.states[job].nextPollAt.None? && !Tx.PassOutstanding(db, job))
  {
    var tx := Tx.AuthorizedRetry(db, id, now);
    if tx.Commit? {
      var db' := tx.db;
      assert Outstanding(db', job, id) && !Outstanding(db, job, id);
      forall b | b != id
        ensures Outstanding(db', job, b) <==> Outstanding(db, job, b)
      {
      }
      if Tx.PassOutstanding(db, job) {
        var b :| b in db.execs && Tx.IsPass(db.execs[b], job) && !db.execs[b].status.Terminal();
        assert Outstanding(db', job, b) && b != id;
      } else {
        forall b | Outstanding(db', job, b)
          ensures b == id
        {
          assert b != id ==> Outstanding(db, job, b);
        }
      }
    }
  }

  /** One step: the pace is kept by every step but a retry beside the loop, and by none of those. */
  lemma PaceKeptIff(compile: Tx.Compile, w: World, s: Step, job: JobName)
    requires Tx.Forward(compile) && Inv(w) && Enabled(w, s) && Exclusive(w.db, job)
    ensures Exclusive(Next(compile, w, s).db, job) <==> !RetriesBeside(w.db, s, job)
  {
    if RetriesPass(w.db, s, job) {
      RetryBreaksPaceIff(w.db, s.op.id, job, s.now);
    } else {
      OtherKeepsExclusive(compile, w, s, job);
    }
  }

  lemma ExclusiveAt(compile: Tx.Compile, ws: seq<World>, ss: seq<Step>, k: nat, job: JobName)
    requires Run(compile, ws, ss) && k < |ss| && Exclusive(ws[k].db, job)
    ensures Exclusive(ws[k + 1].db, job) <==> !RetriesBeside(ws[k].db, ss[k], job)
  {
    Reachable(compile, ws, ss, k);
    assert Follows(compile, ws, ss, k);
    PaceKeptIff(compile, ws[k], ss[k], job);
  }

  /** One pass at a time: from the beginning of a run, or from any world in which it is so, a job never has two
      passes outstanding, nor one while its next is already scheduled, until a retry is made beside its loop. */
  lemma {:induction false} OnePassAtATime(compile: Tx.Compile, ws: seq<World>, ss: seq<Step>, i: nat, n: nat,
                                          job: JobName)
    requires Run(compile, ws, ss) && i <= n < |ws| && (i == 0 || Exclusive(ws[i].db, job))
    requires NoneBeside(ws, ss, i, n, job)
    ensures Exclusive(ws[n].db, job)
    decreases n
  {
    if i < n {
      OnePassAtATime(compile, ws, ss, i, n - 1, job);
      ExclusiveAt(compile, ws, ss, n - 1, job);
    }
  }

  const REPORT := Complete(Holder(1, 1, PollKey(1, 1), 1, 1, 1),
                           Tx.Outcome(Dead, PermanentFailure, AttemptFailed, None))

  /** A run in which it does: a pass reported dead has already scheduled its successor when an operator
      retries it. */
  lemma RetryBesideLoop(compile: Tx.Compile) returns (ws: seq<World>, ss: seq<Step>)
    requires Tx.Forward(compile)
    ensures Run(compile, ws, ss) && |ss| == 5 && RetriesPass(ws[4].db, ss[4], 1)
    ensures !Exclusive(ws[5].db, 1)
  {
    LosingClaim(compile);
    ws, ss := ClaimedPass(compile);
    ReportedDead(compile, ws[3]);
    ws, ss := Extend(compile, ws, ss, Step(REPORT, 0, 0));
    RetriedBeside(compile, ws[4]);
    ws, ss := Extend(compile, ws, ss, Step(AuthorizedRetry(1), 0, 0));
  }

  lemma RetriedBeside(compile: Tx.Compile, w: World)
    requires Tx.Forward(compile) && w.db.defs == map[1 := LOST_POLLER] && w.db.states.Keys == {1}
    requires w.db.states[1].nextPollAt.Some?
    requires w.db.execs.Keys == {1} && w.db.execs[1].status.Dead? && Tx.IsPass(w.db.execs[1], 1)
    ensures !Exclusive(Next(compile, w, Step(AuthorizedRetry(1), 0, 0)).db, 1)
  {
    assert Outstanding(Next(compile, w, Step(AuthorizedRetry(1), 0, 0)).db, 1, 1);
  }

  lemma ReportedDead(compile: Tx.Compile, w: World)
    requires Tx.Forward(compile)
    requires w.db.defs == map[1 := LOST_POLLER] && w.db.states.Keys == {1} && HoldsJob(w.db, 1, 1, 1)
    requires w.db.execs.Keys == {1} && DispatchingUnder(w.db, 1, 1, 1) && w.db.execs[1].timeoutAt == Some(1)
    requires Tx.IsPass(w.db.execs[1], 1)
    ensures var db' := Next(compile, w, Step(REPORT, 0, 0)).db;
            && db'.defs == w.db.defs && db'.states.Keys == {1} && db'.states[1].nextPollAt == Some(SECOND)
            && db'.execs.Keys == {1} && db'.execs[1].status.Dead? && Tx.IsPass(db'.execs[1], 1)
  {
  }

  // ----- the delay -----------------------------------------------------------------------

  /** The job is an enabled poller under definition `d`, and its next pass is due at `due`. */
  predicate Waiting(db: Db, job: JobName, d: Definition, due: Instant) {
    && job in db.defs && db.defs[job] == d && d.enabled && !d.retired && d.kind.FixedDelay?
    && job in db.states && db.states[job].nextPollAt == Some(due)
  }

  lemma SettledWaits(db: Db, db': Db, id: int, now: Instant, job: JobName, d: Definition)
    requires Settled(db, db', id, now) && job in db.states
    requires Tx.IsPass(db'.execs[id], job) && db'.execs[id].status.Terminal()
    requires job in db.defs && db.defs[job] == d && d.kind.FixedDelay? && d.enabled && !d.retired
    ensures Waiting(db', job, d, now + Delay(d))
  {
  }

  lemma SkippedPassWaits(w: World, s: Step, job: JobName, a: int, d: Definition)
    requires Inv(w) && s.op.Claim? && s.op.p.id == a && Outstanding(w.db, job, a) && w.db.execs[a].status.Ready?
    requires job in w.db.states && job in w.db.defs && w.db.defs[job] == d && d.kind.FixedDelay? && d.enabled
    requires !d.retired
    requires var db' := Tx.After(w.db, Tx.Claim(w.db, s.op.p, s.op.served, s.now, s.utc));
             a in db'.execs && db'.execs[a].status.Skipped? && Tx.IsPass(db'.execs[a], job)
    ensures Waiting(Tx.After(w.db, Tx.Claim(w.db, s.op.p, s.op.served, s.now, s.utc)), job, d, s.now + Delay(d))
  {
  }

  lemma SettledKeepsWait(db: Db, db': Db, id: int, now: Instant, job: JobName, d: Definition, due: Instant)
    requires Settled(db, db', id, now) && Exclusive(db, job) && Waiting(db, job, d, due)
    requires !db.execs[id].status.Terminal()
    requires db'.execs[id].job == db.execs[id].job && db'.execs[id].trigger == db.execs[id].trigger
    ensures Waiting(db', job, d, due)
  {
    assert EndedPass(db', job, id) ==> Outstanding(db, job, id);
  }

  lemma HoldKeepsWait(compile: Tx.Compile, w: World, s: Step, job: JobName, d: Definition, due: Instant)
    requires Tx.Forward(compile) && Inv(w) && Enabled(w, s) && HoldOf(s.op).Some?
    requires Exclusive(w.db, job) && Waiting(w.db, job, d, due)
    ensures Waiting(Next(compile, w, s).db, job, d, due)
  {
    var db' := Next(compile, w, s).db;
    HoldSettles(compile, w, s);
    if db' != w.db && (Ends(s.op) || s.op.Refuse?) {
      GuardedWrite(compile, w.db, s);
      StepMoves(compile, w, s, TargetOf(s.op));
      SettledKeepsWait(w.db, db', TargetOf(s.op), s.now, job, d, due);
    }
  }

  lemma ClaimKeepsWait(compile: Tx.Compile, w: World, s: Step, job: JobName, d: Definition, due: Instant)
    requires Tx.Forward(compile) && Inv(w) && Enabled(w, s) && s.op.Claim?
    requires Exclusive(w.db, job) && Waiting(w.db, job, d, due)
    ensures Waiting(Next(compile, w, s).db, job, d, due)
  {
    var db' := Next(compile, w, s).db;
    var tx := Tx.Claim(w.db, s.op.p, s.op.served, s.now, s.utc);
    ClaimClocks(w, s.op.p, s.op.served, s.now, s.utc);
    if tx.Commit? && tx.value.ClaimSkipped? {
      StepMoves(compile, w, s, s.op.p.id);
      SkipsReady(w.db, s.op.p, s.op.served, s.now, s.utc);
      SettledKeepsWait(w.db, db', s.op.p.id, s.now, job, d, due);
    }
  }

  lemma CronKeepsWait(db: Db, compile: Tx.Compile, id: int, j: JobName, grace: int, now: Instant,
                      job: JobName, d: Definition, due: Instant)
    requires Tx.Forward(compile) && Waiting(db, job, d, due)
    ensures Waiting(Tx.After(db, Tx.MaterializeCron(db, compile, id, j, grace, now)), job, d, due)
  {
  }

  lemma PollKeepsWait(db: Db, compile: Tx.Compile, id: int, j: JobName, pass: int, now: Instant,
                      job: JobName, d: Definition, due: Instant)
    requires Waiting(db, job, d, due) && id !in db.execs
    requires var db' := Tx.After(db, Tx.MaterializePoll(db, compile, id, j, pass, now)); !CreatesPass(db, db', job)
    ensures Waiting(Tx.After(db, Tx.MaterializePoll(db, compile, id, j, pass, now)), job, d, due)
  {
  }

  /** Until its next pass is created, an unedited poller keeps waiting for the same instant. */
  lemma StepKeepsWait(compile: Tx.Compile, w: World, s: Step, job: JobName, d: Definition, due: Instant)
    requires Tx.Forward(compile) && Inv(w) && Enabled(w, s) && Exclusive(w.db, job) && Waiting(w.db, job, d, due)
    requires var db' := Next(compile, w, s).db; job in db'.defs && db'.defs[job] == d && !CreatesPass(w.db, db', job)
    ensures Waiting(Next(compile, w, s).db, job, d, due)
  {
    if s.op.Claim? {
      ClaimKeepsWait(compile, w, s, job, d, due);
    } else if HoldOf(s.op).Some? {
      HoldKeepsWait(compile, w, s, job, d, due);
    } else if s.op.MaterializeCron? {
      CronKeepsWait(w.db, compile, s.op.id, s.op.job, s.op.grace, s.now, job, d, due);
    } else if s.op.MaterializePoll? {
      PollKeepsWait(w.db, compile, s.op.id, s.op.job, s.op.pass, s.now, job, d, due);
    }
  }

  /** The definition of the job is `d` in worlds `i` to `j`. */
  predicate Unedited(ws: seq<World>, i: int, j: int, job: JobName, d: Definition)
    requires 0 <= i <= j < |ws|
  {
    forall k :: i <= k <= j ==> job in ws[k].db.defs && ws[k].db.defs[job] == d
  }

  lemma {:induction false} WaitLasts(compile: Tx.Compile, ws: seq<World>, ss: seq<Step>, i: nat, j: nat,
                                     job: JobName, d: Definition, due: Instant)
    requires Run(compile, ws, ss) && i <= j < |ws| && Exclusive(ws[i].db, job) && NoneBeside(ws, ss, i, j, job)
    requires Waiting(ws[i].db, job, d, due) && Unedited(ws, i, j, job, d)
    requires forall k :: i <= k < j ==> !CreatesPass(ws[k].db, ws[k + 1].db, job)
    ensures Waiting(ws[j].db, job, d, due)
  {
    if i < j {
      WaitLasts(compile, ws, ss, i, j - 1, job, d, due);
      OnePassAtATime(compile, ws, ss, i, j - 1, job);
      assert !CreatesPass(ws[j - 1].db, ws[j - 1 + 1].db, job);
      WaitsAt(compile, ws, ss, j - 1, job, d, due);
    }
  }

  lemma WaitsAt(compile: Tx.Compile, ws: seq<World>, ss: seq<Step>, k: nat, job: JobName, d: Definition, due: Instant)
    requires Run(compile, ws, ss) && k < |ss| && Exclusive(ws[k].db, job) && Waiting(ws[k].db, job, d, due)
    requires job in ws[k + 1].db.defs && ws[k + 1].db.defs[job] == d && !CreatesPass(ws[k].db, ws[k + 1].db, job)
    ensures Waiting(ws[k + 1].db, job, d, due)
  {
    Reachable(compile, ws, ss, k);
    assert Follows(compile, ws, ss, k);
    StepKeepsWait(compile, ws[k], ss[k], job, d, due);
  }

  /** A pass is created for the instant its transaction saw, once the clock is due. */
  lemma CreatedWhenDue(compile: Tx.Compile, ws: seq<World>, ss: seq<Step>, j: nat, job: JobName, b: int)
    requires Run(compile, ws, ss) && j < |ss|
    requires b !in ws[j].db.execs && b in ws[j + 1].db.execs && Tx.IsPass(ws[j + 1].db.execs[b], job)
    ensures job in ws[j].db.states && ws[j].db.states[job].nextPollAt.Some?
    ensures ws[j].db.states[job].nextPollAt.value <= ss[j].now == ws[j + 1].db.execs[b].scheduledAt
  {
    Reachable(compile, ws, ss, j);
    assert Follows(compile, ws, ss, j);
    StepInserts(compile, ws[j], ss[j], b);
    InsertedTrigger(compile, ws[j], ss[j], b);
    CreationClears(ws[j].db, compile, b, job, ss[j].op.pass, ss[j].now);
  }

  lemma HoldSettlesAt(compile: Tx.Compile, ws: seq<World>, ss: seq<Step>, k: nat)
    requires Run(compile, ws, ss) && k < |ss| && HoldOf(ss[k].op).Some?
    ensures HoldClocks(ss[k].op, ws[k].db, ws[k + 1].db, ss[k].now)
  {
    Reachable(compile, ws, ss, k);
    assert Follows(compile, ws, ss, k);
    HoldSettles(compile, ws[k], ss[k]);
  }

  lemma SkippedPassWaitsAt(compile: Tx.Compile, ws: seq<World>, ss: seq<Step>, i: nat, job: JobName, a: int,
                           d: Definition)
    requires Run(compile, ws, ss) && i < |ss| && ss[i].op.Claim? && ss[i].op.p.id == a
    requires Outstanding(ws[i].db, job, a) && ws[i].db.execs[a].status.Ready?
    requires EndedPass(ws[i + 1].db, job, a) && ws[i + 1].db.execs[a].status.Skipped?
    requires Unedited(ws, i, i, job, d) && d.kind.FixedDelay? && d.enabled && !d.retired
    ensures Waiting(ws[i + 1].db, job, d, ss[i].now + Delay(d))
  {
    Reachable(compile, ws, ss, i);
    assert RowOk(ws[i], ws[i].db.execs[a]);
    ClaimAt(compile, ws, ss, i);
    SkippedPassWaits(ws[i], ss[i], job, a, d);
  }

  lemma ClaimAt(compile: Tx.Compile, ws: seq<World>, ss: seq<Step>, k: nat)
    requires Run(compile, ws, ss) && k < |ss| && ss[k].op.Claim?
    ensures ws[k + 1].db == Tx.After(ws[k].db, Tx.Claim(ws[k].db, ss[k].op.p, ss[k].op.served, ss[k].now, ss[k].utc))
  {
    assert Follows(compile, ws, ss, k);
  }

  /** A retirement that touches a row of the job leaves its definition retired. */
  lemma RetiresDefinition(compile: Tx.Compile, ws: seq<World>, ss: seq<Step>, i: nat, job: JobName)
    requires Run(compile, ws, ss) && i < |ss| && ss[i].op == Op.Retire(job) && job in ws[i].db.states
    ensures job in ws[i + 1].db.defs && ws[i + 1].db.defs[job].retired
  {
    Reachable(compile, ws, ss, i);
    assert JobOk(ws[i], job);
    assert Follows(compile, ws, ss, i);
  }

  /** A pass that ends restarts the clock one delay later. */
  lemma EndedPassWaits(compile: Tx.Compile, ws: seq<World>, ss: seq<Step>, i: nat, job: JobName, a: int, d: Definition)
    requires Run(compile, ws, ss) && i < |ss|
    requires Outstanding(ws[i].db, job, a) && !Outstanding(ws[i + 1].db, job, a) && !ExpiresPass(ws[i].db, ss[i], job)
    requires Unedited(ws, i, i + 1, job, d) && d.kind.FixedDelay? && d.enabled && !d.retired
    ensures Waiting(ws[i + 1].db, job, d, ss[i].now + Delay(d))
  {
    MovesAt(compile, ws, ss, i, a);
    MoveKeepsPass(ss[i], a, ws[i].db.execs[a], ws[i + 1].db.execs[a]);
    Reachable(compile, ws, ss, i);
    assert RowOk(ws[i], ws[i].db.execs[a]);
    if ss[i].op.Claim? {
      SkippedPassWaitsAt(compile, ws, ss, i, job, a, d);
    } else if ss[i].op.Retire? {
      RetiresDefinition(compile, ws, ss, i, job);
    } else {
      HoldSettlesAt(compile, ws, ss, i);
      SettledWaits(ws[i].db, ws[i + 1].db, a, ss[i].now, job, d);
    }
  }

  /** The next pass of an unedited poller is scheduled no sooner than one computed delay after the previous
      pass ended, however the pass ended and whoever created the next. */
  lemma DelaySeparatesPasses(compile: Tx.Compile, ws: seq<World>, ss: seq<Step>, i: nat, j: nat,
                             job: JobName, d: Definition, a: int, b: int)
    requires Run(compile, ws, ss) && i < j < |ss| && Exclusive(ws[i].db, job) && NoneBeside(ws, ss, i, j, job)
    requires Unedited(ws, i, j, job, d) && d.kind.FixedDelay? && d.enabled && !d.retired
    requires Outstanding(ws[i].db, job, a) && !Outstanding(ws[i + 1].db, job, a) && !ExpiresPass(ws[i].db, ss[i], job)
    requires forall k :: i < k < j ==> !CreatesPass(ws[k].db, ws[k + 1].db, job)
    requires b !in ws[j].db.execs && b in ws[j + 1].db.execs && Tx.IsPass(ws[j + 1].db.execs[b], job)
    ensures ss[i].now + Delay(d) <= ws[j + 1].db.execs[b].scheduledAt
  {
    EndedPassWaits(compile, ws, ss, i, job, a, d);
    ExclusiveAt(compile, ws, ss, i, job);
    WaitLasts(compile, ws, ss, i + 1, j, job, d, ss[i].now + Delay(d));
    CreatedWhenDue(compile, ws, ss, j, job, b);
  }
}
