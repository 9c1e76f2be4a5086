/** The fixed-delay loop: which steps keep it going, and the one that stops it. */
module PollLoop {
  import opened Rows
  import opened Schedules
  import opened Protocol
  import opened Preservation
  import opened RowSteps
  import opened Runs
  import opened Ownership
  import opened Budgets
  import opened Reports
  import opened Reclaim
  import Tx = Transactions

  /** A poll pass of the job that has not ended. */
  predicate Outstanding(db: Db, job: JobName, id: int) {
    id in db.execs && Tx.IsPass(db.execs[id], job) && !db.execs[id].status.Terminal()
  }

  /** The loop of an enabled, in-date poller is either waiting or running a pass. */
  predicate LoopAlive(db: Db, job: JobName) {
    Tx.InDate(db, job, FixedDelay) ==> db.states[job].nextPollAt.Some? || Tx.PassOutstanding(db, job)
  }

  /** At most one pass, and none while the clock is set. */
  ghost predicate Exclusive(db: Db, job: JobName) {
    && (forall a, b :: Outstanding(db, job, a) && Outstanding(db, job, b) ==> a == b)
    && (job in db.states && db.states[job].nextPollAt.Some? ==> forall a :: !Outstanding(db, job, a))
  }

  // ----- what steps do to the poll clock -------------------------------------------------

  /** No definition and no poll clock moved. */
  predicate ClocksKept(db: Db, db': Db) {
    && db'.defs == db.defs && db'.states.Keys == db.states.Keys
    && (forall job :: job in db.states ==>
          db'.states[job].nextPollAt == db.states[job].nextPollAt
            && db'.states[job].configVersion == db.states[job].configVersion)
  }

  /** Row `id` is a pass of the fixed-delay job that has ended. */
  predicate EndedPass(db: Db, job: JobName, id: int) {
    && id in db.execs && Tx.IsPass(db.execs[id], job) && db.execs[id].status.Terminal()
    && job in db.defs && db.defs[job].kind.FixedDelay?
  }

  /** Only row `id` was rewritten, and the clock of a job restarted exactly if that ended its pass. */
  predicate Settled(db: Db, db': Db, id: int, now: Instant) {
    && db'.defs == db.defs && db'.states.Keys == db.states.Keys
    && id in db.execs && id in db'.execs && db'.execs == db.execs[id := db'.execs[id]]
    && (forall job :: job in db.states ==>
          && db'.states[job].configVersion == db.states[job].configVersion
          && db'.states[job].nextPollAt == if EndedPass(db', job, id) then Some(now + Delay(db.defs[job]))
               else db.states[job].nextPollAt)
  }

  lemma FinishSettles(db: Db, job: JobName, id: int, key: ExecutionKey, token: Token, succeeded: bool,
                      e: Execution, sentTo: Option<Executor>, outcome: AttemptOutcome, now: Instant)
    requires job in db.states && id in db.execs && e.job == job
    ensures var tx := Tx.Finish(db, job, id, key, token, succeeded, e, sentTo, outcome, now);
            tx.Commit? ==> Settled(db, tx.db, id, now)
  {
  }

  /** Every step under a hold either changed nothing relevant or settled the loop. */
  predicate HoldClocks(op: Op, db: Db, db': Db, now: Instant)
    requires HoldOf(op).Some?
  {
    db' == db || if Ends(op) || op.Refuse? then Settled(db, db', TargetOf(op), now) else ClocksKept(db, db')
  }

  lemma EndSettles(compile: Tx.Compile, w: World, s: Step)
    requires Tx.Forward(compile) && Inv(w) && Ends(s.op)
    ensures HoldClocks(s.op, w.db, Tables(compile, w.db, s), s.now)
  {
    var h, db' := HolderOf(s.op), Tables(compile, w.db, s);
    if db' != w.db {
      if h.id !in w.db.execs {
        MissingRow(compile, w.db, s);
      } else {
        var succeeded, e, sentTo, outcome := FinishForm(compile, w.db, s);
        HolderIsRow(w, h.job, h.id, h.token, h.epoch);
        FinishEffect(w.db, h.job, h.id, h.key, h.token, succeeded, e, sentTo, outcome, s.now);
        EndKeepsJob(compile, w, s, e);
        FinishSettles(w.db, h.job, h.id, h.key, h.token, succeeded, e, sentTo, outcome, s.now);
      }
    }
  }

  lemma EndKeepsJob(compile: Tx.Compile, w: World, s: Step, e: Execution)
    requires Tx.Forward(compile) && Inv(w) && Ends(s.op) && HolderOf(s.op).id in w.db.execs
    requires HolderOf(s.op).id in Tables(compile, w.db, s).execs
    requires Tables(compile, w.db, s).execs[HolderOf(s.op).id] == e
    ensures e.job == w.db.execs[HolderOf(s.op).id].job
  {
    if s.op.Complete? || s.op.Retry? {
      ReportMoves(compile, w, s, HolderOf(s.op).id);
    } else if s.op.Resolve? {
      RecoveryMoves(compile, w, s, HolderOf(s.op).id);
    }
  }

  lemma RefuseSettles(w: World, p: Tx.ClaimParams, epoch: int, now: Instant, utc: Clock)
    requires Inv(w)
    ensures var db' := Tx.After(w.db, Tx.Refuse(w.db, p, epoch, now, utc)); db' == w.db || Settled(w.db, db', p.id, now)
  {
  }

  lemma HoldSettles(compile: Tx.Compile, w: World, s: Step)
    requires Tx.Forward(compile) && Inv(w) && HoldOf(s.op).Some?
    ensures HoldClocks(s.op, w.db, Tables(compile, w.db, s), s.now)
  {
    if Ends(s.op) {
      EndSettles(compile, w, s);
    } else if s.op.Refuse? {
      RefuseSettles(w, s.op.p, s.op.epoch, s.now, s.utc);
    }
  }

  lemma SkipSettles(w: World, p: Tx.ClaimParams, served: bool, now: Instant, utc: Clock)
    requires Inv(w)
    requires var tx := Tx.Claim(w.db, p, served, now, utc); tx.Commit? && tx.value.ClaimSkipped?
    ensures Settled(w.db, Tx.Claim(w.db, p, served, now, utc).db, p.id, now)
  {
  }

  lemma AcquireKeepsClocks(db: Db, p: Tx.ClaimParams, served: bool, now: Instant, utc: Clock)
    requires var tx := Tx.Claim(db, p, served, now, utc); tx.Commit? && tx.value.Acquired?
    ensures ClocksKept(db, Tx.Claim(db, p, served, now, utc).db)
  {
  }

  /** A claim settles the loop when it skips an occurrence; expiring one leaves the clock alone. */
  lemma ClaimClocks(w: World, p: Tx.ClaimParams, served: bool, now: Instant, utc: Clock)
    requires Inv(w)
    ensures var tx := Tx.Claim(w.db, p, served, now, utc);
            if tx.Commit? && tx.value.ClaimSkipped? then Settled(w.db, tx.db, p.id, now)
            else ClocksKept(w.db, Tx.After(w.db, tx))
  {
    var tx := Tx.Claim(w.db, p, served, now, utc);
    if tx.Commit? && tx.value.ClaimSkipped? {
      SkipSettles(w, p, served, now, utc);
    } else if tx.Commit? && tx.value.Acquired? {
      AcquireKeepsClocks(w.db, p, served, now, utc);
    }
  }

  // ----- conservation --------------------------------------------------------------------

  /** The claim ends a pass of the job whose runtime cap has elapsed. */
  predicate ExpiresPass(db: Db, s: Step, job: JobName) {
    && s.op.Claim? && s.op.p.id in db.execs
    && Tx.IsPass(db.execs[s.op.p.id], job) && db.execs[s.op.p.id].status.Ready? && PastCap(db.execs[s.op.p.id], s.utc)
  }

  lemma SettledKeepsLoop(db: Db, db': Db, id: int, now: Instant, job: JobName)
    requires Settled(db, db', id, now) && LoopAlive(db, job) && db.states.Keys <= db.defs.Keys
    requires db'.execs[id].job == db.execs[id].job && db'.execs[id].trigger == db.execs[id].trigger
    ensures LoopAlive(db', job)
  {
    if Tx.InDate(db, job, FixedDelay) && db'.states[job].nextPollAt.None? {
      var b :| b in db.execs && Tx.IsPass(db.execs[b], job) && !db.execs[b].status.Terminal();
      assert b in db'.execs && Tx.IsPass(db'.execs[b], job) && !db'.execs[b].status.Terminal();
    }
  }

  lemma KeptKeepsLoop(db: Db, db': Db, job: JobName)
    requires ClocksKept(db, db') && LoopAlive(db, job)
    requires forall b :: Outstanding(db, job, b) ==> Outstanding(db', job, b)
    ensures LoopAlive(db', job)
  {
    if Tx.InDate(db, job, FixedDelay) && db.states[job].nextPollAt.None? {
      var b :| b in db.execs && Tx.IsPass(db.execs[b], job) && !db.execs[b].status.Terminal();
      assert Outstanding(db, job, b);
    }
  }

  lemma MoveKeepsPass(s: Step, id: int, e: Execution, e': Execution)
    requires Moves(s, id, e, e') && !e.status.Terminal() && e'.status.Terminal()
    ensures s.op.Claim? || Ends(s.op) || s.op.Refuse? || s.op.Retire?
    ensures s.op.Claim? ==> e.status.Ready? && s.op.p.id == id && (e'.status.Skipped? || PastCap(e, s.utc))
  {
  }

  lemma HoldKeepsLoop(compile: Tx.Compile, w: World, s: Step, job: JobName)
    requires Tx.Forward(compile) && Inv(w) && Enabled(w, s) && HoldOf(s.op).Some? && LoopAlive(w.db, job)
    ensures LoopAlive(Next(compile, w, s).db, job)
  {
    var db' := Next(compile, w, s).db;
    HoldSettles(compile, w, s);
    if db' != w.db {
      GuardedWrite(compile, w.db, s);
      StepMoves(compile, w, s, TargetOf(s.op));
      if Ends(s.op) || s.op.Refuse? {
        SettledKeepsLoop(w.db, db', TargetOf(s.op), s.now, job);
      } else {
        forall b | Outstanding(w.db, job, b) ensures Outstanding(db', job, b) {
          StepMoves(compile, w, s, b);
          if db'.execs[b].status.Terminal() { MoveKeepsPass(s, b, w.db.execs[b], db'.execs[b]); }
        }
        KeptKeepsLoop(w.db, db', job);
      }
    }
  }

  lemma ClaimKeepsLoop(compile: Tx.Compile, w: World, s: Step, job: JobName)
    requires Tx.Forward(compile) && Inv(w) && Enabled(w, s) && s.op.Claim? && LoopAlive(w.db, job)
    requires !ExpiresPass(w.db, s, job)
    ensures LoopAlive(Next(compile, w, s).db, job)
  {
    var db' := Next(compile, w, s).db;
    var tx := Tx.Claim(w.db, s.op.p, s.op.served, s.now, s.utc);
    ClaimClocks(w, s.op.p, s.op.served, s.now, s.utc);
    if tx.Commit? && tx.value.ClaimSkipped? {
      StepMoves(compile, w, s, s.op.p.id);
      SettledKeepsLoop(w.db, db', s.op.p.id, s.now, job);
    } else {
      forall b | Outstanding(w.db, job, b) ensures Outstanding(db', job, b) {
        StepMoves(compile, w, s, b);
        if db'.execs[b].status.Terminal() {
          MoveKeepsPass(s, b, w.db.execs[b], db'.execs[b]);
          SkipIsSkipped(w.db, s.op.p, s.op.served, s.now, s.utc);
        }
      }
      KeptKeepsLoop(w.db, db', job);
    }
  }

  lemma SkipIsSkipped(db: Db, p: Tx.ClaimParams, served: bool, now: Instant, utc: Clock)
    requires p.id in db.execs && !db.execs[p.id].status.Skipped?
    ensures var tx := Tx.Claim(db, p, served, now, utc);
            tx.Commit? && p.id in tx.db.execs && tx.db.execs[p.id].status.Skipped? ==> tx.value.ClaimSkipped?
  {
  }

  lemma CancelKeepsLoop(db: Db, id: int, job: JobName)
    requires LoopAlive(db, job)
    ensures LoopAlive(Tx.After(db, Tx.RequestCancel(db, id)), job)
  {
    var db' := Tx.After(db, Tx.RequestCancel(db, id));
    forall b | Outstanding(db, job, b) ensures Outstanding(db', job, b) {}
    KeptKeepsLoop(db, db', job);
  }

  lemma PauseKeepsLoop(db: Db, j: JobName, paused: bool, job: JobName)
    requires LoopAlive(db, job)
    ensures LoopAlive(Tx.After(db, Tx.SetPaused(db, j, paused)), job)
  {
    var db' := Tx.After(db, Tx.SetPaused(db, j, paused));
    forall b | Outstanding(db, job, b) ensures Outstanding(db', job, b) {}
    KeptKeepsLoop(db, db', job);
  }

  lemma TriggerKeepsLoop(db: Db, id: int, j: JobName, request: int, now: Instant, job: JobName)
    requires LoopAlive(db, job) && id !in db.execs
    ensures LoopAlive(Tx.After(db, Tx.TriggerRun(db, id, j, request, now)), job)
  {
    var db' := Tx.After(db, Tx.TriggerRun(db, id, j, request, now));
    forall b | Outstanding(db, job, b) ensures Outstanding(db', job, b) {}
    KeptKeepsLoop(db, db', job);
  }

  lemma RevivalKeepsLoop(db: Db, id: int, now: Instant, job: JobName)
    requires LoopAlive(db, job)
    ensures LoopAlive(Tx.After(db, Tx.AuthorizedRetry(db, id, now)), job)
  {
    var db' := Tx.After(db, Tx.AuthorizedRetry(db, id, now));
    forall b | Outstanding(db, job, b) ensures Outstanding(db', job, b) {}
    KeptKeepsLoop(db, db', job);
  }

  lemma PlainKeepsLoop(compile: Tx.Compile, w: World, s: Step, job: JobName)
    requires Tx.Forward(compile) && Inv(w) && Enabled(w, s) && LoopAlive(w.db, job)
    requires s.op.RequestCancel? || s.op.SetPaused? || s.op.TriggerRun? || s.op.AuthorizedRetry?
    ensures LoopAlive(Next(compile, w, s).db, job)
  {
    match s.op
    case RequestCancel(id) => CancelKeepsLoop(w.db, id, job);
    case SetPaused(j, paused) => PauseKeepsLoop(w.db, j, paused, job);
    case TriggerRun(id, j, request) => TriggerKeepsLoop(w.db, id, j, request, s.now, job);
    case AuthorizedRetry(id) => RevivalKeepsLoop(w.db, id, s.now, job);
  }

  /** Definitions changed, executions untouched: an edit takes its job out of date. */
  lemma EditKeepsLoop(compile: Tx.Compile, w: World, s: Step, job: JobName)
    requires Tx.Forward(compile) && Inv(w) && Enabled(w, s) && LoopAlive(w.db, job)
    requires s.op.CreateJob? || s.op.UpdateJob?
    ensures LoopAlive(Next(compile, w, s).db, job)
  {
  }

  lemma RetireKeepsLoop(compile: Tx.Compile, w: World, s: Step, job: JobName)
    requires Tx.Forward(compile) && Inv(w) && Enabled(w, s) && LoopAlive(w.db, job) && s.op.Retire?
    ensures LoopAlive(Next(compile, w, s).db, job)
  {
    var db' := Next(compile, w, s).db;
    if job != s.op.job {
      forall b | Outstanding(w.db, job, b) ensures Outstanding(db', job, b) {}
      if Tx.PassOutstanding(w.db, job) {
        var b :| b in w.db.execs && Tx.IsPass(w.db.execs[b], job) && !w.db.execs[b].status.Terminal();
        assert Outstanding(db', job, b);
      }
    }
  }

  lemma NormalizeKeepsLoop(db: Db, compile: Tx.Compile, j: JobName, now: Instant, job: JobName)
    requires j in db.states && j in db.defs && LoopAlive(db, job)
    ensures LoopAlive(Tx.NormalizeClocks(db, compile, j, now), job)
  {
  }

  lemma CronKeepsLoop(db: Db, compile: Tx.Compile, id: int, j: JobName, grace: int, now: Instant, job: JobName)
    requires Tx.Forward(compile) && LoopAlive(db, job) && id !in db.execs
    ensures LoopAlive(Tx.After(db, Tx.MaterializeCron(db, compile, id, j, grace, now)), job)
  {
    var tx := Tx.MaterializeCron(db, compile, id, j, grace, now);
    var db' := Tx.After(db, tx);
    if j in db.states && j in db.defs && !Tx.InDate(db, j, CronKind) {
      NormalizeKeepsLoop(db, compile, j, now, job);
    } else if Tx.PassOutstanding(db, job) {
      var b :| b in db.execs && Tx.IsPass(db.execs[b], job) && !db.execs[b].status.Terminal();
      assert b in db'.execs && db'.execs[b] == db.execs[b];
    }
  }

  lemma PollKeepsLoop(db: Db, compile: Tx.Compile, id: int, j: JobName, pass: int, now: Instant, job: JobName)
    requires LoopAlive(db, job) && id !in db.execs
    ensures LoopAlive(Tx.After(db, Tx.MaterializePoll(db, compile, id, j, pass, now)), job)
  {
    var tx := Tx.MaterializePoll(db, compile, id, j, pass, now);
    var db' := Tx.After(db, tx);
    if tx.Commit? && tx.value.Nothing? {
      NormalizeKeepsLoop(db, compile, j, now, job);
    } else if tx.Commit? && tx.value.Created? && job == j {
      assert id in db'.execs && Tx.IsPass(db'.execs[id], job) && !db'.execs[id].status.Terminal();
    } else if Tx.PassOutstanding(db, job) {
      var b :| b in db.execs && Tx.IsPass(db.execs[b], job) && !db.execs[b].status.Terminal();
      assert b in db'.execs && db'.execs[b] == db.execs[b];
    }
  }

  /** The claim names the only pass left, past its cap, while no next one is scheduled. */
  ghost predicate LastPassExpires(db: Db, s: Step, job: JobName) {
    && ExpiresPass(db, s, job) && s.op.p.job == job && s.op.p.key == db.execs[s.op.p.id].key
    && job in db.states && db.states[job].nextPollAt.None?
    && (forall b :: Outstanding(db, job, b) ==> b == s.op.p.id)
  }

  lemma ExpiryEffect(db: Db, s: Step, job: JobName)
    requires s.op.Claim? && ExpiresPass(db, s, job)
    ensures var p, tx := s.op.p, Tx.Claim(db, s.op.p, s.op.served, s.now, s.utc);
            if p.job == job && job in db.states && job in db.defs && p.key == db.execs[p.id].key
            then tx.Commit? && tx.db == Tx.PutExec(db, p.id, Tx.Ended(db.execs[p.id], Dead, ReasonTimeout, s.now))
            else Tx.After(db, tx) == db
  {
  }

  /** A claim loses the loop of an enabled, in-date poller exactly when it expires its last pass:
      nothing restarts the clock, since expiry, unlike every other ending, does not settle it. */
  lemma ClaimLosesLoopIff(compile: Tx.Compile, w: World, s: Step, job: JobName)
    requires Tx.Forward(compile) && Inv(w) && Enabled(w, s) && s.op.Claim?
    requires LoopAlive(w.db, job) && Tx.InDate(w.db, job, FixedDelay)
    ensures LoopAlive(Next(compile, w, s).db, job) <==> !LastPassExpires(w.db, s, job)
  {
    var db' := Next(compile, w, s).db;
    if !ExpiresPass(w.db, s, job) {
      ClaimKeepsLoop(compile, w, s, job);
    } else {
      ExpiryEffect(w.db, s, job);
      if LastPassExpires(w.db, s, job) {
        assert !Tx.PassOutstanding(db', job) by {
          assert forall b :: Outstanding(db', job, b) ==> Outstanding(w.db, job, b);
          if Tx.PassOutstanding(db', job) {
            var b :| b in db'.execs && Tx.IsPass(db'.execs[b], job) && !db'.execs[b].status.Terminal();
            assert Outstanding(db', job, b);
          }
        }
      } else if db' != w.db && w.db.states[job].nextPollAt.None? {
        var b :| Outstanding(w.db, job, b) && b != s.op.p.id;
        assert b in db'.execs && Tx.IsPass(db'.execs[b], job) && !db'.execs[b].status.Terminal();
      }
    }
  }

  lemma ExpiryKeepsLoop(compile: Tx.Compile, w: World, s: Step, job: JobName)
    requires Tx.Forward(compile) && Inv(w) && Enabled(w, s) && s.op.Claim?
    requires LoopAlive(w.db, job) && !LastPassExpires(w.db, s, job)
    ensures LoopAlive(Next(compile, w, s).db, job)
  {
    if Tx.InDate(w.db, job, FixedDelay) {
      ClaimLosesLoopIff(compile, w, s, job);
    } else {
      ClaimClocks(w, s.op.p, s.op.served, s.now, s.utc);
    }
  }

  /** Every step but a claim that expires the last pass keeps the loop alive. */
  lemma StepKeepsLoop(compile: Tx.Compile, w: World, s: Step, job: JobName)
    requires Tx.Forward(compile) && Inv(w) && Enabled(w, s) && LoopAlive(w.db, job) && !LastPassExpires(w.db, s, job)
    ensures LoopAlive(Next(compile, w, s).db, job)
  {
    if s.op.Claim? {
      ExpiryKeepsLoop(compile, w, s, job);
    } else if HoldOf(s.op).Some? {
      HoldKeepsLoop(compile, w, s, job);
    } else if s.op.MaterializeCron? {
      CronKeepsLoop(w.db, compile, s.op.id, s.op.job, s.op.grace, s.now, job);
    } else if s.op.MaterializePoll? {
      PollKeepsLoop(w.db, compile, s.op.id, s.op.job, s.op.pass, s.now, job);
    } else if s.op.Recompute? {
      if s.op.job in w.db.states && s.op.job in w.db.defs { NormalizeKeepsLoop(w.db, compile, s.op.job, s.now, job); }
    } else if s.op.Retire? {
      RetireKeepsLoop(compile, w, s, job);
    } else if s.op.CreateJob? || s.op.UpdateJob? {
      EditKeepsLoop(compile, w, s, job);
    } else {
      PlainKeepsLoop(compile, w, s, job);
    }
  }

  lemma LoopAt(compile: Tx.Compile, ws: seq<World>, ss: seq<Step>, k: nat, job: JobName)
    requires Run(compile, ws, ss) && k < |ss| && LoopAlive(ws[k].db, job) && !LastPassExpires(ws[k].db, ss[k], job)
    ensures LoopAlive(ws[k + 1].db, job)
  {
    Reachable(compile, ws, ss, k);
    assert Follows(compile, ws, ss, k);
    StepKeepsLoop(compile, ws[k], ss[k], job);
  }

  /** Poll-loop conservation: in any run in which no claim expires the last pass of the job, the loop of
      an enabled, in-date poller is never lost: its clock is set or a pass is outstanding. */
  lemma {:induction false} LoopConserved(compile: Tx.Compile, ws: seq<World>, ss: seq<Step>, i: nat, job: JobName)
    requires Run(compile, ws, ss) && i < |ws|
    requires forall k :: 0 <= k < i ==> !LastPassExpires(ws[k].db, ss[k], job)
    ensures LoopAlive(ws[i].db, job)
  {
    if i > 0 {
      LoopConserved(compile, ws, ss, i - 1, job);
      LoopAt(compile, ws, ss, i - 1, job);
    }
  }

  // ----- a run that loses it -------------------------------------------------------------

  const LOST_POLLER := Definition(FixedDelay, 0, 1000, true, false, Queue, SkipMissed, 3, 3, 10, 1, 1)
  const LOST_CLAIM := Tx.ClaimParams(1, 1, PollKey(1, 1), 1, None, 1, 1)

  /** Created, materialized, claimed, refused by its executor, and claimed again past its cap. */
  const LOSING_STEPS := [
    Step(CreateJob(1, LOST_POLLER, 0), 0, 0),
    Step(MaterializePoll(1, 1, 1), 0, 0),
    Step(Claim(LOST_CLAIM, true), 0, 0),
    Step(Refuse(LOST_CLAIM, 1), 0, 0),
    Step(Claim(LOST_CLAIM.(token := 2), true), 2 * SECOND, 2)]

  ghost function LosingWorld(compile: Tx.Compile, k: nat): World
    requires Tx.Forward(compile) && k <= |LOSING_STEPS|
  {
    if k == 0 then World(Db(map[], map[], map[], map[]), {}, 0)
    else Next(compile, LosingWorld(compile, k - 1), LOSING_STEPS[k - 1])
  }

  lemma LosingPrefix(compile: Tx.Compile)
    requires Tx.Forward(compile)
    ensures var w := LosingWorld(compile, 2);
            && w.db.defs == map[1 := LOST_POLLER]
            && w.db.states == map[1 := StateRow(None, None, false, Free, 0, 1, None, None)]
            && w.db.execs == map[1 := Tx.NewExecution(PollKey(1, 1), 1, ByPoll, 0, LOST_POLLER)]
            && w.issued == {} && w.clock == 0
    ensures Enabled(LosingWorld(compile, 0), LOSING_STEPS[0]) && Enabled(LosingWorld(compile, 1), LOSING_STEPS[1])
  {
  }

  lemma LosingClaim(compile: Tx.Compile)
    requires Tx.Forward(compile)
    ensures var w := LosingWorld(compile, 3);
            && w.db.defs == map[1 := LOST_POLLER] && w.db.states.Keys == {1} && HoldsJob(w.db, 1, 1, 1)
            && w.db.states[1].nextPollAt.None? && w.db.states[1].configVersion == 1
            && w.db.execs.Keys == {1} && DispatchingUnder(w.db, 1, 1, 1) && w.db.execs[1].timeoutAt == Some(1)
            && Tx.IsPass(w.db.execs[1], 1) && w.db.execs[1].key == PollKey(1, 1)
            && w.issued == {1} && w.clock == 0
    ensures Enabled(LosingWorld(compile, 2), LOSING_STEPS[2])
  {
    LosingPrefix(compile);
    assert LosingWorld(compile, 3) == Next(compile, LosingWorld(compile, 2), LOSING_STEPS[2]);
  }

  lemma LosingRefusal(compile: Tx.Compile)
    requires Tx.Forward(compile)
    ensures var w := LosingWorld(compile, 4);
            && w.db.defs == map[1 := LOST_POLLER] && w.db.states.Keys == {1}
            && w.db.states[1].nextPollAt.None? && w.db.states[1].configVersion == 1
            && w.db.execs.Keys == {1} && w.db.execs[1].status.Ready? && w.db.execs[1].timeoutAt == Some(1)
            && Tx.IsPass(w.db.execs[1], 1) && w.db.execs[1].key == PollKey(1, 1)
            && w.issued == {1} && w.clock == 0
    ensures Enabled(LosingWorld(compile, 3), LOSING_STEPS[3])
  {
    LosingClaim(compile);
    assert LosingWorld(compile, 4) == Next(compile, LosingWorld(compile, 3), LOSING_STEPS[3]);
  }

  lemma ClaimedPass(compile: Tx.Compile) returns (ws: seq<World>, ss: seq<Step>)
    requires Tx.Forward(compile)
    ensures Run(compile, ws, ss) && |ss| == 3 && ws[3] == LosingWorld(compile, 3)
  {
    LosingPrefix(compile);
    LosingClaim(compile);
    ws, ss := [LosingWorld(compile, 0)], [];
    ws, ss := Extend(compile, ws, ss, LOSING_STEPS[0]);
    assert ws[1] == LosingWorld(compile, 1);
    ws, ss := Extend(compile, ws, ss, LOSING_STEPS[1]);
    assert ws[2] == LosingWorld(compile, 2);
    ws, ss := Extend(compile, ws, ss, LOSING_STEPS[2]);
    assert ws[3] == LosingWorld(compile, 3);
  }

  lemma LostAt(compile: Tx.Compile)
    requires Tx.Forward(compile)
    ensures Enabled(LosingWorld(compile, 4), LOSING_STEPS[4])
    ensures !LoopAlive(Next(compile, LosingWorld(compile, 4), LOSING_STEPS[4]).db, 1)
  {
    LosingRefusal(compile);
    var w, s := LosingWorld(compile, 4), LOSING_STEPS[4];
    ExpiryEffect(w.db, s, 1);
    var db' := Next(compile, w, s).db;
    assert db'.execs.Keys == {1} && db'.execs[1].status.Dead?;
  }

  /** A run in which an enabled, in-date poller ends up with no clock and no pass. */
  lemma LoopCanBeLost(compile: Tx.Compile) returns (ws: seq<World>, ss: seq<Step>)
    requires Tx.Forward(compile)
    ensures Run(compile, ws, ss) && |ss| == 5 && !LoopAlive(ws[5].db, 1)
  {
    ws, ss := ClaimedPass(compile);
    LosingRefusal(compile);
    ws, ss := Extend(compile, ws, ss, LOSING_STEPS[3]);
    assert ws[4] == LosingWorld(compile, 4);
    LostAt(compile);
    ws, ss := Extend(compile, ws, ss, LOSING_STEPS[4]);
  }
}
