/** Cron fires over whole runs: none is lost silently, none is early, none runs twice.

  A job ticks while its row is in date with an unedited, enabled cron definition. The fires of
  its expression between two values of its clock are then all accounted for. Only that one expression needs
  an exact schedule; what the other jobs' schedules do does not matter. */
module CronFires {
  import opened Rows
  import opened Schedules
  import opened Protocol
  import opened Preservation
  import opened RowSteps
  import opened Runs
  import opened PollPace
  import Tx = Transactions
  import Windows

  /** The row is in date with the cron definition `d`, and its clock stands on a fire. */
  ghost predicate Ticking(compile: Tx.Compile, db: Db, job: JobName, d: Definition) {
    && Tx.InDate(db, job, CronKind) && db.defs[job] == d
    && db.states[job].nextPollAt.None? && db.states[job].nextFireAt.Some?
    && Fire(compile(d.expr), db.states[job].nextFireAt.value)
  }

  function Clocked(db: Db, job: JobName): Instant {
    if job in db.states && db.states[job].nextFireAt.Some? then db.states[job].nextFireAt.value else 0
  }

  // ----- one materialization -------------------------------------------------------------

  /** Nothing fires between a fire and the next one. */
  lemma NoneBetween(s: Schedule, anchor: int, g: int)
    requires Exact(s) && Fire(s, g) && g < s.next(anchor)
    ensures g <= anchor
  {
    if anchor < g { NextIsLeast(s, anchor, g); }
  }

  /** Due instants before the grace boundary are exactly what makes a pass a misfire. */
  lemma MissedIffOld(s: Schedule, due: int, onTimeFrom: int)
    requires Exact(s) && Fire(s, due)
    ensures 0 < CountFires(s, due - 1, onTimeFrom - 1) <==> due < onTimeFrom
  {
  }

  /** The catch-up instant is the greatest missed fire of the horizon. */
  lemma CatchUp(s: Schedule, due: int, onTimeFrom: int, horizon: int)
    requires Exact(s) && Fire(s, due) && due < onTimeFrom
    ensures var l := Tx.LatestFire(s, onTimeFrom - 1, horizon);
            if l.Some? then Fire(s, l.value) && due <= l.value < onTimeFrom <= s.next(l.value)
            else due < onTimeFrom - 1 - horizon
  {
    Windows.LookupIsEnumeration(s, onTimeFrom - 1, horizon);
    var at := onTimeFrom - 1;
    var first := s.next(at - horizon - 1);
    NextIsFire(s, at - horizon - 1);
    if first <= at {
      LastFromIsGreatest(s, first, at, due);
    } else if at - horizon <= due {
      NextIsLeast(s, at - horizon - 1, due);
    }
  }

  /** Why a fire may be passed over: under SKIP because this pass found a missed fire and it is not in
      the future; under FIRE_ONCE because it is missed and a later missed fire stands in for it, or
      because it is older than the whole catch-up horizon. */
  ghost predicate Excused(s: Schedule, db': Db, job: JobName, misfire: Misfire, due: Instant, f: Instant,
                          onTimeFrom: Instant, now: Instant) {
    match misfire
    case SkipMissed => due < onTimeFrom && f <= now
    case FireOnce =>
      && f < onTimeFrom
      && (|| (exists l :: f < l < onTimeFrom <= s.next(l) && Fire(s, l) && Tx.KeyTaken(db', CronKey(job, l)))
          || f < onTimeFrom - 1 - Tx.MISFIRE_HORIZON)
  }

  lemma FiringAccounts(s: Schedule, misfire: Misfire, due: Instant, onTimeFrom: Instant, now: Instant, f: Instant)
    requires Exact(s) && Fire(s, due) && due <= now && Fire(s, f) && due <= f
    requires f < s.next(Tx.Firing(s, misfire, due, onTimeFrom, now).1)
    ensures Dealt(s, misfire, due, onTimeFrom, now, Tx.Firing(s, misfire, due, onTimeFrom, now).0, f)
  {
    MissedIffOld(s, due, onTimeFrom);
    NoneBetween(s, Tx.Firing(s, misfire, due, onTimeFrom, now).1, f);
    if due < onTimeFrom { CatchUp(s, due, onTimeFrom, Tx.MISFIRE_HORIZON); }
  }

  /** What one pass owes the schedule: its clock moves forwards, to a fire, and each fire it moves past is
      the one it creates, or is excused once an execution for that one exists. */
  ghost predicate Owed(s: Schedule, misfire: Misfire, due: Instant, onTimeFrom: Instant, now: Instant,
                       create: Option<Instant>, anchor: Instant) {
    && due < s.next(anchor) && Fire(s, s.next(anchor))
    && (forall f :: Fire(s, f) && due <= f < s.next(anchor) ==> Dealt(s, misfire, due, onTimeFrom, now, create, f))
  }

  ghost predicate Dealt(s: Schedule, misfire: Misfire, due: Instant, onTimeFrom: Instant, now: Instant,
                        create: Option<Instant>, f: Instant) {
    || create == Some(f)
    || (misfire.SkipMissed? && due < onTimeFrom && f <= now)
    || (misfire.FireOnce? && create.Some? && Fire(s, create.value)
          && f < create.value < onTimeFrom <= s.next(create.value))
    || (misfire.FireOnce? && f < onTimeFrom - 1 - Tx.MISFIRE_HORIZON)
  }

  lemma FiringOwes(s: Schedule, misfire: Misfire, due: Instant, onTimeFrom: Instant, now: Instant)
    requires Exact(s) && Fire(s, due) && due <= now
    ensures var (create, anchor) := Tx.Firing(s, misfire, due, onTimeFrom, now);
            Owed(s, misfire, due, onTimeFrom, now, create, anchor)
  {
    FiringAdvances(s, misfire, due, onTimeFrom, now);
    var (create, anchor) := Tx.Firing(s, misfire, due, onTimeFrom, now);
    NextIsFire(s, anchor);
    forall f | Fire(s, f) && due <= f < s.next(anchor)
      ensures Dealt(s, misfire, due, onTimeFrom, now, create, f)
    {
      FiringAccounts(s, misfire, due, onTimeFrom, now, f);
    }
  }

  /** A pass moves the clock forwards, and what it creates lies between the old clock and now. */
  lemma FiringAdvances(s: Schedule, misfire: Misfire, due: Instant, onTimeFrom: Instant, now: Instant)
    requires Exact(s) && Fire(s, due) && due <= now
    ensures var (create, anchor) := Tx.Firing(s, misfire, due, onTimeFrom, now);
            && due <= anchor
            && (create.Some? ==>
                  Fire(s, create.value) && due <= create.value && (create.value == due || create.value < onTimeFrom))
  {
    MissedIffOld(s, due, onTimeFrom);
    if due < onTimeFrom { CatchUp(s, due, onTimeFrom, Tx.MISFIRE_HORIZON); }
  }

  lemma CreatesOrFinds(db: Db, db': Db, id: int, job: JobName, at: Instant, d: Definition)
    requires id !in db.execs
    requires Tx.KeyTaken(db, CronKey(job, at)) ==> db'.execs == db.execs
    requires !Tx.KeyTaken(db, CronKey(job, at)) ==>
             db'.execs == db.execs[id := Tx.NewExecution(CronKey(job, at), job, ByCron, at, d)]
    ensures Tx.KeyTaken(db', CronKey(job, at))
  {
    if !Tx.KeyTaken(db, CronKey(job, at)) {
      assert db'.execs[id].key == CronKey(job, at);
    }
  }

  /** A pass changes nothing, or moves the clock past its anchor and leaves an execution for what it
      creates. */
  ghost predicate Passed(compile: Tx.Compile, db: Db, db': Db, job: JobName, d: Definition, grace: int, now: Instant) {
    || db' == db
    || (exists create, anchor ::
          && Owed(compile(d.expr), d.misfire, Clocked(db, job), now - grace, now, create, anchor)
          && Moved(db, db', job, compile(d.expr).next(anchor), create))
  }

  predicate Moved(db: Db, db': Db, job: JobName, clock: Instant, create: Option<Instant>) {
    && db'.defs == db.defs && job in db.states && job in db'.states
    && db'.states[job] == db.states[job].(nextFireAt := Some(clock))
    && (create.Some? ==> Tx.KeyTaken(db', CronKey(job, create.value)))
  }

  lemma PassEffect(compile: Tx.Compile, db: Db, id: int, job: JobName, d: Definition, grace: int, now: Instant)
    requires Tx.Forward(compile) && Exact(compile(d.expr)) && Ticking(compile, db, job, d) && id !in db.execs
    ensures Passed(compile, db, Tx.After(db, Tx.MaterializeCron(db, compile, id, job, grace, now)), job, d, grace, now)
  {
    if Tx.ManualPending(db, job) || now < Clocked(db, job) {
      PassWaits(compile, db, id, job, grace, now);
    } else {
      var s := compile(d.expr);
      var create, anchor := PassDecides(s, d.misfire, Clocked(db, job), now - grace, now);
      PassMoves(compile, db, id, job, d, grace, now, create, anchor);
    }
  }

  lemma PassWaits(compile: Tx.Compile, db: Db, id: int, job: JobName, grace: int, now: Instant)
    requires Tx.Forward(compile) && Tx.InDate(db, job, CronKind) && db.states[job].nextFireAt.Some?
    requires Tx.ManualPending(db, job) || now < Clocked(db, job)
    ensures Tx.After(db, Tx.MaterializeCron(db, compile, id, job, grace, now)) == db
  {
  }

  lemma PassDecides(s: Schedule, misfire: Misfire, due: Instant, onTimeFrom: Instant, now: Instant)
      returns (create: Option<Instant>, anchor: Instant)
    requires Exact(s) && Fire(s, due) && due <= now
    ensures (create, anchor) == Tx.Firing(s, misfire, due, onTimeFrom, now)
    ensures Owed(s, misfire, due, onTimeFrom, now, create, anchor)
  {
    FiringOwes(s, misfire, due, onTimeFrom, now);
    create, anchor := Tx.Firing(s, misfire, due, onTimeFrom, now).0, Tx.Firing(s, misfire, due, onTimeFrom, now).1;
  }

  lemma PassMoves(compile: Tx.Compile, db: Db, id: int, job: JobName, d: Definition, grace: int, now: Instant,
                  create: Option<Instant>, anchor: Instant)
    requires Tx.Forward(compile) && Tx.InDate(db, job, CronKind) && db.defs[job] == d && id !in db.execs
    requires db.states[job].nextFireAt.Some? && !Tx.ManualPending(db, job) && Clocked(db, job) <= now
    requires (create, anchor) == Tx.Firing(compile(d.expr), d.misfire, Clocked(db, job), now - grace, now)
    ensures Moved(db, Tx.After(db, Tx.MaterializeCron(db, compile, id, job, grace, now)), job,
                  compile(d.expr).next(anchor), create)
  {
    var db' := Tx.After(db, Tx.MaterializeCron(db, compile, id, job, grace, now));
    if create.Some? { CreatesOrFinds(db, db', id, job, create.value, d); }
  }

  /** What a materialization pass does to a ticking job. */
  lemma PassAccounts(compile: Tx.Compile, db: Db, db': Db, job: JobName, d: Definition, grace: int, now: Instant,
                     f: Instant)
    requires Ticking(compile, db, job, d) && Passed(compile, db, db', job, d, grace, now)
    ensures Ticking(compile, db', job, d) && (db' == db || Clocked(db, job) < Clocked(db', job))
    ensures Fire(compile(d.expr), f) && Clocked(db, job) <= f < Clocked(db', job) ==>
              || Tx.KeyTaken(db', CronKey(job, f))
              || Excused(compile(d.expr), db', job, d.misfire, Clocked(db, job), f, now - grace, now)
  {
  }

  // ----- every other step ----------------------------------------------------------------

  predicate ClockKept(db: Db, db': Db, job: JobName) {
    && job in db.states && job in db'.states
    && db'.states[job].nextFireAt == db.states[job].nextFireAt
    && db'.states[job].nextPollAt == db.states[job].nextPollAt
    && db'.states[job].configVersion == db.states[job].configVersion
  }

  predicate CronJob(db: Db, job: JobName) {
    job in db.states && job in db.defs && db.defs[job].kind.CronKind?
  }

  lemma FinishKeepsClock(db: Db, j: JobName, id: int, key: ExecutionKey, token: Token, succeeded: bool,
                         e: Execution, sentTo: Option<Executor>, outcome: AttemptOutcome, now: Instant, job: JobName)
    requires j in db.states && CronJob(db, job)
    ensures ClockKept(db, Tx.After(db, Tx.Finish(db, j, id, key, token, succeeded, e, sentTo, outcome, now)), job)
  {
  }

  lemma ClaimKeepsClock(db: Db, p: Tx.ClaimParams, served: bool, now: Instant, utc: Clock, job: JobName)
    requires CronJob(db, job)
    ensures ClockKept(db, Tx.After(db, Tx.Claim(db, p, served, now, utc)), job)
  {
  }

  lemma HoldKeepsClock(compile: Tx.Compile, db: Db, s: Step, job: JobName)
    requires Tx.Forward(compile) && CronJob(db, job) && HoldOf(s.op).Some?
    ensures ClockKept(db, Tables(compile, db, s), job)
  {
    if Ends(s.op) && HolderOf(s.op).id !in db.execs {
      MissingRow(compile, db, s);
    } else if Ends(s.op) {
      var succeeded, e, sentTo, outcome := FinishForm(compile, db, s);
      var h := HolderOf(s.op);
      if Tables(compile, db, s) != db {
        FinishKeepsClock(db, h.job, h.id, h.key, h.token, succeeded, e, sentTo, outcome, s.now, job);
      }
    }
  }

  lemma OtherCronKeepsClock(compile: Tx.Compile, db: Db, id: int, j: JobName, grace: int, now: Instant, job: JobName)
    requires Tx.Forward(compile) && j != job && job in db.states
    ensures ClockKept(db, Tx.After(db, Tx.MaterializeCron(db, compile, id, j, grace, now)), job)
  {
  }

  lemma PollKeepsClock(compile: Tx.Compile, db: Db, id: int, j: JobName, pass: int, now: Instant, job: JobName)
    requires job in db.states && (j == job ==> db.states[job].nextPollAt.None?)
    ensures ClockKept(db, Tx.After(db, Tx.MaterializePoll(db, compile, id, j, pass, now)), job)
  {
  }

  /** Nothing but its own materialization or a recomputation moves a ticking job's clock. */
  lemma OthersKeepClock(compile: Tx.Compile, db: Db, s: Step, job: JobName)
    requires Tx.Forward(compile) && CronJob(db, job) && db.states[job].nextPollAt.None?
    requires s.op != Recompute(job) && !(s.op.MaterializeCron? && s.op.job == job)
    ensures ClockKept(db, Tables(compile, db, s), job)
  {
    if s.op.Claim? {
      ClaimKeepsClock(db, s.op.p, s.op.served, s.now, s.utc, job);
    } else if HoldOf(s.op).Some? {
      HoldKeepsClock(compile, db, s, job);
    } else if s.op.MaterializeCron? {
      OtherCronKeepsClock(compile, db, s.op.id, s.op.job, s.op.grace, s.now, job);
    } else if s.op.MaterializePoll? {
      PollKeepsClock(compile, db, s.op.id, s.op.job, s.op.pass, s.now, job);
    }
  }

  // ----- runs ----------------------------------------------------------------------------

  /** Step `k` is a materialization of the job that passed over `f` with an excuse. */
  ghost predicate PassedOver(compile: Tx.Compile, ws: seq<World>, ss: seq<Step>, k: int, job: JobName, d: Definition,
                             f: Instant)
    requires |ws| == |ss| + 1 && 0 <= k < |ss|
  {
    && ss[k].op.MaterializeCron? && ss[k].op.job == job
    && Clocked(ws[k].db, job) <= f < Clocked(ws[k + 1].db, job)
    && Excused(compile(d.expr), ws[k + 1].db, job, d.misfire, Clocked(ws[k].db, job), f, ss[k].now - ss[k].op.grace,
               ss[k].now)
  }

  lemma TickAt(compile: Tx.Compile, ws: seq<World>, ss: seq<Step>, k: nat, job: JobName, d: Definition, f: Instant)
    requires Run(compile, ws, ss) && k < |ss| && Exact(compile(d.expr)) && Ticking(compile, ws[k].db, job, d)
    requires Unedited(ws, k, k + 1, job, d) && ss[k].op != Recompute(job)
    ensures Ticking(compile, ws[k + 1].db, job, d) && Clocked(ws[k].db, job) <= Clocked(ws[k + 1].db, job)
    ensures Fire(compile(d.expr), f) && Clocked(ws[k].db, job) <= f < Clocked(ws[k + 1].db, job) ==>
              Tx.KeyTaken(ws[k + 1].db, CronKey(job, f)) || PassedOver(compile, ws, ss, k, job, d, f)
  {
    if ss[k].op.MaterializeCron? && ss[k].op.job == job {
      CronTickAt(compile, ws, ss, k, job, d, f);
    } else {
      ClockKeptAt(compile, ws, ss, k, job);
    }
  }

  /** A pass over a ticking job changes nothing, or moves its clock strictly forwards past fires it has
      accounted for. */
  lemma CronTickAt(compile: Tx.Compile, ws: seq<World>, ss: seq<Step>, k: nat, job: JobName, d: Definition, f: Instant)
    requires Run(compile, ws, ss) && k < |ss| && Exact(compile(d.expr)) && Ticking(compile, ws[k].db, job, d)
    requires ss[k].op.MaterializeCron? && ss[k].op.job == job
    ensures Ticking(compile, ws[k + 1].db, job, d)
    ensures (ws[k + 1].db == ws[k].db || Clocked(ws[k].db, job) < Clocked(ws[k + 1].db, job))
    ensures Fire(compile(d.expr), f) && Clocked(ws[k].db, job) <= f < Clocked(ws[k + 1].db, job) ==>
              Tx.KeyTaken(ws[k + 1].db, CronKey(job, f)) || PassedOver(compile, ws, ss, k, job, d, f)
  {
    assert Follows(compile, ws, ss, k);
    PassEffect(compile, ws[k].db, ss[k].op.id, job, d, ss[k].op.grace, ss[k].now);
    PassAccounts(compile, ws[k].db, ws[k + 1].db, job, d, ss[k].op.grace, ss[k].now, f);
  }

  lemma ClockKeptAt(compile: Tx.Compile, ws: seq<World>, ss: seq<Step>, k: nat, job: JobName)
    requires Run(compile, ws, ss) && k < |ss| && CronJob(ws[k].db, job) && ws[k].db.states[job].nextPollAt.None?
    requires ss[k].op != Recompute(job) && !(ss[k].op.MaterializeCron? && ss[k].op.job == job)
    ensures ClockKept(ws[k].db, ws[k + 1].db, job)
  {
    assert Follows(compile, ws, ss, k);
    OthersKeepClock(compile, ws[k].db, ss[k], job);
  }

  /** Rows are never deleted, so a key once used stays used. */
  lemma KeyStaysTaken(compile: Tx.Compile, ws: seq<World>, ss: seq<Step>, k: nat, key: ExecutionKey)
    requires Run(compile, ws, ss) && k < |ss| && Tx.KeyTaken(ws[k].db, key)
    ensures Tx.KeyTaken(ws[k + 1].db, key)
  {
    var id :| id in ws[k].db.execs && ws[k].db.execs[id].key == key;
    MovesAt(compile, ws, ss, k, id);
  }

  /** A recomputation made before the clock is due keeps the job ticking, on the same fire or an earlier one
      still to come. */
  lemma HarmlessAt(compile: Tx.Compile, ws: seq<World>, ss: seq<Step>, k: nat, job: JobName, d: Definition)
    requires Run(compile, ws, ss) && k < |ss| && Exact(compile(d.expr)) && Ticking(compile, ws[k].db, job, d)
    requires ss[k].op == Recompute(job) && ss[k].now <= Clocked(ws[k].db, job)
    ensures Ticking(compile, ws[k + 1].db, job, d) && ss[k].now <= Clocked(ws[k + 1].db, job) <= Clocked(ws[k].db, job)
  {
    assert Follows(compile, ws, ss, k);
    NormalizedTicks(compile, ws[k].db, job, ss[k].now);
  }

  /** Every recomputation of the job from world `i` to world `n` is made before its clock is due. */
  predicate Harmless(ws: seq<World>, ss: seq<Step>, i: int, n: int, job: JobName)
    requires |ws| == |ss| + 1 && 0 <= i <= n <= |ss|
  {
    forall k :: i <= k < n && ss[k].op == Recompute(job) ==> ss[k].now <= Clocked(ws[k].db, job)
  }

  /** No fire is lost silently. While a job ticks, every fire its clock has moved past either has its
      execution, or was passed over by a materialization pass that had an excuse for it. */
  lemma {:induction false} NoFireLost(compile: Tx.Compile, ws: seq<World>, ss: seq<Step>, i: nat, n: nat, job: JobName,
                                      d: Definition, f: Instant)
    requires Run(compile, ws, ss) && i <= n < |ws| && Exact(compile(d.expr))
    requires Ticking(compile, ws[i].db, job, d) && Unedited(ws, i, n, job, d) && Harmless(ws, ss, i, n, job)
    ensures Ticking(compile, ws[n].db, job, d)
    ensures Fire(compile(d.expr), f) && Clocked(ws[i].db, job) <= f < Clocked(ws[n].db, job) ==>
              || Tx.KeyTaken(ws[n].db, CronKey(job, f))
              || (exists k :: i <= k < n && PassedOver(compile, ws, ss, k, job, d, f))
    decreases n
  {
    if i < n {
      NoFireLost(compile, ws, ss, i, n - 1, job, d, f);
      if ss[n - 1].op == Recompute(job) {
        HarmlessAt(compile, ws, ss, n - 1, job, d);
      } else {
        TickAt(compile, ws, ss, n - 1, job, d, f);
      }
      if Tx.KeyTaken(ws[n - 1].db, CronKey(job, f)) { KeyStaysTaken(compile, ws, ss, n - 1, CronKey(job, f)); }
    }
  }

  /** Each fire runs once: two executions for one fire of one job are one execution. */
  lemma FireRunsOnce(compile: Tx.Compile, ws: seq<World>, ss: seq<Step>, n: nat, a: int, b: int)
    requires Run(compile, ws, ss) && n < |ws| && a in ws[n].db.execs && b in ws[n].db.execs
    requires ws[n].db.execs[a].trigger.ByCron? && ws[n].db.execs[b].trigger.ByCron?
    requires ws[n].db.execs[a].job == ws[n].db.execs[b].job
    requires ws[n].db.execs[a].scheduledAt == ws[n].db.execs[b].scheduledAt
    ensures a == b
  {
    Reachable(compile, ws, ss, n);
    assert RowOk(ws[n], ws[n].db.execs[a]) && RowOk(ws[n], ws[n].db.execs[b]);
  }

  lemma CreatedWithin(compile: Tx.Compile, db: Db, id: int, job: JobName, d: Definition, grace: int, now: Instant)
    requires Tx.Forward(compile) && Exact(compile(d.expr)) && Ticking(compile, db, job, d) && id !in db.execs
    requires 0 <= grace
    ensures var db' := Tx.After(db, Tx.MaterializeCron(db, compile, id, job, grace, now));
            db'.execs.Keys <= db.execs.Keys + {id}
            && (id in db'.execs ==>
                  && Fire(compile(d.expr), db'.execs[id].scheduledAt)
                  && Clocked(db, job) <= db'.execs[id].scheduledAt <= now)
  {
    var s, due := compile(d.expr), Clocked(db, job);
    if due <= now { FiringAdvances(s, d.misfire, due, now - grace, now); }
  }

  /** No fire is early or replayed: an execution created for a ticking job is for a fire of its
      expression, not before its clock and, with a grace that is not negative, not in the future. */
  lemma CreatedOnTime(compile: Tx.Compile, ws: seq<World>, ss: seq<Step>, k: nat, job: JobName, d: Definition, id: int)
    requires Run(compile, ws, ss) && k < |ss| && Exact(compile(d.expr)) && Ticking(compile, ws[k].db, job, d)
    requires ss[k].op.MaterializeCron? && ss[k].op.job == job && 0 <= ss[k].op.grace
    requires id !in ws[k].db.execs && id in ws[k + 1].db.execs
    ensures var e := ws[k + 1].db.execs[id];
            Fire(compile(d.expr), e.scheduledAt) && Clocked(ws[k].db, job) <= e.scheduledAt <= ss[k].now
  {
    assert Follows(compile, ws, ss, k);
    CreatedWithin(compile, ws[k].db, ss[k].op.id, job, d, ss[k].op.grace, ss[k].now);
  }

  // ----- the recomputation ---------------------------------------------------------------

  /** Normalizing an enabled cron job's row makes it tick, from the first fire not before now. */
  lemma NormalizedTicks(compile: Tx.Compile, db: Db, job: JobName, now: Instant)
    requires CronJob(db, job) && db.defs[job].enabled && !db.defs[job].retired && Exact(compile(db.defs[job].expr))
    ensures var db' := Tx.NormalizeClocks(db, compile, job, now);
            && Ticking(compile, db', job, db.defs[job]) && now <= Clocked(db', job)
            && (forall f :: Fire(compile(db.defs[job].expr), f) && now <= f ==> Clocked(db', job) <= f)
  {
    var s := compile(db.defs[job].expr);
    NextIsFire(s, now - 1);
    forall f | Fire(s, f) && now <= f
      ensures s.next(now - 1) <= f
    {
      NextIsLeast(s, now - 1, f);
    }
  }

  /** A recomputation of a row that already ticks, which a drift scan overtaken by another instance's
      recomputation makes, drops a fire, on time or not, exactly when the clock is already due. */
  lemma StaleRecomputeDropsIff(compile: Tx.Compile, db: Db, job: JobName, d: Definition, now: Instant)
    requires Exact(compile(d.expr)) && Ticking(compile, db, job, d)
    ensures (exists f :: && Fire(compile(d.expr), f)
                         && Clocked(db, job) <= f < Clocked(Tx.After(db, Tx.Recompute(db, compile, job, now)), job))
            <==> Clocked(db, job) < now
  {
    var s := compile(d.expr);
    var db' := Tx.After(db, Tx.Recompute(db, compile, job, now));
    NormalizedTicks(compile, db, job, now);
    assert Fire(s, Clocked(db, job));
    if now <= Clocked(db, job) {
      assert Clocked(db', job) <= Clocked(db, job);
    }
  }
}
