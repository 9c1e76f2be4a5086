/** What operators and the two clocks do, column by column: jobs made, edited, paused and retired, work asked for,
  cancelled and revived, and the executions the schedules create. */
module Operating {
  import opened Rows
  import opened Schedules
  import opened Protocol
  import opened Preservation
  import opened RowSteps
  import opened Runs
  import opened Claiming
  import opened CronFires
  import Tx = Transactions
  import Windows

  /** A row nobody has touched. */
  function NewRow(key: ExecutionKey, job: JobName, trigger: Trigger, at: Instant, d: Definition): Execution {
    Execution(key := key, job := job, trigger := trigger, scheduledAt := at, availableAt := at, status := Ready,
              attemptNo := 0, recoveryCount := 0, maxAttempts := d.maxAttempts, maxRecoveries := d.maxRecoveries,
              owner := None, dispatchedTo := None, runToken := None, fenceEpoch := 0, leaseUntil := None,
              deadlineAt := None, timeoutAt := None, startedAt := None, finishedAt := None, reason := None)
  }

  predicate SomeRow(db: Db, key: ExecutionKey) {
    exists id :: id in db.execs && db.execs[id].key == key
  }

  /** A row asked for by hand is waiting; the clocks give it precedence. */
  predicate ReadyByHand(db: Db, job: JobName) {
    exists id :: id in db.execs && db.execs[id].job == job && db.execs[id].trigger == ByHand
                 && db.execs[id].status == Ready
  }

  // ----- jobs ----------------------------------------------------------------------------

  predicate CreatedAs(db: Db, db': Db, job: JobName, d: Definition, nextFire: Instant, now: Instant) {
    if job !in db.defs && job !in db.states && ValidDefinition(d) then
      && db'.execs == db.execs && db'.attempts == db.attempts
      && db'.defs == db.defs[job := d.(retired := false, version := 1)]
      && db'.states == db.states[job := StateRow(
           nextFireAt := if d.enabled && d.kind == CronKind then Some(nextFire) else None,
           nextPollAt := if d.enabled && d.kind == FixedDelay then Some(now) else None,
           paused := false, active := Free, fenceEpoch := 0, configVersion := 1,
           lastSuccessAt := None, lastFailureAt := None)]
    else db' == db
  }

  predicate EditedAs(db: Db, db': Db, job: JobName, d: Definition, seen: int) {
    if job in db.defs && db.defs[job].version == seen && ValidDefinition(d) then
      db' == db.(defs := db.defs[job := d.(retired := db.defs[job].retired, version := db.defs[job].version + 1)])
    else db' == db
  }

  predicate PausedAs(db: Db, db': Db, job: JobName, paused: bool) {
    if job in db.states then db' == db.(states := db.states[job := db.states[job].(paused := paused)]) else db' == db
  }

  /** Of a retired job, work that waits is cancelled and work that was started is asked to stop. */
  predicate RetiredAs(db: Db, db': Db, job: JobName, now: Instant) {
    if job in db.states && job in db.defs && !db.defs[job].retired then
      var d := db.defs[job];
      && db'.states == db.states && db'.attempts == db.attempts
      && db'.defs == db.defs[job := d.(retired := true, enabled := false, version := d.version + 1)]
      && db'.execs.Keys == db.execs.Keys
      && (forall id :: id in db.execs ==>
            var e := db.execs[id];
            db'.execs[id] ==
              if e.job == job && e.status == Ready then
                e.(status := Cancelled, reason := Some(ReasonRetired), finishedAt := Some(now))
              else if e.job == job && (e.status == Dispatching || e.status == Running) then
                e.(status := CancelRequested)
              else e)
    else db' == db
  }

  // ----- executions ----------------------------------------------------------------------

  predicate TriggeredAs(db: Db, db': Db, id: int, job: JobName, request: int, now: Instant) {
    if && job in db.states && job in db.defs && !db.defs[job].retired
       && (forall b :: b in db.execs && db.execs[b].key.ManualKey? ==> db.execs[b].key.request != request)
    then OnlyRow(db, db', id, NewRow(ManualKey(job, request), job, ByHand, now, db.defs[job]))
    else db' == db
  }

  predicate CancelledAs(db: Db, db': Db, id: int) {
    if id in db.execs && (db.execs[id].status == Dispatching || db.execs[id].status == Running) then
      OnlyRow(db, db', id, db.execs[id].(status := CancelRequested))
    else db' == db
  }

  predicate RevivedAs(db: Db, db': Db, id: int, now: Instant) {
    if && id in db.execs && db.execs[id].status == Dead && db.execs[id].job in db.states
       && db.execs[id].job in db.defs && !db.defs[db.execs[id].job].retired
    then
      var e := db.execs[id];
      OnlyRow(db, db', id, e.(status := Ready, maxAttempts := e.attemptNo + 1, availableAt := now, reason := None,
                              finishedAt := None, timeoutAt := None))
    else db' == db
  }

  // ----- the clocks ----------------------------------------------------------------------

  predicate PassAround(db: Db, job: JobName) {
    exists id :: id in db.execs && db.execs[id].job == job && db.execs[id].trigger == ByPoll
                 && db.execs[id].status != Success && db.execs[id].status != Dead
                 && db.execs[id].status != Cancelled && db.execs[id].status != Skipped
  }

  /** Both clocks follow the definition: a cron job's stands on its next fire from now on, a poller's stays where it
      is, or waits for the pass that is around, or starts at once; nothing runs of a job that is off. */
  predicate RecomputedAs(db: Db, db': Db, compile: Tx.Compile, job: JobName, now: Instant) {
    if job in db.states && job in db.defs then
      var st, d := db.states[job], db.defs[job];
      var on := d.enabled && !d.retired;
      db' == db.(states := db.states[job := st.(
        configVersion := d.version,
        nextFireAt := if on && d.kind == CronKind then Some(compile(d.expr).next(now - 1)) else None,
        nextPollAt := if on && d.kind == FixedDelay then
                        if st.nextPollAt.Some? then st.nextPollAt
                        else if PassAround(db, job) then None
                        else Some(now)
                      else None)])
    else db' == db
  }

  predicate Dated(db: Db, job: JobName, kind: ScheduleKind)
    requires job in db.states && job in db.defs
  {
    && db.defs[job].kind == kind && db.defs[job].enabled && !db.defs[job].retired
    && db.states[job].configVersion == db.defs[job].version
  }

  /** A pass is created exactly when the poller is in date and due and nothing by hand waits, and its clock is
      cleared with it; a poller out of date is recomputed. */
  predicate PolledAs(db: Db, db': Db, compile: Tx.Compile, id: int, job: JobName, pass: int, now: Instant) {
    if job !in db.states || job !in db.defs || db.states[job].nextPollAt.None? || now < db.states[job].nextPollAt.value
    then db' == db
    else if !Dated(db, job, FixedDelay) then RecomputedAs(db, db', compile, job, now)
    else if ReadyByHand(db, job) || SomeRow(db, PollKey(job, pass)) then db' == db
    else
      && db'.defs == db.defs && db'.attempts == db.attempts
      && db'.states == db.states[job := db.states[job].(nextPollAt := None)]
      && db'.execs == db.execs[id := NewRow(PollKey(job, pass), job, ByPoll, now, db.defs[job])]
  }

  /** The clock of the job moves, and a row is created for the fire given unless it has one. */
  predicate FiredAs(db: Db, db': Db, id: int, job: JobName, fire: Option<Instant>, clock: Instant)
    requires job in db.states && job in db.defs
  {
    && db'.defs == db.defs && db'.attempts == db.attempts
    && db'.states == db.states[job := db.states[job].(nextFireAt := Some(clock))]
    && db'.execs == if fire.Some? && !SomeRow(db, CronKey(job, fire.value)) then
                      db.execs[id := NewRow(CronKey(job, fire.value), job, ByCron, fire.value, db.defs[job])]
                    else db.execs
  }

  /** The latest fire that was missed, no older than a year and a day. */
  ghost predicate LastMissed(s: Schedule, onTimeFrom: Instant, f: Instant) {
    && Fire(s, f) && onTimeFrom - 1 - 366 * 86400 * 1_000_000_000 <= f < onTimeFrom
    && (forall g :: Fire(s, g) && g < onTimeFrom ==> g <= f)
  }

  /** One pass over a ticking job: nothing before it is due or while work by hand waits; on time, its fire and no
      other; late, nothing under SKIP, and under FIRE_ONCE the latest one missed. */
  ghost predicate TickedAs(s: Schedule, db: Db, db': Db, id: int, job: JobName, grace: int, now: Instant)
    requires job in db.states && job in db.defs && db.states[job].nextFireAt.Some?
  {
    var due, from := db.states[job].nextFireAt.value, now - grace;
    if ReadyByHand(db, job) || now < due then db' == db
    else if from <= due then FiredAs(db, db', id, job, Some(due), s.next(due))
    else if db.defs[job].misfire == SkipMissed then FiredAs(db, db', id, job, None, s.next(now))
    else
      || (exists f :: LastMissed(s, from, f) && FiredAs(db, db', id, job, Some(f), s.next(f)))
      || ((forall f :: !LastMissed(s, from, f)) && FiredAs(db, db', id, job, None, s.next(due)))
  }

  lemma LatestMissed(s: Schedule, from: Instant)
    requires Exact(s)
    ensures var l := Tx.LatestFire(s, from - 1, Tx.MISFIRE_HORIZON);
            if l.Some? then LastMissed(s, from, l.value) else forall f :: !LastMissed(s, from, f)
  {
    var at, lo := from - 1, from - 1 - Tx.MISFIRE_HORIZON - 1;
    Windows.LookupIsEnumeration(s, at, Tx.MISFIRE_HORIZON);
    NextIsFire(s, lo);
    if s.next(lo) <= at {
      forall g | Fire(s, g) && g <= at
        ensures g <= LastFrom(s, s.next(lo), at)
      {
        if s.next(lo) <= g { LastFromIsGreatest(s, s.next(lo), at, g); }
      }
    } else {
      forall f | Fire(s, f) && lo < f <= at
        ensures false
      {
        NextIsLeast(s, lo, f);
      }
    }
  }

  lemma FiringMoves(compile: Tx.Compile, db: Db, id: int, job: JobName, grace: int, now: Instant,
                    fire: Option<Instant>, anchor: Instant)
    requires Tx.Forward(compile) && Tx.InDate(db, job, CronKind) && db.states[job].nextFireAt.Some?
    requires !ReadyByHand(db, job) && db.states[job].nextFireAt.value <= now
    requires (fire, anchor) == Tx.Firing(compile(db.defs[job].expr), db.defs[job].misfire,
                                         db.states[job].nextFireAt.value, now - grace, now)
    ensures FiredAs(db, Tx.After(db, Tx.MaterializeCron(db, compile, id, job, grace, now)), id, job, fire,
                    compile(db.defs[job].expr).next(anchor))
  {
    assert !Tx.ManualPending(db, job);
    assert fire.Some? ==> (Tx.KeyTaken(db, CronKey(job, fire.value)) <==> SomeRow(db, CronKey(job, fire.value)));
  }

  lemma TickEffect(compile: Tx.Compile, db: Db, id: int, job: JobName, d: Definition, grace: int, now: Instant)
    requires Tx.Forward(compile) && Exact(compile(d.expr)) && Ticking(compile, db, job, d)
    ensures TickedAs(compile(d.expr), db, Tx.After(db, Tx.MaterializeCron(db, compile, id, job, grace, now)),
                     id, job, grace, now)
  {
    var s, due, from := compile(d.expr), Clocked(db, job), now - grace;
    if ReadyByHand(db, job) || now < due {
      assert ReadyByHand(db, job) ==> Tx.ManualPending(db, job);
      PassWaits(compile, db, id, job, grace, now);
    } else {
      MissedIffOld(s, due, from);
      LatestMissed(s, from);
      var r := Tx.Firing(s, d.misfire, due, from, now);
      FiringMoves(compile, db, id, job, grace, now, r.0, r.1);
    }
  }

  /** A materialization of a ticking job, in a run. */
  lemma TickLaw(compile: Tx.Compile, ws: seq<World>, ss: seq<Step>, k: nat, d: Definition)
    requires Run(compile, ws, ss) && k < |ss| && ss[k].op.MaterializeCron?
    requires Exact(compile(d.expr)) && Ticking(compile, ws[k].db, ss[k].op.job, d)
    ensures TickedAs(compile(d.expr), ws[k].db, ws[k + 1].db, ss[k].op.id, ss[k].op.job, ss[k].op.grace, ss[k].now)
  {
    assert Follows(compile, ws, ss, k);
    TickEffect(compile, ws[k].db, ss[k].op.id, ss[k].op.job, d, ss[k].op.grace, ss[k].now);
  }

  /** A job out of date is recomputed instead, and one without a clock is left alone. */
  predicate UntickedAs(db: Db, db': Db, compile: Tx.Compile, job: JobName, now: Instant) {
    if job !in db.states || job !in db.defs then db' == db
    else if !Dated(db, job, CronKind) then RecomputedAs(db, db', compile, job, now)
    else db.states[job].nextFireAt.None? ==> db' == db
  }

  lemma UntickedLaw(compile: Tx.Compile, ws: seq<World>, ss: seq<Step>, k: nat)
    requires Run(compile, ws, ss) && k < |ss| && ss[k].op.MaterializeCron?
    ensures UntickedAs(ws[k].db, ws[k + 1].db, compile, ss[k].op.job, ss[k].now)
  {
    assert Follows(compile, ws, ss, k);
    var db, job := ws[k].db, ss[k].op.job;
    if job in db.states && job in db.defs && !Dated(db, job, CronKind) {
      RecomputeEffect(db, compile, job, ss[k].now);
    }
  }

  // ----- over runs -----------------------------------------------------------------------

  lemma RecomputeEffect(db: Db, compile: Tx.Compile, job: JobName, now: Instant)
    requires job in db.states && job in db.defs
    ensures RecomputedAs(db, Tx.NormalizeClocks(db, compile, job, now), compile, job, now)
  {
    assert Tx.PassOutstanding(db, job) <==> PassAround(db, job);
  }

  lemma PollEffect(db: Db, compile: Tx.Compile, id: int, job: JobName, pass: int, now: Instant)
    ensures PolledAs(db, Tx.After(db, Tx.MaterializePoll(db, compile, id, job, pass, now)), compile, id, job, pass, now)
  {
    assert Tx.ManualPending(db, job) <==> ReadyByHand(db, job);
    assert Tx.KeyTaken(db, PollKey(job, pass)) <==> SomeRow(db, PollKey(job, pass));
    if job in db.states && job in db.defs { RecomputeEffect(db, compile, job, now); }
  }

  lemma TriggerEffect(w: World, id: int, job: JobName, request: int, now: Instant)
    requires Inv(w)
    ensures TriggeredAs(w.db, Tx.After(w.db, Tx.TriggerRun(w.db, id, job, request, now)), id, job, request, now)
  {
    forall b | b in w.db.execs && w.db.execs[b].key == ManualKey(job, request)
      ensures w.db.execs[b].key.ManualKey? && w.db.execs[b].key.request == request
    {
    }
  }

  lemma RetireEffect(db: Db, job: JobName, now: Instant)
    ensures RetiredAs(db, Tx.After(db, Tx.Retire(db, job, now)), job, now)
  {
  }

  predicate OfOperator(op: Op) {
    || op.CreateJob? || op.UpdateJob? || op.SetPaused? || op.Retire? || op.TriggerRun? || op.RequestCancel?
    || op.AuthorizedRetry? || op.Recompute? || op.MaterializePoll?
  }

  /** Everything such a step does to the tables. */
  predicate OperatorEffect(compile: Tx.Compile, s: Step, db: Db, db': Db)
    requires OfOperator(s.op)
  {
    match s.op
    case CreateJob(job, d, fire) => CreatedAs(db, db', job, d, fire, s.now)
    case UpdateJob(job, d, seen) => EditedAs(db, db', job, d, seen)
    case SetPaused(job, paused) => PausedAs(db, db', job, paused)
    case Retire(job) => RetiredAs(db, db', job, s.now)
    case TriggerRun(id, job, request) => TriggeredAs(db, db', id, job, request, s.now)
    case RequestCancel(id) => CancelledAs(db, db', id)
    case AuthorizedRetry(id) => RevivedAs(db, db', id, s.now)
    case Recompute(job) => RecomputedAs(db, db', compile, job, s.now)
    case MaterializePoll(id, job, pass) => PolledAs(db, db', compile, id, job, pass, s.now)
  }

  lemma RowTables(compile: Tx.Compile, w: World, s: Step)
    requires Tx.Forward(compile) && Inv(w) && (s.op.TriggerRun? || s.op.Retire?)
    ensures OperatorEffect(compile, s, w.db, Tables(compile, w.db, s))
  {
    match s.op
    case TriggerRun(id, job, request) => TriggerEffect(w, id, job, request, s.now);
    case Retire(job) => RetireEffect(w.db, job, s.now);
  }

  lemma ClockTables(compile: Tx.Compile, db: Db, s: Step)
    requires Tx.Forward(compile) && (s.op.Recompute? || s.op.MaterializePoll?)
    ensures OperatorEffect(compile, s, db, Tables(compile, db, s))
  {
    match s.op
    case Recompute(job) =>
      if job in db.states && job in db.defs { RecomputeEffect(db, compile, job, s.now); }
    case MaterializePoll(id, job, pass) => PollEffect(db, compile, id, job, pass, s.now);
  }

  lemma PlainTables(compile: Tx.Compile, db: Db, s: Step)
    requires Tx.Forward(compile)
    requires s.op.CreateJob? || s.op.UpdateJob? || s.op.SetPaused? || s.op.RequestCancel? || s.op.AuthorizedRetry?
    ensures OperatorEffect(compile, s, db, Tables(compile, db, s))
  {
  }

  /** A step of an operator or of a clock, in a run: it has its effect under its condition, and otherwise none. */
  lemma OperatorLaw(compile: Tx.Compile, ws: seq<World>, ss: seq<Step>, k: nat)
    requires Run(compile, ws, ss) && k < |ss| && OfOperator(ss[k].op)
    ensures OperatorEffect(compile, ss[k], ws[k].db, ws[k + 1].db)
  {
    Reachable(compile, ws, ss, k);
    assert Follows(compile, ws, ss, k);
    var op := ss[k].op;
    if op.TriggerRun? || op.Retire? {
      RowTables(compile, ws[k], ss[k]);
    } else if op.Recompute? || op.MaterializePoll? {
      ClockTables(compile, ws[k].db, ss[k]);
    } else {
      PlainTables(compile, ws[k].db, ss[k]);
    }
  }
}
