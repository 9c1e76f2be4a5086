/** Where a ticking row comes from, and a run in which a late recomputation drops one of its fires. */
module CronDrift {
  import opened Rows
  import opened Schedules
  import opened Protocol
  import opened Preservation
  import opened RowSteps
  import opened Runs
  import opened PollPace
  import opened CronFires
  import Tx = Transactions

  /** A new, enabled cron job created with a fire of its expression ticks from that fire. */
  lemma CreatedTicks(compile: Tx.Compile, db: Db, job: JobName, d: Definition, nextFire: Instant, now: Instant)
    requires d.enabled && d.kind.CronKind? && Fire(compile(d.expr), nextFire)
    requires Tx.CreateJob(db, job, d, nextFire, now).Commit?
    ensures var db' := Tx.CreateJob(db, job, d, nextFire, now).db;
            Ticking(compile, db', job, d.(retired := false, version := 1)) && Clocked(db', job) == nextFire
  {
  }

  /** An edit takes the row out of date, and the recomputation that follows makes it tick under the new
      definition. */
  lemma EditedTicks(compile: Tx.Compile, db: Db, job: JobName, d: Definition, seen: int, now: Instant)
    requires job in db.states && job in db.defs && db.states[job].configVersion <= db.defs[job].version
    requires !db.defs[job].retired
    requires Tx.UpdateJob(db, job, d, seen).Commit? && d.enabled && d.kind.CronKind? && Exact(compile(d.expr))
    ensures var db' := Tx.UpdateJob(db, job, d, seen).db;
            && !Tx.InDate(db', job, CronKind)
            && Ticking(compile, Tx.NormalizeClocks(db', compile, job, now), job, db'.defs[job])
  {
    NormalizedTicks(compile, Tx.UpdateJob(db, job, d, seen).db, job, now);
  }

  const HOURLY := Definition(CronKind, 0, 0, true, false, Queue, SkipMissed, 3, 3, 10, 60, 1)

  /** The tables of a lone, idle cron job at version 2. */
  function Edited(clock: Instant): Db {
    Db(map[1 := HOURLY.(version := 2)], map[1 := StateRow(Some(clock), None, false, Free, 0, 2, None, None)], map[],
       map[])
  }

  /** The same before the edit is seen by anybody. */
  function Created(clock: Instant, version: int): Db {
    Db(map[1 := HOURLY.(version := version)], map[1 := StateRow(Some(clock), None, false, Free, 0, 1, None, None)],
       map[], map[])
  }

  lemma CreateStep(compile: Tx.Compile, f: Instant)
    requires Tx.Forward(compile)
    ensures Tables(compile, Db(map[], map[], map[], map[]), Step(CreateJob(1, HOURLY, f), 0, 0)) == Created(f, 1)
  {
    assert Tx.CreateJob(Db(map[], map[], map[], map[]), 1, HOURLY, f, 0).db == Created(f, 1);
  }

  lemma EditStep(compile: Tx.Compile, f: Instant)
    requires Tx.Forward(compile)
    ensures Tables(compile, Created(f, 1), Step(UpdateJob(1, HOURLY, 1), 0, 0)) == Created(f, 2)
  {
    assert Tx.UpdateJob(Created(f, 1), 1, HOURLY, 1).db == Created(f, 2);
  }

  lemma RecomputeStep(compile: Tx.Compile, f: Instant)
    requires Tx.Forward(compile) && f == compile(0).next(-1)
    ensures Tables(compile, Created(f, 2), Step(Recompute(1), 0, 0)) == Edited(f)
  {
    assert Tx.NormalizeClocks(Created(f, 2), compile, 1, 0) == Edited(f);
  }

  lemma EditedRun(compile: Tx.Compile, f: Instant) returns (ws: seq<World>, ss: seq<Step>)
    requires Tx.Forward(compile) && f == compile(0).next(-1)
    ensures Run(compile, ws, ss) && |ss| == 3 && ss[2].op == Recompute(1) && ws[3] == World(Edited(f), {}, 0)
  {
    CreateStep(compile, f);
    EditStep(compile, f);
    RecomputeStep(compile, f);
    ws, ss := [World(Db(map[], map[], map[], map[]), {}, 0)], [];
    ws, ss := Extend(compile, ws, ss, Step(CreateJob(1, HOURLY, f), 0, 0));
    ws, ss := Extend(compile, ws, ss, Step(UpdateJob(1, HOURLY, 1), 0, 0));
    ws, ss := Extend(compile, ws, ss, Step(Recompute(1), 0, 0));
  }

  /** Two instances see one edit. The first recomputes the clock; the second, a nanosecond after the fire the
      clock then stands on, recomputes it again. The fire is a nanosecond late, within any grace, nothing was
      created for it, and the clock is past it. */
  lemma LateRecomputeDropsFire(compile: Tx.Compile) returns (ws: seq<World>, ss: seq<Step>, f: Instant)
    requires Tx.Forward(compile) && Exact(compile(0))
    ensures Run(compile, ws, ss) && |ss| == 4 && ss[2].op == ss[3].op == Recompute(1)
    ensures var d := HOURLY.(version := 2);
            && Ticking(compile, ws[3].db, 1, d) && Clocked(ws[3].db, 1) == f && Fire(compile(0), f)
            && ss[3].now == f + 1
            && Ticking(compile, ws[4].db, 1, d) && f < Clocked(ws[4].db, 1) && !Tx.KeyTaken(ws[4].db, CronKey(1, f))
  {
    f := compile(0).next(-1);
    NextIsFire(compile(0), -1);
    ws, ss := EditedRun(compile, f);
    NormalizedTicks(compile, ws[3].db, 1, f + 1);
    ws, ss := Extend(compile, ws, ss, Step(Recompute(1), f + 1, 0));
  }
}
