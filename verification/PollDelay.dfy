/** The delay a fixed-delay job declares and the delay it gets. They are the same up to a bound on the
  milliseconds; past it the product wraps, and a poller may run flat out. */
module PollDelay {
  import opened Rows
  import opened Machine
  import opened Schedules
  import opened Protocol
  import opened RowSteps
  import opened Runs
  import opened PollLoop
  import opened PollPace
  import Tx = Transactions

  /** The greatest number of milliseconds whose nanoseconds are still a word. */
  const MAX_MS: int := 9_223_372_036_854

  const DAY_MS: int := 86_400_000

  function Declared(d: Definition): Instant {
    d.delayMs * MILLISECOND
  }

  predicate Poller(d: Definition) {
    ValidDefinition(d) && d.kind.FixedDelay? && d.enabled
  }

  /** What the operator API also asks of a poller: a lease no longer than its timeout, and a delay of at most
      a day, as computed. */
  predicate Admitted(d: Definition) {
    Poller(d) && d.lease <= d.timeout && Delay(d) <= DAY_MS * MILLISECOND
  }

  /** The computed delay is the declared one exactly up to the bound, and shorter beyond it. */
  lemma DelayIsDeclaredIff(d: Definition)
    requires Poller(d)
    ensures Delay(d) == Declared(d) <==> d.delayMs <= MAX_MS
    ensures Delay(d) <= Declared(d)
  {
  }

  /** Of the definitions the operator API admits, those of at most a day get their delay, and no others: to
      declare more is admitted only when the product wraps. */
  lemma AdmittedDelayIsDeclaredIff(d: Definition)
    requires Admitted(d)
    ensures Delay(d) == Declared(d) <==> d.delayMs <= DAY_MS
  {
    DelayIsDeclaredIff(d);
  }

  /** A pass that ends restarts the clock the declared delay later, exactly up to the bound. */
  lemma RestartsAsDeclaredIff(compile: Tx.Compile, ws: seq<World>, ss: seq<Step>, i: nat, job: JobName, a: int,
                              d: Definition)
    requires Run(compile, ws, ss) && i < |ss|
    requires Outstanding(ws[i].db, job, a) && !Outstanding(ws[i + 1].db, job, a) && !ExpiresPass(ws[i].db, ss[i], job)
    requires Unedited(ws, i, i + 1, job, d) && Poller(d) && !d.retired
    ensures Waiting(ws[i + 1].db, job, d, ss[i].now + Declared(d)) <==> d.delayMs <= MAX_MS
  {
    EndedPassWaits(compile, ws, ss, i, job, a, d);
    DelayIsDeclaredIff(d);
  }

  /** FIXED_DELAY keeps its promise up to the bound: the next pass is scheduled no sooner than the declared
      delay after the previous one ended. */
  lemma DeclaredDelaySeparates(compile: Tx.Compile, ws: seq<World>, ss: seq<Step>, i: nat, j: nat,
                               job: JobName, d: Definition, a: int, b: int)
    requires Run(compile, ws, ss) && i < j < |ss| && Exclusive(ws[i].db, job) && NoneBeside(ws, ss, i, j, job)
    requires Unedited(ws, i, j, job, d) && Poller(d) && !d.retired && d.delayMs <= MAX_MS
    requires Outstanding(ws[i].db, job, a) && !Outstanding(ws[i + 1].db, job, a) && !ExpiresPass(ws[i].db, ss[i], job)
    requires forall k :: i < k < j ==> !CreatesPass(ws[k].db, ws[k + 1].db, job)
    requires b !in ws[j].db.execs && b in ws[j + 1].db.execs && Tx.IsPass(ws[j + 1].db.execs[b], job)
    ensures ss[i].now + Declared(d) <= ws[j + 1].db.execs[b].scheduledAt
  {
    DelaySeparatesPasses(compile, ws, ss, i, j, job, d, a, b);
    DelayIsDeclaredIff(d);
  }

  // ----- beyond the bound ----------------------------------------------------------------

  const NOTHING := Db(map[], map[], map[], map[])
  const CLAIM := Tx.ClaimParams(1, 1, PollKey(1, 1), 1, None, 1, 1)
  const SUCCEEDED :=
    Complete(Holder(1, 1, PollKey(1, 1), 1, 1, 1), Tx.Outcome(Success, HandlerConfirmed, AttemptSuccess, None))

  function AsCreated(d: Definition): Definition {
    d.(retired := false, version := 1)
  }

  /** A lone idle poller, its next pass due at `due` or running. */
  function Idle(due: Option<Instant>): StateRow {
    StateRow(None, due, false, Free, 0, 1, None, None)
  }

  function FirstPass(d: Definition): Execution {
    Tx.NewExecution(PollKey(1, 1), 1, ByPoll, 0, AsCreated(d))
  }

  lemma CreatedPoller(compile: Tx.Compile, d: Definition)
    requires Tx.Forward(compile) && Poller(d)
    ensures Tables(compile, NOTHING, Step(CreateJob(1, d, 0), 0, 0))
            == Db(map[1 := AsCreated(d)], map[1 := Idle(Some(0))], map[], map[])
  {
  }

  lemma CreatedPass(compile: Tx.Compile, d: Definition)
    requires Tx.Forward(compile) && Poller(d)
    ensures Tables(compile, Db(map[1 := AsCreated(d)], map[1 := Idle(Some(0))], map[], map[]),
                   Step(MaterializePoll(1, 1, 1), 0, 0))
            == Db(map[1 := AsCreated(d)], map[1 := Idle(None)], map[1 := FirstPass(d)], map[])
  {
    var db := Db(map[1 := AsCreated(d)], map[1 := Idle(Some(0))], map[], map[]);
    assert Tx.MaterializePoll(db, compile, 1, 1, 1, 0).db.states == map[1 := Idle(None)];
  }

  /** The first pass of the poller is being dispatched under token 1. */
  predicate Dispatched(db: Db, d: Definition) {
    && db.defs == map[1 := AsCreated(d)] && db.states.Keys == {1} && HoldsJob(db, 1, 1, 1)
    && db.states[1].configVersion == 1
    && db.execs.Keys == {1} && DispatchingUnder(db, 1, 1, 1) && Tx.IsPass(db.execs[1], 1)
    && db.execs[1].key == PollKey(1, 1)
    && !PastCap(db.execs[1], 0)
  }

  lemma ClaimedIt(compile: Tx.Compile, d: Definition)
    requires Tx.Forward(compile) && Poller(d)
    ensures Dispatched(Tables(compile, Db(map[1 := AsCreated(d)], map[1 := Idle(None)], map[1 := FirstPass(d)], map[]),
                              Step(Claim(CLAIM, true), 0, 0)), d)
  {
  }

  /** The first pass is over and the clock restarted. */
  predicate Over(db: Db, d: Definition) {
    && db.defs == map[1 := AsCreated(d)] && db.states.Keys == {1} && db.states[1].nextPollAt == Some(Delay(d))
    && db.states[1].configVersion == 1
    && db.execs.Keys == {1} && db.execs[1].status.Success? && Tx.IsPass(db.execs[1], 1)
    && db.execs[1].key == PollKey(1, 1)
  }

  lemma SucceededIt(compile: Tx.Compile, db: Db, d: Definition)
    requires Tx.Forward(compile) && Poller(d) && Dispatched(db, d)
    ensures Over(Tables(compile, db, Step(SUCCEEDED, 0, 0)), d)
  {
  }

  lemma SecondPass(compile: Tx.Compile, db: Db, d: Definition, t: Instant)
    requires Tx.Forward(compile) && Poller(d) && Over(db, d) && Delay(d) <= t
    ensures var db' := Tables(compile, db, Step(MaterializePoll(2, 1, 2), t, 0));
            db'.defs == db.defs && 2 in db'.execs && Tx.IsPass(db'.execs[2], 1) && db'.execs[2].scheduledAt == t
  {
  }

  /** The first pass, created and claimed. */
  lemma Begun(compile: Tx.Compile, d: Definition) returns (ws: seq<World>, ss: seq<Step>)
    requires Tx.Forward(compile) && Poller(d)
    ensures Run(compile, ws, ss) && |ss| == 3 && Unedited(ws, 1, 3, 1, AsCreated(d))
    ensures Dispatched(ws[3].db, d) && ws[3].clock == 0
  {
    CreatedPoller(compile, d);
    CreatedPass(compile, d);
    ClaimedIt(compile, d);
    ws, ss := [World(NOTHING, {}, 0)], [];
    ws, ss := Extend(compile, ws, ss, Step(CreateJob(1, d, 0), 0, 0));
    ws, ss := Extend(compile, ws, ss, Step(MaterializePoll(1, 1, 1), 0, 0));
    ws, ss := Extend(compile, ws, ss, Step(Claim(CLAIM, true), 0, 0));
  }

  lemma Ended(compile: Tx.Compile, d: Definition) returns (ws: seq<World>, ss: seq<Step>)
    requires Tx.Forward(compile) && Poller(d)
    ensures Run(compile, ws, ss) && |ss| == 4 && Unedited(ws, 1, 4, 1, AsCreated(d)) && ss[3] == Step(SUCCEEDED, 0, 0)
    ensures Dispatched(ws[3].db, d) && Over(ws[4].db, d) && ws[4].clock == 0
  {
    ws, ss := Begun(compile, d);
    SucceededIt(compile, ws[3].db, d);
    ws, ss := Extend(compile, ws, ss, Step(SUCCEEDED, 0, 0));
  }

  /** The bound is exact: every poller beyond it has a run in which its second pass is scheduled sooner after
      the end of the first than the definition declares; at the very instant the first ends, if the product is
      not positive. */
  lemma WrappedDelayIsShort(compile: Tx.Compile, d: Definition) returns (ws: seq<World>, ss: seq<Step>)
    requires Tx.Forward(compile) && Poller(d) && MAX_MS < d.delayMs
    ensures Run(compile, ws, ss) && |ss| == 5 && Unedited(ws, 1, 5, 1, AsCreated(d))
    ensures Outstanding(ws[3].db, 1, 1) && !Outstanding(ws[4].db, 1, 1) && !ExpiresPass(ws[3].db, ss[3], 1)
    ensures 2 !in ws[4].db.execs && 2 in ws[5].db.execs && Tx.IsPass(ws[5].db.execs[2], 1)
    ensures ss[3].now <= ws[5].db.execs[2].scheduledAt < ss[3].now + Declared(d)
    ensures Delay(d) <= 0 ==> ws[5].db.execs[2].scheduledAt == ss[3].now
  {
    DelayIsDeclaredIff(d);
    var t := if Delay(d) <= 0 then 0 else Delay(d);
    ws, ss := Ended(compile, d);
    SecondPass(compile, ws[4].db, d, t);
    ws, ss := Extend(compile, ws, ss, Step(MaterializePoll(2, 1, 2), t, 0));
  }

  /** A definition the operator API admits: half a millennium declared, and no pause at all. */
  const FLAT_OUT := Definition(FixedDelay, 0, 18_446_744_073_709, true, false, Queue, SkipMissed, 3, 3, 10, 10, 1)

  lemma FlatOutIsAdmitted()
    ensures Admitted(FLAT_OUT) && Delay(FLAT_OUT) == -551_616 && MAX_MS < FLAT_OUT.delayMs
  {
  }
}
