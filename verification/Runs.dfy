/** Runs seen step by step: what the automaton, the guards and the clocks say about step `k`,
  without unfolding the transaction that was made. */
module Runs {
  import opened Rows
  import opened Schedules
  import opened Protocol
  import opened Preservation
  import opened RowSteps
  import Tx = Transactions

  /** The invariant holds in every world of every run. */
  lemma {:induction false} Reachable(compile: Tx.Compile, ws: seq<World>, ss: seq<Step>, i: nat)
    requires Run(compile, ws, ss) && i < |ws|
    ensures Inv(ws[i])
  {
    if i > 0 {
      Reachable(compile, ws, ss, i - 1);
      assert Follows(compile, ws, ss, i - 1);
      StepKeeps(compile, ws[i - 1], ss[i - 1]);
    }
  }

  /** A run goes on with any enabled step. */
  lemma Extend(compile: Tx.Compile, ws: seq<World>, ss: seq<Step>, s: Step) returns (ws': seq<World>, ss': seq<Step>)
    requires Run(compile, ws, ss) && Enabled(ws[|ss|], s)
    ensures Run(compile, ws', ss') && ss' == ss + [s] && ws' == ws + [Next(compile, ws[|ss|], s)]
  {
    ws', ss' := ws + [Next(compile, ws[|ss|], s)], ss + [s];
    forall k | 0 <= k < |ss'|
      ensures Follows(compile, ws', ss', k)
    {
      assert k < |ss| ==> Follows(compile, ws, ss, k);
    }
  }

  lemma MovesAt(compile: Tx.Compile, ws: seq<World>, ss: seq<Step>, k: nat, id: int)
    requires Run(compile, ws, ss) && k < |ss| && id in ws[k].db.execs
    ensures id in ws[k + 1].db.execs && Moves(ss[k], id, ws[k].db.execs[id], ws[k + 1].db.execs[id])
  {
    Reachable(compile, ws, ss, k);
    assert Follows(compile, ws, ss, k);
    StepMoves(compile, ws[k], ss[k], id);
  }

  lemma InsertsAt(compile: Tx.Compile, ws: seq<World>, ss: seq<Step>, k: nat, id: int)
    requires Run(compile, ws, ss) && k < |ss| && id !in ws[k].db.execs && id in ws[k + 1].db.execs
    ensures var e, op := ws[k + 1].db.execs[id], ss[k].op;
            && e.job in ws[k].db.defs && !ws[k].db.defs[e.job].retired && ValidDefinition(ws[k].db.defs[e.job])
            && e == Tx.NewExecution(e.key, e.job, e.trigger, e.scheduledAt, ws[k].db.defs[e.job])
            && (op.TriggerRun? || op.MaterializeCron? || op.MaterializePoll?) && op.id == id && op.job == e.job
  {
    Reachable(compile, ws, ss, k);
    assert Follows(compile, ws, ss, k);
    StepInserts(compile, ws[k], ss[k], id);
    assert JobOk(ws[k], ws[k + 1].db.execs[id].job);
  }

  lemma GuardedAt(compile: Tx.Compile, ws: seq<World>, ss: seq<Step>, k: nat)
    requires Run(compile, ws, ss) && k < |ss| && HoldOf(ss[k].op).Some?
    ensures Guarded(ss[k].op, ws[k].db, ws[k + 1].db)
  {
    assert Follows(compile, ws, ss, k);
    GuardedWrite(compile, ws[k].db, ss[k]);
  }

  /** The database clock and the issued tokens only grow, and a claim's token is new. */
  lemma ClockAt(compile: Tx.Compile, ws: seq<World>, ss: seq<Step>, k: nat)
    requires Run(compile, ws, ss) && k < |ss|
    ensures ws[k].clock <= ss[k].utc == ws[k + 1].clock && ws[k].issued <= ws[k + 1].issued
    ensures ss[k].op.Claim? ==> ss[k].op.p.token !in ws[k].issued
  {
    assert Follows(compile, ws, ss, k);
  }

  lemma MoveInFlight(s: Step, id: int, e: Execution, e': Execution)
    requires Moves(s, id, e, e') && e'.status.InFlight()
    ensures (e.status.InFlight() && e'.runToken == e.runToken && e.fenceEpoch <= e'.fenceEpoch
            && e'.timeoutAt == e.timeoutAt)
            || (s.op.Claim? && e'.runToken == Some(s.op.p.token) && e.status.Ready?)
  {
  }

  /** Whatever is in flight under a token already issued was in flight under it before, at the same
      epoch or a lower one. */
  lemma FlightAt(compile: Tx.Compile, ws: seq<World>, ss: seq<Step>, k: nat, id: int, token: Token)
    requires Run(compile, ws, ss) && k < |ss| && token in ws[k].issued
    requires Flies(ws[k + 1].db, id) && ws[k + 1].db.execs[id].runToken == Some(token)
    ensures Flies(ws[k].db, id) && ws[k].db.execs[id].runToken == Some(token)
    ensures ws[k].db.execs[id].fenceEpoch <= ws[k + 1].db.execs[id].fenceEpoch
    ensures ws[k].db.execs[id].timeoutAt == ws[k + 1].db.execs[id].timeoutAt
  {
    ClockAt(compile, ws, ss, k);
    if id in ws[k].db.execs {
      MovesAt(compile, ws, ss, k, id);
      MoveInFlight(ss[k], id, ws[k].db.execs[id], ws[k + 1].db.execs[id]);
    } else {
      InsertsAt(compile, ws, ss, k, id);
    }
  }

  lemma EpochsAt(compile: Tx.Compile, ws: seq<World>, ss: seq<Step>, k: nat)
    requires Run(compile, ws, ss) && k < |ss|
    ensures EpochsRise(ws[k].db, ws[k + 1].db)
  {
    assert Follows(compile, ws, ss, k);
    StepEpochs(compile, ws[k].db, ss[k]);
  }

  // ----- epochs --------------------------------------------------------------------------

  /** Epochs never fall, and a hold the row did not already show comes with a higher one. */
  predicate EpochRises(s: StateRow, s': StateRow) {
    && s.fenceEpoch <= s'.fenceEpoch
    && (s'.active.Held? && !(s.active.Held? && s.active.token == s'.active.token && s.fenceEpoch == s'.fenceEpoch)
        ==> s.fenceEpoch < s'.fenceEpoch)
  }

  predicate EpochsRise(db: Db, db': Db) {
    forall job :: job in db.states ==> job in db'.states && EpochRises(db.states[job], db'.states[job])
  }

  lemma FinishEpochs(db: Db, job: JobName, id: int, key: ExecutionKey, token: Token, succeeded: bool,
                     e: Execution, sentTo: Option<Executor>, outcome: AttemptOutcome, now: Instant)
    requires job in db.states
    ensures EpochsRise(db, Tx.After(db, Tx.Finish(db, job, id, key, token, succeeded, e, sentTo, outcome, now)))
  {
  }

  lemma ClaimEpochs(db: Db, p: Tx.ClaimParams, served: bool, now: Instant, utc: Clock)
    ensures EpochsRise(db, Tx.After(db, Tx.Claim(db, p, served, now, utc)))
  {
  }

  lemma StepEpochs(compile: Tx.Compile, db: Db, s: Step)
    requires Tx.Forward(compile)
    ensures EpochsRise(db, Tables(compile, db, s))
  {
    if s.op.Claim? {
      ClaimEpochs(db, s.op.p, s.op.served, s.now, s.utc);
    } else if Ends(s.op) && HolderOf(s.op).id !in db.execs {
      MissingRow(compile, db, s);
    } else if Ends(s.op) {
      var succeeded, e, sentTo, outcome := FinishForm(compile, db, s);
      var h := HolderOf(s.op);
      if Tables(compile, db, s) != db {
        FinishEpochs(db, h.job, h.id, h.key, h.token, succeeded, e, sentTo, outcome, s.now);
      }
    } else if HoldOf(s.op).Some? {
      HolderEpochs(compile, db, s);
    } else {
      JobEpochs(compile, db, s);
    }
  }

  lemma JobEpochs(compile: Tx.Compile, db: Db, s: Step)
    requires Tx.Forward(compile) && HoldOf(s.op).None? && !s.op.Claim?
    ensures EpochsRise(db, Tables(compile, db, s))
  {
    if s.op.MaterializeCron? {
      CronEpochs(compile, db, s.op.id, s.op.job, s.op.grace, s.now);
    } else if s.op.MaterializePoll? {
      PollEpochs(compile, db, s.op.id, s.op.job, s.op.pass, s.now);
    }
  }

  lemma CronEpochs(compile: Tx.Compile, db: Db, id: int, job: JobName, grace: int, now: Instant)
    requires Tx.Forward(compile)
    ensures EpochsRise(db, Tx.After(db, Tx.MaterializeCron(db, compile, id, job, grace, now)))
  {
  }

  lemma PollEpochs(compile: Tx.Compile, db: Db, id: int, job: JobName, pass: int, now: Instant)
    ensures EpochsRise(db, Tx.After(db, Tx.MaterializePoll(db, compile, id, job, pass, now)))
  {
  }

  lemma HolderEpochs(compile: Tx.Compile, db: Db, s: Step)
    requires Tx.Forward(compile)
    requires s.op.Accept? || s.op.Refuse? || s.op.Retarget? || s.op.Renew? || s.op.ExtendDeadline? || s.op.Adopt?
    ensures EpochsRise(db, Tables(compile, db, s))
  {
  }

  // ----- attempt history -----------------------------------------------------------------

  /** History is append-only, and only the attempt a step ends is appended. */
  predicate Appends(db: Db, db': Db, op: Op) {
    && (forall p :: p in db.attempts ==> p in db'.attempts && db'.attempts[p] == db.attempts[p])
    && (forall p :: p in db'.attempts ==> p in db.attempts || (Ends(op) && p == (HolderOf(op).key, HolderOf(op).token)))
    && (Ends(op) && db' != db ==> (HolderOf(op).key, HolderOf(op).token) in db'.attempts)
  }

  lemma ClaimHistory(db: Db, p: Tx.ClaimParams, served: bool, now: Instant, utc: Clock)
    ensures Tx.After(db, Tx.Claim(db, p, served, now, utc)).attempts == db.attempts
  {
  }

  lemma EndHistory(compile: Tx.Compile, db: Db, s: Step)
    requires Tx.Forward(compile) && Ends(s.op)
    ensures Appends(db, Tables(compile, db, s), s.op)
  {
    if HolderOf(s.op).id !in db.execs {
      MissingRow(compile, db, s);
    } else {
      var succeeded, e, sentTo, outcome := FinishForm(compile, db, s);
      var h := HolderOf(s.op);
      if Tables(compile, db, s) != db {
        FinishEffect(db, h.job, h.id, h.key, h.token, succeeded, e, sentTo, outcome, s.now);
      }
    }
  }

  lemma HoldHistory(compile: Tx.Compile, db: Db, s: Step)
    requires Tx.Forward(compile) && HoldOf(s.op).Some? && !Ends(s.op)
    ensures Tables(compile, db, s).attempts == db.attempts
  {
  }

  lemma OtherHistory(compile: Tx.Compile, db: Db, s: Step)
    requires Tx.Forward(compile) && HoldOf(s.op).None? && !s.op.Claim?
    ensures Tables(compile, db, s).attempts == db.attempts
  {
  }

  lemma StepHistory(compile: Tx.Compile, db: Db, s: Step)
    requires Tx.Forward(compile)
    ensures Appends(db, Tables(compile, db, s), s.op)
  {
    if Ends(s.op) {
      EndHistory(compile, db, s);
    } else if s.op.Claim? {
      ClaimHistory(db, s.op.p, s.op.served, s.now, s.utc);
    } else if HoldOf(s.op).Some? {
      HoldHistory(compile, db, s);
    } else {
      OtherHistory(compile, db, s);
    }
  }

  lemma HistoryAt(compile: Tx.Compile, ws: seq<World>, ss: seq<Step>, k: nat)
    requires Run(compile, ws, ss) && k < |ss|
    ensures Appends(ws[k].db, ws[k + 1].db, ss[k].op)
  {
    assert Follows(compile, ws, ss, k);
    StepHistory(compile, ws[k].db, ss[k]);
  }
}
