/** Who owns a job, and why an evicted owner is harmless. */
module Ownership {
  import opened Rows
  import opened Schedules
  import opened Protocol
  import opened Preservation
  import opened RowSteps
  import opened Runs
  import Tx = Transactions

  /** `id` is the one in-flight execution of the job, and the state row names it in every column. */
  ghost predicate IsHolder(db: Db, job: JobName, id: int)
    requires job in db.states
  {
    && Flies(db, id) && db.execs[id].job == job
    && Coupled(db.states[job], db.execs[id])
    && (forall b :: Flies(db, b) && db.execs[b].job == job ==> b == id)
  }

  lemma FlyerIsHolder(w: World, id: int)
    requires Inv(w) && Flies(w.db, id)
    ensures w.db.execs[id].job in w.db.states && IsHolder(w.db, w.db.execs[id].job, id)
  {
  }

  /** Ownership coupling: in every world of every run, a job's state row is held exactly when one
      of its executions is in flight; that execution is unique and its key, owner, token, epoch
      and lease are the state row's. */
  lemma OwnershipCoupling(compile: Tx.Compile, ws: seq<World>, ss: seq<Step>, i: nat, job: JobName)
    requires Run(compile, ws, ss) && i < |ws| && job in ws[i].db.states
    ensures ws[i].db.states[job].active.Held? <==> exists id :: IsHolder(ws[i].db, job, id)
    ensures forall id :: Flies(ws[i].db, id) && ws[i].db.execs[id].job == job ==> IsHolder(ws[i].db, job, id)
  {
    Reachable(compile, ws, ss, i);
    var w := ws[i];
    assert JobOk(w, job);
    forall id | Flies(w.db, id) && w.db.execs[id].job == job
      ensures IsHolder(w.db, job, id)
    {
      FlyerIsHolder(w, id);
    }
    if w.db.states[job].active.Held? {
      var id :| id in w.db.execs && w.db.execs[id].job == job && w.db.execs[id].status.InFlight();
      assert Flies(w.db, id);
    }
  }

  // ----- epochs --------------------------------------------------------------------------

  /** Grants are ordered: whenever a job is held under a (token, epoch) pair it was not held under
      at an earlier point of the run, its epoch is strictly higher than it was then. */
  lemma {:induction false} GrantsAreOrdered(compile: Tx.Compile, ws: seq<World>, ss: seq<Step>, i: nat, j: nat,
                                            job: JobName)
    requires Run(compile, ws, ss) && i <= j < |ws| && job in ws[i].db.states
    ensures job in ws[j].db.states && EpochRises(ws[i].db.states[job], ws[j].db.states[job])
    decreases j - i
  {
    if i < j {
      GrantsAreOrdered(compile, ws, ss, i, j - 1, job);
      EpochsAt(compile, ws, ss, j - 1);
    }
  }

  /** An execution's epoch never falls, and never runs ahead of its job's by more than one. */
  lemma {:induction false} ExecutionEpochs(compile: Tx.Compile, ws: seq<World>, ss: seq<Step>, i: nat, j: nat, id: int)
    requires Run(compile, ws, ss) && i <= j < |ws| && id in ws[i].db.execs
    ensures id in ws[j].db.execs && SameOrigin(ws[i].db.execs[id], ws[j].db.execs[id])
    ensures ws[i].db.execs[id].fenceEpoch <= ws[j].db.execs[id].fenceEpoch
    ensures ws[j].db.execs[id].job in ws[j].db.states
    ensures ws[j].db.execs[id].fenceEpoch <= ws[j].db.states[ws[j].db.execs[id].job].fenceEpoch + 1
    decreases j - i
  {
    Reachable(compile, ws, ss, j);
    if i < j {
      ExecutionEpochs(compile, ws, ss, i, j - 1, id);
      MovesAt(compile, ws, ss, j - 1, id);
    }
    assert RowOk(ws[j], ws[j].db.execs[id]);
  }

  // ----- zombies -------------------------------------------------------------------------

  /** Some execution is in flight under this hold. */
  ghost predicate Live(db: Db, token: Token, epoch: int) {
    exists id :: RunsUnder(db, id, token, epoch)
  }

  /** The token has been issued, and nothing in flight carries it under a lower epoch. */
  ghost predicate AtLeast(w: World, token: Token, epoch: int) {
    && token in w.issued
    && (forall id :: Flies(w.db, id) && w.db.execs[id].runToken == Some(token) ==> epoch <= w.db.execs[id].fenceEpoch)
  }

  lemma LiveIsAtLeast(w: World, token: Token, epoch: int)
    requires Inv(w) && Live(w.db, token, epoch)
    ensures AtLeast(w, token, epoch)
  {
  }

  lemma {:induction false} AtLeastStays(compile: Tx.Compile, ws: seq<World>, ss: seq<Step>, i: nat, j: nat,
                                        token: Token, epoch: int)
    requires Run(compile, ws, ss) && i <= j < |ws| && AtLeast(ws[i], token, epoch)
    ensures AtLeast(ws[j], token, epoch)
    decreases j - i
  {
    if i < j {
      AtLeastStays(compile, ws, ss, i, j - 1, token, epoch);
      ClockAt(compile, ws, ss, j - 1);
      forall id | Flies(ws[j].db, id) && ws[j].db.execs[id].runToken == Some(token)
        ensures epoch <= ws[j].db.execs[id].fenceEpoch
      {
        FlightAt(compile, ws, ss, j - 1, id, token);
      }
    }
  }

  /** Once a hold has lapsed it never comes back. */
  lemma LapsedForEver(compile: Tx.Compile, ws: seq<World>, ss: seq<Step>, i: nat, j: nat, k: nat, token: Token,
                      epoch: int)
    requires Run(compile, ws, ss) && i <= j <= k < |ws|
    requires Live(ws[i].db, token, epoch) && !Live(ws[j].db, token, epoch)
    ensures !Live(ws[k].db, token, epoch)
  {
    Reachable(compile, ws, ss, i);
    LiveIsAtLeast(ws[i], token, epoch);
    AtLeastStays(compile, ws, ss, i, j, token, epoch);
    assert AtLeast(ws[j], token, epoch + 1) by {
      forall id | Flies(ws[j].db, id) && ws[j].db.execs[id].runToken == Some(token)
        ensures epoch + 1 <= ws[j].db.execs[id].fenceEpoch
      {
        assert !RunsUnder(ws[j].db, id, token, epoch);
      }
    }
    AtLeastStays(compile, ws, ss, j, k, token, epoch + 1);
    forall id ensures !RunsUnder(ws[k].db, id, token, epoch) {
      assert RunsUnder(ws[k].db, id, token, epoch) ==> Flies(ws[k].db, id);
    }
  }

  /** Zombie fencing: once a hold that was live has been released, adopted or resolved, no write
      presented under it changes any table, in any continuation of the run. */
  lemma ZombieFenced(compile: Tx.Compile, ws: seq<World>, ss: seq<Step>, i: nat, j: nat, k: nat)
    requires Run(compile, ws, ss) && i <= j <= k < |ss| && HoldOf(ss[k].op).Some?
    requires Live(ws[i].db, HoldOf(ss[k].op).value.0, HoldOf(ss[k].op).value.1)
    requires !Live(ws[j].db, HoldOf(ss[k].op).value.0, HoldOf(ss[k].op).value.1)
    ensures ws[k + 1].db == ws[k].db
  {
    var (token, epoch) := HoldOf(ss[k].op).value;
    LapsedForEver(compile, ws, ss, i, j, k, token, epoch);
    GuardedAt(compile, ws, ss, k);
    assert !RunsUnder(ws[k].db, TargetOf(ss[k].op), token, epoch);
  }

  /** The steps that end, return or take over an attempt. */
  predicate Evicts(op: Op) {
    || op.Refuse? || op.Complete? || op.Retry? || op.Adopt? || op.Resolve? || op.FenceTimedOut?
    || op.ExpireSilent? || op.ReleaseAsOwner?
  }

  lemma EvictedRowLeaves(s: Step, id: int, e: Execution, e': Execution)
    requires Evicts(s.op) && e' != e && Moves(s, id, e, e')
    ensures !(e'.status.InFlight() && e'.runToken == Some(HoldOf(s.op).value.0)
            && e'.fenceEpoch == HoldOf(s.op).value.1)
  {
  }

  /** An eviction is what makes a hold lapse: it needs the hold to be live, and after it the hold
      is dead. */
  lemma EvictionEndsHold(compile: Tx.Compile, ws: seq<World>, ss: seq<Step>, k: nat)
    requires Run(compile, ws, ss) && k < |ss| && Evicts(ss[k].op) && ws[k + 1].db.execs != ws[k].db.execs
    ensures Live(ws[k].db, HoldOf(ss[k].op).value.0, HoldOf(ss[k].op).value.1)
    ensures !Live(ws[k + 1].db, HoldOf(ss[k].op).value.0, HoldOf(ss[k].op).value.1)
  {
    var db, db' := ws[k].db, ws[k + 1].db;
    var (token, epoch) := HoldOf(ss[k].op).value;
    var id := TargetOf(ss[k].op);
    GuardedAt(compile, ws, ss, k);
    assert RunsUnder(db, id, token, epoch);
    MovesAt(compile, ws, ss, k, id);
    Reachable(compile, ws, ss, k);
    EvictedRowLeaves(ss[k], id, db.execs[id], db'.execs[id]);
    forall b ensures !RunsUnder(db', b, token, epoch) {
      assert b != id && b in db'.execs ==> db'.execs[b] == db.execs[b];
    }
  }
}
