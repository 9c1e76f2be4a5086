/** Nothing stays held for ever, and nothing of a retired job starts again. */
module Reclaim {
  import opened Rows
  import opened Schedules
  import opened Protocol
  import opened Preservation
  import opened RowSteps
  import opened Runs
  import opened Ownership
  import opened Budgets
  import opened Reports
  import Tx = Transactions

  /** What a scan reads of a row. */
  function Scan(db: Db, id: int): Stale
    requires id in db.execs && db.execs[id].runToken.Some?
  {
    var e := db.execs[id];
    Stale(id, e.key, e.job, e.runToken.value, e.fenceEpoch, e.dispatchedTo)
  }

  predicate Frees(db: Db, db': Db, job: JobName, id: int) {
    job in db'.states && db'.states[job].active.Free? && id in db'.execs && !db'.execs[id].status.InFlight()
  }

  lemma HolderReclaimable(w: World, id: int, backoff: int, now: Instant, utc: Clock)
    requires Inv(w) && Flies(w.db, id)
    ensures var e := w.db.execs[id];
            && e.runToken.Some? && e.timeoutAt.Some? && e.leaseUntil.Some?
            && var fence, resolve := Tx.FenceTimedOut(w.db, Scan(w.db, id), now),
                 Tx.Resolve(w.db, Scan(w.db, id), backoff, now, utc);
            && (fence.Commit? && Frees(w.db, fence.db, e.job, id))
            && (LeaseLapsed(e.leaseUntil, utc) ==> resolve.Commit? && Frees(w.db, resolve.db, e.job, id))
  {
    var e := w.db.execs[id];
    assert RowOk(w, e) && JobOk(w, e.job);
    var v := Scan(w.db, id);
    var fenced, resolved := Tx.FencedOff(e, ReasonTimeout, now), Tx.Resolved(e, backoff, now, utc);
    FinishCommits(w.db, v.job, v.id, v.key, v.token, false, fenced, v.sentTo, AttemptFenced, now);
    FinishEffect(w.db, v.job, v.id, v.key, v.token, false, fenced, v.sentTo, AttemptFenced, now);
    FinishCommits(w.db, v.job, v.id, v.key, v.token, false, resolved, v.sentTo, AttemptUnknown, now);
    FinishEffect(w.db, v.job, v.id, v.key, v.token, false, resolved, v.sentTo, AttemptUnknown, now);
  }

  /** No stranded hold: in every world of every run, whatever holds a job has a lease and a cap, and
      a fresh scan of it can act. Past the cap the timeout fence commits, past the lease the
      recovery commits, and either frees the job. */
  lemma NoStrandedHold(compile: Tx.Compile, ws: seq<World>, ss: seq<Step>, i: nat, job: JobName, backoff: int,
                       now: Instant, utc: Clock)
      returns (id: int)
    requires Run(compile, ws, ss) && i < |ws| && job in ws[i].db.states && ws[i].db.states[job].active.Held?
    ensures IsHolder(ws[i].db, job, id)
    ensures var db := ws[i].db; var e := db.execs[id];
            && e.runToken.Some? && e.timeoutAt.Some? && e.leaseUntil.Some?
            && (PastCap(e, utc) ==>
                  var tx := Tx.FenceTimedOut(db, Scan(db, id), now); tx.Commit? && Frees(db, tx.db, job, id))
            && (LeaseLapsed(e.leaseUntil, utc) ==>
                  var tx := Tx.Resolve(db, Scan(db, id), backoff, now, utc); tx.Commit? && Frees(db, tx.db, job, id))
  {
    OwnershipCoupling(compile, ws, ss, i, job);
    id :| IsHolder(ws[i].db, job, id);
    Reachable(compile, ws, ss, i);
    HolderReclaimable(ws[i], id, backoff, now, utc);
  }

  // ----- retirement ----------------------------------------------------------------------

  predicate Retired(db: Db, job: JobName) {
    job in db.defs && db.defs[job].retired
  }

  lemma StepKeepsRetired(compile: Tx.Compile, db: Db, s: Step, job: JobName)
    requires Tx.Forward(compile) && Retired(db, job)
    ensures Retired(Tables(compile, db, s), job)
  {
    if HoldOf(s.op).Some? {
      GuardedWrite(compile, db, s);
    } else if s.op.Claim? {
      ClaimKeepsDefs(db, s.op.p, s.op.served, s.now, s.utc);
    }
  }

  lemma ClaimKeepsDefs(db: Db, p: Tx.ClaimParams, served: bool, now: Instant, utc: Clock)
    ensures Tx.After(db, Tx.Claim(db, p, served, now, utc)).defs == db.defs
  {
  }

  /** Retirement is for ever. */
  lemma {:induction false} RetiredStays(compile: Tx.Compile, ws: seq<World>, ss: seq<Step>, i: nat, j: nat,
                                        job: JobName)
    requires Run(compile, ws, ss) && i <= j < |ws| && Retired(ws[i].db, job)
    ensures Retired(ws[j].db, job)
    decreases j - i
  {
    if i < j {
      RetiredStays(compile, ws, ss, i, j - 1, job);
      assert Follows(compile, ws, ss, j - 1);
      StepKeepsRetired(compile, ws[j - 1].db, ss[j - 1], job);
    }
  }

  lemma ClaimNeedsRunnable(db: Db, p: Tx.ClaimParams, served: bool, now: Instant, utc: Clock)
    requires p.id in db.execs && Retired(db, db.execs[p.id].job)
    ensures var db' := Tx.After(db, Tx.Claim(db, p, served, now, utc));
            p.id in db'.execs && (db'.execs[p.id].status.Dispatching? ==> db.execs[p.id].status.Dispatching?)
  {
  }

  lemma RevivalNeedsUnretired(db: Db, id: int, now: Instant)
    requires id in db.execs && Retired(db, db.execs[id].job)
    ensures Tx.After(db, Tx.AuthorizedRetry(db, id, now)) == db
  {
  }

  /** What a retired job's rows look like: ended, stopping, or returned by a stopping handler. */
  predicate Winding(e: Execution) {
    e.status.Terminal() || e.status.CancelRequested? || e.status.Ready?
  }

  lemma WindingMove(s: Step, id: int, e: Execution, e': Execution)
    requires Moves(s, id, e, e') && Winding(e)
    requires s.op.Claim? ==> !e'.status.Dispatching?
    requires s.op.AuthorizedRetry? ==> e' == e
    ensures Winding(e')
    ensures e.status.Terminal() ==> e'.status.Terminal()
    ensures e'.status.Ready? && !e.status.Ready? ==> s.op.Retry?
  {
  }

  /** One step on a row of a retired job. */
  lemma RetiredRowAt(compile: Tx.Compile, ws: seq<World>, ss: seq<Step>, k: nat, id: int)
    requires Run(compile, ws, ss) && k < |ss| && id in ws[k].db.execs && Retired(ws[k].db, ws[k].db.execs[id].job)
    ensures id in ws[k + 1].db.execs
    ensures ws[k + 1].db.execs[id].status.Dispatching? ==> ws[k].db.execs[id].status.Dispatching?
    ensures var e, e' := ws[k].db.execs[id], ws[k + 1].db.execs[id];
            Winding(e) ==> Winding(e') && (e.status.Terminal() ==> e'.status.Terminal())
                           && (e'.status.Ready? && !e.status.Ready? ==> ss[k].op.Retry?)
  {
    MovesAt(compile, ws, ss, k, id);
    var e, e' := ws[k].db.execs[id], ws[k + 1].db.execs[id];
    if ss[k].op.Claim? || ss[k].op.AuthorizedRetry? {
      RetiredGates(compile, ws, ss, k, id);
    }
    if Winding(e) {
      WindingMove(ss[k], id, e, e');
    }
  }

  lemma RetiredGates(compile: Tx.Compile, ws: seq<World>, ss: seq<Step>, k: nat, id: int)
    requires Run(compile, ws, ss) && k < |ss| && id in ws[k].db.execs && Retired(ws[k].db, ws[k].db.execs[id].job)
    requires ss[k].op.Claim? || ss[k].op.AuthorizedRetry?
    ensures id in ws[k + 1].db.execs
    ensures ws[k + 1].db.execs[id].status.Dispatching? ==> ws[k].db.execs[id].status.Dispatching?
    ensures ss[k].op.AuthorizedRetry? ==> ws[k + 1].db.execs[id] == ws[k].db.execs[id]
  {
    MovesAt(compile, ws, ss, k, id);
    assert Follows(compile, ws, ss, k);
    if Targets(ss[k].op, id, ws[k].db.execs[id].job) {
      match ss[k].op
      case Claim(p, served) => ClaimNeedsRunnable(ws[k].db, p, served, ss[k].now, ss[k].utc);
      case AuthorizedRetry(i) => RevivalNeedsUnretired(ws[k].db, i, ss[k].now);
    }
  }

  /** After a retirement commits, nothing of the job is ever claimed again. */
  lemma NeverClaimedAfterRetire(compile: Tx.Compile, ws: seq<World>, ss: seq<Step>, i: nat, k: nat, id: int)
    requires Run(compile, ws, ss) && i <= k < |ss| && id in ws[k].db.execs && Retired(ws[i].db, ws[k].db.execs[id].job)
    ensures id in ws[k + 1].db.execs
    ensures ws[k + 1].db.execs[id].status.Dispatching? ==> ws[k].db.execs[id].status.Dispatching?
  {
    RetiredStays(compile, ws, ss, i, k, ws[k].db.execs[id].job);
    RetiredRowAt(compile, ws, ss, k, id);
  }

  /** The step that retired the job. */
  ghost predicate RetiresAt(ws: seq<World>, ss: seq<Step>, i: nat, job: JobName) {
    i < |ss| && |ws| == |ss| + 1 && ss[i].op == Retire(job) && ws[i + 1].db != ws[i].db
  }

  lemma RetireEffect(compile: Tx.Compile, ws: seq<World>, ss: seq<Step>, i: nat, job: JobName, id: int)
    requires Run(compile, ws, ss) && RetiresAt(ws, ss, i, job)
    ensures Retired(ws[i + 1].db, job)
    ensures id in ws[i + 1].db.execs && ws[i + 1].db.execs[id].job == job ==>
              Winding(ws[i + 1].db.execs[id]) && !ws[i + 1].db.execs[id].status.Ready?
              && (ws[i + 1].db.execs[id].status.Terminal() || Flies(ws[i].db, id))
  {
    assert Follows(compile, ws, ss, i);
  }

  /** Retirement: from the step that retires a job onwards, its executions are ended, stopping, or
      returned to `ready`; whatever has not ended is the one execution that was in flight at that
      moment, and it can have become `ready` only through a reported retry. */
  lemma {:induction false} RetirementWindsDown(compile: Tx.Compile, ws: seq<World>, ss: seq<Step>, i: nat, j: nat,
                                               job: JobName, id: int)
    requires Run(compile, ws, ss) && RetiresAt(ws, ss, i, job) && i < j < |ws|
    requires id in ws[j].db.execs && ws[j].db.execs[id].job == job
    ensures Winding(ws[j].db.execs[id])
    ensures !ws[j].db.execs[id].status.Terminal() ==> Flies(ws[i].db, id)
    ensures ws[j].db.execs[id].status.Ready? ==>
              exists k :: i < k < j && ss[k].op.Retry? && Changed(ws, k, id) && ws[k + 1].db.execs[id].status.Ready?
    decreases j - i
  {
    RetireEffect(compile, ws, ss, i, job, id);
    if i + 1 < j {
      RetiredStays(compile, ws, ss, i + 1, j - 1, job);
      if id !in ws[j - 1].db.execs {
        InsertsAt(compile, ws, ss, j - 1, id);
        assert false;
      }
      MovesAt(compile, ws, ss, j - 1, id);
      RetirementWindsDown(compile, ws, ss, i, j - 1, job, id);
      RetiredRowAt(compile, ws, ss, j - 1, id);
      if ws[j].db.execs[id].status.Ready? && !ws[j - 1].db.execs[id].status.Ready? {
        assert Changed(ws, j - 1, id);
      }
    }
  }

  /** ... and that execution is unique. */
  lemma OneSurvivor(compile: Tx.Compile, ws: seq<World>, ss: seq<Step>, i: nat, j: nat, job: JobName, a: int, b: int)
    requires Run(compile, ws, ss) && RetiresAt(ws, ss, i, job) && i < j < |ws|
    requires a in ws[j].db.execs && ws[j].db.execs[a].job == job && !ws[j].db.execs[a].status.Terminal()
    requires b in ws[j].db.execs && ws[j].db.execs[b].job == job && !ws[j].db.execs[b].status.Terminal()
    ensures a == b
  {
    RetirementWindsDown(compile, ws, ss, i, j, job, a);
    RetirementWindsDown(compile, ws, ss, i, j, job, b);
    ExecutionEpochs(compile, ws, ss, i, j, a);
    ExecutionEpochs(compile, ws, ss, i, j, b);
    Reachable(compile, ws, ss, i);
    FlyerIsHolder(ws[i], a);
  }
}
