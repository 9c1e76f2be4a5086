/** What one execution may spend: attempts, recoveries and time. */
module Budgets {
  import opened Rows
  import opened Schedules
  import opened Protocol
  import opened Preservation
  import opened RowSteps
  import opened Runs
  import opened Ownership
  import Tx = Transactions

  // ----- charging ------------------------------------------------------------------------

  /** What a claim made at `start` charged attempts may have charged by now. */
  predicate ChargedSince(start: int, e: Execution) {
    match e.status
    case Dispatching => e.attemptNo == start
    case Running => e.attemptNo == start + 1
    case CancelRequested => start <= e.attemptNo <= start + 1
    case _ => false
  }

  lemma MoveCharges(s: Step, id: int, e: Execution, e': Execution, start: int)
    requires Moves(s, id, e, e') && e'.status.InFlight() && ChargedSince(start, e)
    ensures ChargedSince(start, e')
    ensures e.status.CancelRequested? ==> e'.status.CancelRequested? && e'.attemptNo == e.attemptNo
    ensures e'.status.CancelRequested? && e'.attemptNo == start ==> e.attemptNo == start && !e.status.Running?
  {
  }

  /** From `i` to `j` the execution stays in flight, starting as freshly claimed. */
  ghost predicate OneClaim(ws: seq<World>, i: nat, j: nat, id: int) {
    && i <= j < |ws|
    && (forall k :: i <= k <= j ==> Flies(ws[k].db, id))
    && ws[i].db.execs[id].status.Dispatching?
  }

  /** While one claim lasts, at most one attempt is charged, and the status says whether it was. */
  lemma {:induction false} ChargedAtMostOnce(compile: Tx.Compile, ws: seq<World>, ss: seq<Step>, i: nat, j: nat,
                                             id: int)
    requires Run(compile, ws, ss) && OneClaim(ws, i, j, id)
    ensures ChargedSince(ws[i].db.execs[id].attemptNo, ws[j].db.execs[id])
    decreases j - i
  {
    if i < j {
      assert Flies(ws[j - 1].db, id) && Flies(ws[j].db, id);
      ChargedAtMostOnce(compile, ws, ss, i, j - 1, id);
      MovesAt(compile, ws, ss, j - 1, id);
      MoveCharges(ss[j - 1], id, ws[j - 1].db.execs[id], ws[j].db.execs[id], ws[i].db.execs[id].attemptNo);
    }
  }

  /** A cancel landed on the row before its acceptance was recorded. */
  ghost predicate CancelledUnaccepted(ws: seq<World>, i: nat, j: nat, id: int)
    requires OneClaim(ws, i, j, id)
  {
    exists k :: i <= k <= j && Flies(ws[k].db, id) && ws[k].db.execs[id].status.CancelRequested?
                && ws[k].db.execs[id].attemptNo == ws[i].db.execs[id].attemptNo
  }

  /** ... and then nothing charges this claim any more. */
  lemma {:induction false} UnacceptedStaysUncharged(compile: Tx.Compile, ws: seq<World>, ss: seq<Step>, i: nat, k: nat,
                                                    j: nat, id: int)
    requires Run(compile, ws, ss) && OneClaim(ws, i, j, id) && i <= k <= j
    requires Flies(ws[k].db, id) && ws[k].db.execs[id].status.CancelRequested?
    ensures Flies(ws[j].db, id) && ws[j].db.execs[id].status.CancelRequested?
    ensures ws[j].db.execs[id].attemptNo == ws[k].db.execs[id].attemptNo
    decreases j - k
  {
    if k < j {
      assert Flies(ws[j - 1].db, id) && Flies(ws[j].db, id);
      UnacceptedStaysUncharged(compile, ws, ss, i, k, j - 1, id);
      MovesAt(compile, ws, ss, j - 1, id);
      CancelledMove(ss[j - 1], id, ws[j - 1].db.execs[id], ws[j].db.execs[id]);
    }
  }

  lemma CancelledMove(s: Step, id: int, e: Execution, e': Execution)
    requires Moves(s, id, e, e') && e.status.CancelRequested? && e'.status.InFlight()
    ensures e'.status.CancelRequested? && e'.attemptNo == e.attemptNo
  {
  }

  /** Single charging: when a claim ends in a reported result, its attempt has been charged exactly
      once, unless a cancel was recorded before acceptance, and then not at all. */
  lemma ReportChargesOnce(compile: Tx.Compile, ws: seq<World>, ss: seq<Step>, i: nat, j: nat, id: int)
    requires Run(compile, ws, ss) && OneClaim(ws, i, j, id) && j < |ss|
    requires (ss[j].op.Complete? || ss[j].op.Retry?) && id in ws[j + 1].db.execs
    requires ws[j + 1].db.execs[id] != ws[j].db.execs[id]
    ensures ws[j + 1].db.execs[id].attemptNo - ws[i].db.execs[id].attemptNo
            == if CancelledUnaccepted(ws, i, j, id) then 0 else 1
  {
    assert Flies(ws[j].db, id);
    ChargedAtMostOnce(compile, ws, ss, i, j, id);
    if CancelledUnaccepted(ws, i, j, id) {
      var k :| i <= k <= j && Flies(ws[k].db, id) && ws[k].db.execs[id].status.CancelRequested?
               && ws[k].db.execs[id].attemptNo == ws[i].db.execs[id].attemptNo;
      UnacceptedStaysUncharged(compile, ws, ss, i, k, j, id);
    }
    MovesAt(compile, ws, ss, j, id);
  }

  // ----- bounded retries and recoveries --------------------------------------------------

  /** Step `k` of the run committed a change to the execution. */
  ghost predicate Changed(ws: seq<World>, k: nat, id: int) {
    && k + 1 < |ws| && id in ws[k].db.execs && id in ws[k + 1].db.execs
    && ws[k + 1].db.execs[id] != ws[k].db.execs[id]
  }

  ghost function Retries(ws: seq<World>, ss: seq<Step>, id: int, n: nat): nat
    requires n <= |ss|
  {
    if n == 0 then 0
    else Retries(ws, ss, id, n - 1) + (if ss[n - 1].op.Retry? && Changed(ws, n - 1, id) then 1 else 0)
  }

  ghost function Recoveries(ws: seq<World>, ss: seq<Step>, id: int, n: nat): nat
    requires n <= |ss|
  {
    if n == 0 then 0
    else Recoveries(ws, ss, id, n - 1) + (if ss[n - 1].op.Resolve? && Changed(ws, n - 1, id) then 1 else 0)
  }

  /** Nobody cancels, retires or revives the execution. */
  ghost predicate Unattended(ss: seq<Step>, n: nat, id: int, job: JobName)
    requires n <= |ss|
  {
    forall k :: 0 <= k < n ==>
      !((ss[k].op.RequestCancel? || ss[k].op.Retire? || ss[k].op.AuthorizedRetry?) && Targets(ss[k].op, id, job))
  }

  predicate Spending(e: Execution, retries: nat, recoveries: nat) {
    && !e.status.CancelRequested?
    && retries + (if e.status.Running? then 1 else 0) <= e.attemptNo
    && recoveries <= e.recoveryCount <= e.maxRecoveries
    && (!e.status.Terminal() ==> e.recoveryCount < e.maxRecoveries)
  }

  lemma MoveSpends(s: Step, id: int, e: Execution, e': Execution, retries: nat, recoveries: nat)
    requires Moves(s, id, e, e') && Spending(e, retries, recoveries)
    requires !((s.op.RequestCancel? || s.op.Retire? || s.op.AuthorizedRetry?) && Targets(s.op, id, e.job))
    ensures Spending(e', retries + (if s.op.Retry? && e' != e then 1 else 0),
                     recoveries + (if s.op.Resolve? && e' != e then 1 else 0))
  {
  }

  lemma {:induction false} SpendingHolds(compile: Tx.Compile, ws: seq<World>, ss: seq<Step>, n: nat, id: int,
                                         job: JobName)
    requires Run(compile, ws, ss) && n < |ws| && Unattended(ss, n, id, job)
    ensures id !in ws[n].db.execs ==> Retries(ws, ss, id, n) == 0 && Recoveries(ws, ss, id, n) == 0
    ensures id in ws[n].db.execs && ws[n].db.execs[id].job == job
            ==> Spending(ws[n].db.execs[id], Retries(ws, ss, id, n), Recoveries(ws, ss, id, n))
  {
    if n > 0 {
      assert Unattended(ss, n - 1, id, job);
      SpendingHolds(compile, ws, ss, n - 1, id, job);
      var w := ws[n - 1];
      if id in w.db.execs {
        MovesAt(compile, ws, ss, n - 1, id);
        if w.db.execs[id].job == job {
          MoveSpends(ss[n - 1], id, w.db.execs[id], ws[n].db.execs[id], Retries(ws, ss, id, n - 1),
                     Recoveries(ws, ss, id, n - 1));
        }
      } else if id in ws[n].db.execs {
        InsertsAt(compile, ws, ss, n - 1, id);
      }
    }
  }

  /** Bounded retries: left alone, an execution is returned for retry at most max_attempts times
      and reclaimed from a lost scheduler at most max_recoveries times, however long the run. */
  lemma BoundedRetries(compile: Tx.Compile, ws: seq<World>, ss: seq<Step>, n: nat, id: int)
    requires Run(compile, ws, ss) && n < |ws| && id in ws[n].db.execs
    requires Unattended(ss, n, id, ws[n].db.execs[id].job)
    ensures Retries(ws, ss, id, n) <= ws[n].db.execs[id].maxAttempts
    ensures Recoveries(ws, ss, id, n) <= ws[n].db.execs[id].maxRecoveries
  {
    SpendingHolds(compile, ws, ss, n, id, ws[n].db.execs[id].job);
    Reachable(compile, ws, ss, n);
    assert RowOk(ws[n], ws[n].db.execs[id]);
  }

  // ----- the runtime cap -----------------------------------------------------------------

  /** The only steps that grant a new runtime budget. */
  predicate GrantsBudget(op: Op) {
    op.Retry? || op.Resolve? || op.AuthorizedRetry?
  }

  ghost predicate NoNewBudget(ss: seq<Step>, i: nat, j: nat, id: int, job: JobName)
    requires i <= j <= |ss|
  {
    forall k :: i <= k < j ==> !(GrantsBudget(ss[k].op) && Targets(ss[k].op, id, job))
  }

  /** The cap is set once per budget: claims, refusals, renewals, progress reports, cancels and
      adoptions never move it. */
  lemma {:induction false} CapIsFixed(compile: Tx.Compile, ws: seq<World>, ss: seq<Step>, i: nat, j: nat, id: int)
    requires Run(compile, ws, ss) && i <= j < |ws| && id in ws[i].db.execs && ws[i].db.execs[id].timeoutAt.Some?
    requires NoNewBudget(ss, i, j, id, ws[i].db.execs[id].job)
    ensures id in ws[j].db.execs && ws[j].db.execs[id].timeoutAt == ws[i].db.execs[id].timeoutAt
    ensures ws[j].db.execs[id].job == ws[i].db.execs[id].job
    decreases j - i
  {
    if i < j {
      CapIsFixed(compile, ws, ss, i, j - 1, id);
      MovesAt(compile, ws, ss, j - 1, id);
    }
  }

  /** Past its cap, a row is not dispatched, not adopted, takes no progress report and records no
      reported result; a claim can only end it. */
  lemma CapGatesSteps(compile: Tx.Compile, ws: seq<World>, ss: seq<Step>, k: nat, id: int)
    requires Run(compile, ws, ss) && k < |ss| && id in ws[k].db.execs && PastCap(ws[k].db.execs[id], ss[k].utc)
    ensures id in ws[k + 1].db.execs
    ensures ws[k + 1].db.execs[id].status.Dispatching? ==> ws[k].db.execs[id].status.Dispatching?
    ensures ss[k].op.Complete? || ss[k].op.Retry? || ss[k].op.Adopt? || ss[k].op.ExtendDeadline? ==> !Changed(ws, k, id)
    ensures ss[k].op.Claim? && Changed(ws, k, id) ==> ws[k + 1].db.execs[id].status.Dead?
  {
    MovesAt(compile, ws, ss, k, id);
  }

  /** Refusals spend no attempt and no recovery, but they do not buy time: once the cap has passed,
      no claim dispatches the row again until a retry, a recovery or an operator grants a budget. */
  lemma NoDispatchPastCap(compile: Tx.Compile, ws: seq<World>, ss: seq<Step>, i: nat, k: nat, id: int)
    requires Run(compile, ws, ss) && i <= k < |ss| && id in ws[i].db.execs && PastCap(ws[i].db.execs[id], ss[k].utc)
    requires NoNewBudget(ss, i, k, id, ws[i].db.execs[id].job)
    ensures id in ws[k].db.execs && id in ws[k + 1].db.execs
    ensures ws[k + 1].db.execs[id].status.Dispatching? ==> ws[k].db.execs[id].status.Dispatching?
  {
    CapIsFixed(compile, ws, ss, i, k, id);
    MovesAt(compile, ws, ss, k, id);
  }

  /** Every in-flight row has a cap, in every world of every run. */
  lemma InFlightIsCapped(compile: Tx.Compile, ws: seq<World>, ss: seq<Step>, i: nat, id: int)
    requires Run(compile, ws, ss) && i < |ws| && Flies(ws[i].db, id)
    ensures ws[i].db.execs[id].timeoutAt.Some?
  {
    Reachable(compile, ws, ss, i);
    assert RowOk(ws[i], ws[i].db.execs[id]);
  }

  /** A hold that is live now and was live earlier kept its cap all along. */
  lemma {:induction false} HoldKeepsCap(compile: Tx.Compile, ws: seq<World>, ss: seq<Step>, i: nat, j: nat, id: int,
                                        token: Token, epoch: int)
    requires Run(compile, ws, ss) && i <= j < |ws| && RunsUnder(ws[i].db, id, token, epoch)
    requires Flies(ws[j].db, id) && ws[j].db.execs[id].runToken == Some(token)
    ensures ws[j].db.execs[id].timeoutAt == ws[i].db.execs[id].timeoutAt
    decreases j - i
  {
    if i < j {
      IssuedStays(compile, ws, ss, i, j - 1, id, token);
      FlightAt(compile, ws, ss, j - 1, id, token);
      HoldKeepsCap(compile, ws, ss, i, j - 1, id, token, epoch);
    }
  }

  lemma {:induction false} IssuedStays(compile: Tx.Compile, ws: seq<World>, ss: seq<Step>, i: nat, j: nat, id: int,
                                       token: Token)
    requires Run(compile, ws, ss) && i <= j < |ws| && id in ws[i].db.execs && ws[i].db.execs[id].runToken == Some(token)
    ensures token in ws[j].issued
    decreases j - i
  {
    if i < j {
      IssuedStays(compile, ws, ss, i, j - 1, id, token);
      ClockAt(compile, ws, ss, j - 1);
    } else {
      Reachable(compile, ws, ss, i);
      assert RowOk(ws[i], ws[i].db.execs[id]);
    }
  }

  /** The timeout scan is not re-checked under the lock and does not need to be: a row scanned past
      its cap and fenced under the hold the scan read is still past its cap, however late. */
  lemma FencedOnlyPastCap(compile: Tx.Compile, ws: seq<World>, ss: seq<Step>, i: nat, j: nat)
    requires Run(compile, ws, ss) && i <= j < |ss| && ss[j].op.FenceTimedOut? && ws[j + 1].db != ws[j].db
    requires RunsUnder(ws[i].db, ss[j].op.v.id, ss[j].op.v.token, ss[j].op.v.epoch)
    requires PastCap(ws[i].db.execs[ss[j].op.v.id], ws[i].clock)
    ensures ss[j].op.v.id in ws[j].db.execs && PastCap(ws[j].db.execs[ss[j].op.v.id], ss[j].utc)
  {
    var v := ss[j].op.v;
    GuardedAt(compile, ws, ss, j);
    HoldKeepsCap(compile, ws, ss, i, j, v.id, v.token, v.epoch);
    ClockRises(compile, ws, ss, i, j);
    ClockAt(compile, ws, ss, j);
  }

  lemma {:induction false} ClockRises(compile: Tx.Compile, ws: seq<World>, ss: seq<Step>, i: nat, j: nat)
    requires Run(compile, ws, ss) && i <= j < |ws|
    ensures ws[i].clock <= ws[j].clock
    decreases j - i
  {
    if i < j {
      ClockRises(compile, ws, ss, i, j - 1);
      ClockAt(compile, ws, ss, j - 1);
    }
  }
}
