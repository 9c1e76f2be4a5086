/** What is reported is what is recorded: the row an ending leaves, the history it writes, the stamps on the job, and
  what becomes of a report, disposition by disposition. */
module Outcomes {
  import opened Rows
  import opened Schedules
  import opened Protocol
  import opened RowSteps
  import opened Runs
  import opened Claiming
  import opened Holding
  import opened Landing
  import R = Reports
  import Tx = Transactions

  /** No attempt in flight is in history under any key. */
  lemma {:induction false} UnrecordedInFlight(compile: Tx.Compile, ws: seq<World>, ss: seq<Step>, i: nat, id: int,
                                              key: ExecutionKey)
    requires Run(compile, ws, ss) && i < |ws| && Flies(ws[i].db, id) && ws[i].db.execs[id].runToken.Some?
    ensures (key, ws[i].db.execs[id].runToken.value) !in ws[i].db.attempts
  {
    if i > 0 {
      var k, token := i - 1, ws[i].db.execs[id].runToken.value;
      ClockAt(compile, ws, ss, k);
      HistoryAt(compile, ws, ss, k);
      Reachable(compile, ws, ss, k);
      if id !in ws[k].db.execs {
        InsertsAt(compile, ws, ss, k, id);
      } else {
        MovesAt(compile, ws, ss, k, id);
        MoveInFlight(ss[k], id, ws[k].db.execs[id], ws[i].db.execs[id]);
        if Flies(ws[k].db, id) && ws[k].db.execs[id].runToken == Some(token) {
          UnrecordedInFlight(compile, ws, ss, k, id, key);
        }
      }
      if Ends(ss[k].op) && HolderOf(ss[k].op).token == token && ws[i].db != ws[k].db {
        R.EndingQuiets(compile, ws, ss, k);
      }
    }
  }

  /** What a step that ends an attempt says of it. */
  function SaidOf(op: Op): (AttemptOutcome, Option<Executor>)
    requires Ends(op)
  {
    match op
    case Complete(_, o) => (o.attempt, o.executor)
    case Retry(_, o, _) => (o.attempt, o.executor)
    case Resolve(v, _) => (AttemptUnknown, v.sentTo)
    case FenceTimedOut(v) => (AttemptFenced, v.sentTo)
    case ExpireSilent(v) => (AttemptUnknown, v.sentTo)
    case ReleaseAsOwner(_) => (AttemptUnknown, None)
  }

  /** History holds what the ending said, with the attempt number the row is left with and the time of the ending. */
  lemma EndingIsRecordedAs(compile: Tx.Compile, ws: seq<World>, ss: seq<Step>, k: nat)
    requires Run(compile, ws, ss) && k < |ss| && Ends(ss[k].op) && ws[k + 1].db != ws[k].db
    ensures var h, said := HolderOf(ss[k].op), SaidOf(ss[k].op);
            && (h.key, h.token) in ws[k + 1].db.attempts && h.id in ws[k + 1].db.execs
            && ws[k + 1].db.attempts[(h.key, h.token)]
               == Attempt(ws[k + 1].db.execs[h.id].attemptNo, said.1, said.0, ss[k].now)
  {
    var h := HolderOf(ss[k].op);
    LandingLaw(compile, ws, ss, k);
    R.EndingQuiets(compile, ws, ss, k);
    UnrecordedInFlight(compile, ws, ss, k, h.id, h.key);
  }

  /** A committed ending lands as what was reported: status, reason and time on the row, and the job's last success
      moves if it succeeded, its last failure if not. */
  lemma CompletionLands(compile: Tx.Compile, ws: seq<World>, ss: seq<Step>, k: nat)
    requires Run(compile, ws, ss) && k < |ss| && ss[k].op.Complete? && ws[k + 1].db != ws[k].db
    ensures var h, o, now := ss[k].op.h, ss[k].op.o, ss[k].now;
            && h.id in ws[k].db.execs && h.id in ws[k + 1].db.execs && h.job in ws[k].db.states
            && h.job in ws[k + 1].db.states
            && var e, e', st, st' := ws[k].db.execs[h.id], ws[k + 1].db.execs[h.id],
                                     ws[k].db.states[h.job], ws[k + 1].db.states[h.job];
            && e'.status == o.status && e'.reason == Some(o.reason) && e'.finishedAt == Some(now)
            && e'.attemptNo == e.attemptNo + (if e.status == Dispatching then 1 else 0)
            && st'.active == Free
            && st'.lastSuccessAt == (if o.status == Success then Some(now) else st.lastSuccessAt)
            && st'.lastFailureAt == (if o.status == Success then st.lastFailureAt else Some(now))
  {
    LandingLaw(compile, ws, ss, k);
  }

  // ----- reports -------------------------------------------------------------------------

  /** The step that applied a recorded report. */
  ghost function AppliedAt(ws: seq<World>, ss: seq<Step>, r: R.Report, c: R.Calls, id: int): (k: nat)
    requires R.Made(ws, ss, r, c, id) && R.AnswerOf(ws, ss, r, c, id).Recorded?
    ensures k < |ss|
  {
    if R.Fenced(ws, r, c, id) then c.rewrite else c.write
  }

  /** What the row says of each disposition. A failure that may be tried again leaves it ready, or dead when that was
      its last attempt. */
  predicate Tells(d: R.Disposition, permanent: bool, e: Execution) {
    match d
    case Succeeded => e.status == Success && e.reason == Some(HandlerConfirmed)
    case Stopped => e.status == Cancelled && e.reason == Some(HandlerConfirmed)
    case TimedOut => e.status == Dead && e.reason == Some(ReasonTimeout)
    case _ =>
      if permanent then e.status == Dead && e.reason == Some(PermanentFailure)
      else if e.attemptNo < e.maxAttempts then e.status == Ready && e.reason == None
      else e.status == Dead && e.reason == Some(BudgetExhausted)
  }

  lemma AppliedReport(compile: Tx.Compile, ws: seq<World>, ss: seq<Step>, k: nat, r: R.Report, h: Holder)
    requires Run(compile, ws, ss) && k < |ss| && ss[k].op == R.Write(r, h) && ws[k + 1].db != ws[k].db
    ensures h.id in ws[k + 1].db.execs && Tells(r.disposition, r.permanent, ws[k + 1].db.execs[h.id])
    ensures h.job in ws[k + 1].db.states && ws[k + 1].db.states[h.job].active == Free
  {
    LandingLaw(compile, ws, ss, k);
  }

  /** A report answered as recorded left the row telling what it said, and history too. */
  lemma RecordedReportLands(compile: Tx.Compile, ws: seq<World>, ss: seq<Step>, r: R.Report, c: R.Calls, id: int)
    requires Run(compile, ws, ss) && R.Made(ws, ss, r, c, id) && R.AnswerOf(ws, ss, r, c, id).Recorded?
    ensures var w' := ws[AppliedAt(ws, ss, r, c, id) + 1];
            && id in w'.db.execs && Tells(r.disposition, r.permanent, w'.db.execs[id])
            && (r.key, r.token) in w'.db.attempts
            && (w'.db.attempts[(r.key, r.token)].outcome == AttemptSuccess <==> r.disposition.Succeeded?)
            && w'.db.attempts[(r.key, r.token)].executor == r.executor
  {
    var k := AppliedAt(ws, ss, r, c, id);
    var at := if R.Fenced(ws, r, c, id) then c.reread else c.read;
    var h := R.ReadHolder(ws[at].db, r, id);
    assert ss[k].op == R.Write(r, h);
    AppliedReport(compile, ws, ss, k, r, h);
    EndingIsRecordedAs(compile, ws, ss, k);
  }

  /** A report delivered again after it was acknowledged is acknowledged again, whatever has become of the row. */
  lemma RedeliveryIsAcknowledged(compile: Tx.Compile, ws: seq<World>, ss: seq<Step>, r: R.Report, c: R.Calls, id: int,
                                 r': R.Report, c': R.Calls, id': int)
    requires Run(compile, ws, ss) && R.Made(ws, ss, r, c, id) && R.Made(ws, ss, r', c', id')
    requires R.AnswerOf(ws, ss, r, c, id).Recorded? || R.AnswerOf(ws, ss, r, c, id).AlreadyRecorded?
    requires r'.key == r.key && r'.token == r.token && !r'.disposition.Unspecified?
    requires R.AnsweredAt(ws, ss, r, c, id) <= c'.history
    ensures R.AnswerOf(ws, ss, r', c', id').AlreadyRecorded?
  {
    R.AcknowledgedIsRecorded(compile, ws, ss, r, c, id, c'.history);
  }
}
