/** Results: each attempt is ended and recorded once, and a report survives a change of owner. */
module Reports {
  import opened Rows
  import opened Schedules
  import opened Protocol
  import opened Preservation
  import opened RowSteps
  import opened Runs
  import opened Ownership
  import opened Budgets
  import Tx = Transactions

  /** A recorded attempt is never changed or forgotten. */
  lemma {:induction false} HistoryIsPermanent(compile: Tx.Compile, ws: seq<World>, ss: seq<Step>, i: nat, j: nat,
                                              p: (ExecutionKey, Token))
    requires Run(compile, ws, ss) && i <= j < |ws| && p in ws[i].db.attempts
    ensures p in ws[j].db.attempts && ws[j].db.attempts[p] == ws[i].db.attempts[p]
    decreases j - i
  {
    if i < j {
      HistoryIsPermanent(compile, ws, ss, i, j - 1, p);
      HistoryAt(compile, ws, ss, j - 1);
    }
  }

  /** The token was issued and nothing in flight carries it. */
  ghost predicate Quiet(w: World, token: Token) {
    token in w.issued && (forall id :: Flies(w.db, id) ==> w.db.execs[id].runToken != Some(token))
  }

  lemma {:induction false} QuietStays(compile: Tx.Compile, ws: seq<World>, ss: seq<Step>, i: nat, j: nat, token: Token)
    requires Run(compile, ws, ss) && i <= j < |ws| && Quiet(ws[i], token)
    ensures Quiet(ws[j], token)
    decreases j - i
  {
    if i < j {
      QuietStays(compile, ws, ss, i, j - 1, token);
      ClockAt(compile, ws, ss, j - 1);
      forall id | Flies(ws[j].db, id)
        ensures ws[j].db.execs[id].runToken != Some(token)
      {
        if ws[j].db.execs[id].runToken == Some(token) {
          FlightAt(compile, ws, ss, j - 1, id, token);
        }
      }
    }
  }

  lemma EndedRowLands(s: Step, id: int, e: Execution, e': Execution)
    requires Ends(s.op) && e' != e && Moves(s, id, e, e')
    ensures e.status.InFlight() && !e'.status.InFlight() && e.runToken == Some(HolderOf(s.op).token)
  {
  }

  /** A committed step that ends an attempt leaves its token quiet for good, and recorded. */
  lemma EndingQuiets(compile: Tx.Compile, ws: seq<World>, ss: seq<Step>, k: nat)
    requires Run(compile, ws, ss) && k < |ss| && Ends(ss[k].op) && ws[k + 1].db != ws[k].db
    ensures RunsUnder(ws[k].db, HolderOf(ss[k].op).id, HolderOf(ss[k].op).token, HolderOf(ss[k].op).epoch)
    ensures Quiet(ws[k + 1], HolderOf(ss[k].op).token)
    ensures (HolderOf(ss[k].op).key, HolderOf(ss[k].op).token) in ws[k + 1].db.attempts
  {
    var h := HolderOf(ss[k].op);
    GuardedAt(compile, ws, ss, k);
    HistoryAt(compile, ws, ss, k);
    Reachable(compile, ws, ss, k);
    ClockAt(compile, ws, ss, k);
    assert RowOk(ws[k], ws[k].db.execs[h.id]);
    MovesAt(compile, ws, ss, k, h.id);
    EndedRowMoved(compile, ws, ss, k);
    EndedRowLands(ss[k], h.id, ws[k].db.execs[h.id], ws[k + 1].db.execs[h.id]);
    var db' := ws[k + 1].db;
    forall id | Flies(db', id)
      ensures db'.execs[id].runToken != Some(h.token)
    {
      assert id != h.id && db'.execs[id] == ws[k].db.execs[id];
    }
  }

  lemma EndedRowMoved(compile: Tx.Compile, ws: seq<World>, ss: seq<Step>, k: nat)
    requires Run(compile, ws, ss) && k < |ss| && Ends(ss[k].op) && ws[k + 1].db != ws[k].db
    ensures Changed(ws, k, HolderOf(ss[k].op).id)
  {
    var h, db := HolderOf(ss[k].op), ws[k].db;
    assert Follows(compile, ws, ss, k);
    GuardedWrite(compile, db, ss[k]);
    var succeeded, e, sentTo, outcome := FinishForm(compile, db, ss[k]);
    FinishEffect(db, h.job, h.id, h.key, h.token, succeeded, e, sentTo, outcome, ss[k].now);
    Reachable(compile, ws, ss, k);
    Reachable(compile, ws, ss, k + 1);
    assert RowOk(ws[k], db.execs[h.id]);
    assert RowOk(ws[k + 1], ws[k + 1].db.execs[h.id]);
  }

  /** Result idempotence: in any run, at most one committed step ends the attempt a token names,
      whoever reports it and however often. */
  lemma EndedAtMostOnce(compile: Tx.Compile, ws: seq<World>, ss: seq<Step>, i: nat, j: nat)
    requires Run(compile, ws, ss) && i < j < |ss| && Ends(ss[i].op) && Ends(ss[j].op)
    requires HolderOf(ss[i].op).token == HolderOf(ss[j].op).token
    requires ws[i + 1].db != ws[i].db
    ensures ws[j + 1].db == ws[j].db
  {
    EndingQuiets(compile, ws, ss, i);
    QuietStays(compile, ws, ss, i + 1, j, HolderOf(ss[i].op).token);
    GuardedAt(compile, ws, ss, j);
    assert RunsUnder(ws[j].db, HolderOf(ss[j].op).id, HolderOf(ss[j].op).token, HolderOf(ss[j].op).epoch)
           ==> Flies(ws[j].db, HolderOf(ss[j].op).id);
  }

  /** No in-flight row carries a token that is already recorded for it. */
  lemma RecordedIsNotInFlight(compile: Tx.Compile, ws: seq<World>, ss: seq<Step>, i: nat, id: int)
    requires Run(compile, ws, ss) && i < |ws| && Flies(ws[i].db, id)
    ensures ws[i].db.execs[id].runToken.Some?
    ensures (ws[i].db.execs[id].key, ws[i].db.execs[id].runToken.value) !in ws[i].db.attempts
  {
    Reachable(compile, ws, ss, i);
    assert RowOk(ws[i], ws[i].db.execs[id]);
  }

  // ----- ReportResult --------------------------------------------------------------------

  datatype Disposition = Unspecified | Succeeded | Failed | Stopped | TimedOut

  datatype Decision = Decision(status: Status, reason: TerminalReason, attempt: AttemptOutcome, retryable: bool)

  /** What a reported disposition means for the row. Only a failure that is not permanent is tried
      again, and only a success counts as one. */
  function Classify(d: Disposition, permanent: bool): (r: Decision)
    ensures r.status.Terminal()
    ensures r.status.Success? <==> d.Succeeded?
    ensures r.attempt.AttemptSuccess? <==> d.Succeeded?
    ensures r.retryable <==> (d.Failed? || d.Unspecified?) && !permanent
  {
    match d
    case Succeeded => Decision(Success, HandlerConfirmed, AttemptSuccess, false)
    case Stopped => Decision(Cancelled, HandlerConfirmed, AttemptFailed, false)
    case TimedOut => Decision(Dead, ReasonTimeout, AttemptFailed, false)
    case _ => Decision(Dead, PermanentFailure, AttemptFailed, !permanent)
  }

  /** What an executor reports; `permanent` says whether the failure kind names a permanent one. */
  datatype Report = Report(key: ExecutionKey, token: Token, disposition: Disposition, permanent: bool,
                           executor: Option<Executor>, backoff: int)

  datatype Answer = Recorded | AlreadyRecorded | Aborted | Unknown | Invalid

  /** The store call that applies the report under a holder. */
  function Write(r: Report, h: Holder): Op {
    var d := Classify(r.disposition, r.permanent);
    var o := Tx.Outcome(d.status, d.reason, d.attempt, r.executor);
    if d.retryable then Retry(h, o, r.backoff) else Complete(h, o)
  }

  /** The holder a report assembles from the row it read. */
  function ReadHolder(db: Db, r: Report, id: int): Holder
    requires id in db.execs
  {
    Holder(db.execs[id].job, id, db.execs[id].key, 0, r.token, db.execs[id].fenceEpoch)
  }

  /** Where in the run the store calls of one report happened. Each is made only if the one before it left the
      question open; the others' positions mean nothing. Other instances act in between. */
  datatype Calls = Calls(history: nat, read: nat, write: nat, reread: nat, rewrite: nat, last: nat)

  /** The row a key names. */
  ghost predicate Named(db: Db, key: ExecutionKey, id: int) {
    id in db.execs && db.execs[id].key == key
  }

  /** The attempt is not in history yet, so the row is read: the one the key names, or none. */
  ghost predicate Missed(ws: seq<World>, r: Report, c: Calls) {
    !r.disposition.Unspecified? && c.history < |ws| && (r.key, r.token) !in ws[c.history].db.attempts
  }

  /** The row carries the report's token, so the report is written. */
  ghost predicate Current(ws: seq<World>, r: Report, c: Calls, id: int) {
    && Missed(ws, r, c) && c.read < |ws| && Named(ws[c.read].db, r.key, id)
    && ws[c.read].db.execs[id].runToken == Some(r.token)
  }

  /** The write changed nothing, so the row is read again. */
  ghost predicate Fenced(ws: seq<World>, r: Report, c: Calls, id: int) {
    Current(ws, r, c, id) && c.write + 1 < |ws| && ws[c.write + 1].db == ws[c.write].db
  }

  /** It still carries the token, under another epoch, so the report is written once more. */
  ghost predicate AdoptedMeanwhile(ws: seq<World>, r: Report, c: Calls, id: int) {
    && Fenced(ws, r, c, id) && c.reread < |ws| && Named(ws[c.reread].db, r.key, id)
    && ws[c.reread].db.execs[id].runToken == Some(r.token)
    && ws[c.reread].db.execs[id].fenceEpoch != ws[c.read].db.execs[id].fenceEpoch
  }

  /** No write changed anything, so history is asked again. */
  ghost predicate Lost(ws: seq<World>, r: Report, c: Calls, id: int) {
    && Fenced(ws, r, c, id)
    && (AdoptedMeanwhile(ws, r, c, id) ==> c.rewrite + 1 < |ws| && ws[c.rewrite + 1].db == ws[c.rewrite].db)
  }

  /** The calls of one report, for the execution `id` its key names if it names one, appear in the run. */
  ghost predicate Made(ws: seq<World>, ss: seq<Step>, r: Report, c: Calls, id: int) {
    && |ws| == |ss| + 1 && c.history < |ws|
    && (Missed(ws, r, c) ==>
          && c.history <= c.read < |ws|
          && (Named(ws[c.read].db, r.key, id) || forall x :: !Named(ws[c.read].db, r.key, x)))
    && (Current(ws, r, c, id) ==>
          c.read <= c.write < |ss| && ss[c.write].op == Write(r, ReadHolder(ws[c.read].db, r, id)))
    && (Fenced(ws, r, c, id) ==> c.write < c.reread < |ws|)
    && (AdoptedMeanwhile(ws, r, c, id) ==>
          c.reread <= c.rewrite < |ss| && ss[c.rewrite].op == Write(r, ReadHolder(ws[c.reread].db, r, id)))
    && (Lost(ws, r, c, id) ==>
          c.reread <= c.last < |ws| && (AdoptedMeanwhile(ws, r, c, id) ==> c.rewrite < c.last))
  }

  ghost function AnswerOf(ws: seq<World>, ss: seq<Step>, r: Report, c: Calls, id: int): Answer
    requires Made(ws, ss, r, c, id)
  {
    if r.disposition.Unspecified? then Invalid
    else if !Missed(ws, r, c) then AlreadyRecorded
    else if !Named(ws[c.read].db, r.key, id) then Unknown
    else if !Current(ws, r, c, id) then Aborted
    else if !Lost(ws, r, c, id) then Recorded
    else if (r.key, r.token) in ws[c.last].db.attempts then AlreadyRecorded
    else Aborted
  }

  /** The world in which the report is answered. */
  ghost function AnsweredAt(ws: seq<World>, ss: seq<Step>, r: Report, c: Calls, id: int): (k: nat)
    requires Made(ws, ss, r, c, id)
    ensures k < |ws|
  {
    if !Missed(ws, r, c) then c.history
    else if !Current(ws, r, c, id) then c.read
    else if !Fenced(ws, r, c, id) then c.write + 1
    else if !Lost(ws, r, c, id) then c.rewrite + 1
    else c.last
  }

  /** A committed write of a report puts its token into history for good. */
  lemma WrittenIsRecorded(compile: Tx.Compile, ws: seq<World>, ss: seq<Step>, r: Report, h: Holder, k: nat, last: nat)
    requires Run(compile, ws, ss) && k < last < |ws| && ws[k + 1].db != ws[k].db
    requires ss[k].op == Write(r, h) && h.key == r.key && h.token == r.token
    ensures (r.key, r.token) in ws[last].db.attempts
  {
    HistoryAt(compile, ws, ss, k);
    HistoryIsPermanent(compile, ws, ss, k + 1, last, (r.key, r.token));
  }

  /** An acknowledged report is recorded: history holds the attempt when the answer is given and ever after,
      whether or not the report wrote anything. */
  lemma AcknowledgedIsRecorded(compile: Tx.Compile, ws: seq<World>, ss: seq<Step>, r: Report, c: Calls, id: int, j: nat)
    requires Run(compile, ws, ss) && Made(ws, ss, r, c, id)
    requires AnswerOf(ws, ss, r, c, id).Recorded? || AnswerOf(ws, ss, r, c, id).AlreadyRecorded?
    requires AnsweredAt(ws, ss, r, c, id) <= j < |ws|
    ensures (r.key, r.token) in ws[j].db.attempts
  {
    var p := (r.key, r.token);
    if !Missed(ws, r, c) {
      HistoryIsPermanent(compile, ws, ss, c.history, j, p);
    } else if !Fenced(ws, r, c, id) {
      WrittenIsRecorded(compile, ws, ss, r, ReadHolder(ws[c.read].db, r, id), c.write, j);
    } else if !Lost(ws, r, c, id) {
      WrittenIsRecorded(compile, ws, ss, r, ReadHolder(ws[c.reread].db, r, id), c.rewrite, j);
    } else {
      HistoryIsPermanent(compile, ws, ss, c.last, j, p);
    }
  }

  /** A report under the hold the row is in flight under, before its cap, always commits. */
  lemma CurrentReportCommits(compile: Tx.Compile, ws: seq<World>, ss: seq<Step>, k: nat, r: Report, id: int)
    requires Run(compile, ws, ss) && k < |ss| && id in ws[k].db.execs
    requires RunsUnder(ws[k].db, id, r.token, ws[k].db.execs[id].fenceEpoch) && !PastCap(ws[k].db.execs[id], ss[k].utc)
    requires ss[k].op == Write(r, ReadHolder(ws[k].db, r, id))
    ensures ws[k + 1].db != ws[k].db
  {
    Reachable(compile, ws, ss, k);
    var w, e := ws[k], ws[k].db.execs[id];
    assert RowOk(w, e) && JobOk(w, e.job);
    assert Follows(compile, ws, ss, k);
    var h := ReadHolder(w.db, r, id);
    assert Tx.Reportable(w.db, h, ss[k].utc);
    var charged := Tx.Charged(e, ss[k].now);
    var d := Classify(r.disposition, r.permanent);
    var e' := if d.retryable then Tx.Retried(charged, r.backoff, ss[k].now)
              else Tx.Ended(charged, d.status, d.reason, ss[k].now).(leaseUntil := None);
    var succeeded := !d.retryable && d.status.Success?;
    FinishCommits(w.db, h.job, id, h.key, h.token, succeeded, e', r.executor, d.attempt, ss[k].now);
  }

  lemma FinishCommits(db: Db, job: JobName, id: int, key: ExecutionKey, token: Token, succeeded: bool,
                      e: Execution, sentTo: Option<Executor>, outcome: AttemptOutcome, now: Instant)
    requires job in db.states && job in db.defs && ValidDefinition(db.defs[job])
    requires id in db.execs && e != db.execs[id]
    ensures var tx := Tx.Finish(db, job, id, key, token, succeeded, e, sentTo, outcome, now);
            tx.Commit? && tx.db != db
  {
  }

  /** Adoption does not lose a result: if the attempt stays in flight under its token and below its
      cap until the report's last write, and its owner changes at most once more before it is
      re-read, the report is recorded. */
  lemma ReportSurvivesAdoption(compile: Tx.Compile, ws: seq<World>, ss: seq<Step>, r: Report, c: Calls, id: int)
    requires Run(compile, ws, ss) && Made(ws, ss, r, c, id) && Current(ws, r, c, id)
    requires Flies(ws[c.write].db, id) && ws[c.write].db.execs[id].runToken == Some(r.token)
    requires !PastCap(ws[c.write].db.execs[id], ss[c.write].utc)
    requires Fenced(ws, r, c, id) ==> InFlightAt(ws, ss, r, c, id)
    ensures AnswerOf(ws, ss, r, c, id) == Recorded
  {
    if ws[c.write].db.execs[id].fenceEpoch == ws[c.read].db.execs[id].fenceEpoch {
      ExecutionEpochs(compile, ws, ss, c.read, c.write, id);
      CurrentReportCommits(compile, ws, ss, c.write, r, id);
    } else if Fenced(ws, r, c, id) {
      EpochMoved(compile, ws, ss, r, c, id);
      ExecutionEpochs(compile, ws, ss, c.reread, c.rewrite, id);
      CurrentReportCommits(compile, ws, ss, c.rewrite, r, id);
    }
  }

  /** At the second write the attempt is in flight under its token, below its cap and under the epoch last
      read. */
  ghost predicate InFlightAt(ws: seq<World>, ss: seq<Step>, r: Report, c: Calls, id: int) {
    && c.reread <= c.rewrite < |ss| && |ws| == |ss| + 1
    && Flies(ws[c.rewrite].db, id) && ws[c.rewrite].db.execs[id].runToken == Some(r.token)
    && id in ws[c.reread].db.execs && ws[c.rewrite].db.execs[id].fenceEpoch == ws[c.reread].db.execs[id].fenceEpoch
    && !PastCap(ws[c.rewrite].db.execs[id], ss[c.rewrite].utc)
  }

  lemma EpochMoved(compile: Tx.Compile, ws: seq<World>, ss: seq<Step>, r: Report, c: Calls, id: int)
    requires Run(compile, ws, ss) && Made(ws, ss, r, c, id) && Fenced(ws, r, c, id) && InFlightAt(ws, ss, r, c, id)
    requires Flies(ws[c.write].db, id) && ws[c.write].db.execs[id].runToken == Some(r.token)
    requires ws[c.write].db.execs[id].fenceEpoch != ws[c.read].db.execs[id].fenceEpoch
    ensures AdoptedMeanwhile(ws, r, c, id)
  {
    ExecutionEpochs(compile, ws, ss, c.read, c.write, id);
    ExecutionEpochs(compile, ws, ss, c.write, c.reread, id);
    ExecutionEpochs(compile, ws, ss, c.reread, c.rewrite, id);
    CarriedBefore(compile, ws, ss, c.reread, c.rewrite, id, r.token, c.write);
  }

  /** A row in flight under a token issued earlier carried it all along. */
  lemma {:induction false} CarriedBefore(compile: Tx.Compile, ws: seq<World>, ss: seq<Step>, i: nat, j: nat, id: int,
                                         token: Token, from: nat)
    requires Run(compile, ws, ss) && from <= i <= j < |ws|
    requires Flies(ws[from].db, id) && ws[from].db.execs[id].runToken == Some(token)
    requires Flies(ws[j].db, id) && ws[j].db.execs[id].runToken == Some(token)
    ensures Flies(ws[i].db, id) && ws[i].db.execs[id].runToken == Some(token)
    decreases j - i
  {
    if i < j {
      IssuedStays(compile, ws, ss, from, j - 1, id, token);
      FlightAt(compile, ws, ss, j - 1, id, token);
      CarriedBefore(compile, ws, ss, i, j - 1, id, token, from);
    }
  }
}
