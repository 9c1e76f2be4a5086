/** Where attempts land. Every transaction that ends an attempt, column by column: what the row becomes, what the job's
  row remembers, what history holds; and that a landing is final until an operator revives it. */
module Landing {
  import opened Rows
  import opened Schedules
  import opened Protocol
  import opened Preservation
  import opened RowSteps
  import opened Runs
  import opened Claiming
  import opened Holding
  import Tx = Transactions

  /** The shared tail: the job is free, its success or failure is stamped, a poller's clock restarts if its pass is
      over, the row is `e'`, and history holds the attempt unless it already did. */
  predicate Freed(db: Db, db': Db, job: JobName, id: int, e': Execution, succeeded: bool,
                  p: (ExecutionKey, Token), a: Attempt, now: Instant)
    requires job in db.states && job in db.defs
  {
    var st := db.states[job];
    && db'.defs == db.defs && db'.execs == db.execs[id := e']
    && db'.states == db.states[job := st.(active := Free, nextPollAt := ClockAfter(db, job, e', now),
                                          lastSuccessAt := if succeeded then Some(now) else st.lastSuccessAt,
                                          lastFailureAt := if succeeded then st.lastFailureAt else Some(now))]
    && db'.attempts == if p in db.attempts then db.attempts else db.attempts[p := a]
  }

  lemma FinishFrees(db: Db, job: JobName, id: int, key: ExecutionKey, token: Token, succeeded: bool, e: Execution,
                    sentTo: Option<Executor>, outcome: AttemptOutcome, now: Instant)
    requires job in db.states && job in db.defs && ValidDefinition(db.defs[job])
    ensures var tx := Tx.Finish(db, job, id, key, token, succeeded, e, sentTo, outcome, now);
            tx.Commit? && Freed(db, tx.db, job, id, e, succeeded, (key, token),
                                Attempt(e.attemptNo, sentTo, outcome, now), now)
  {
  }

  predicate Ordered(db: Db) {
    forall job :: job in db.states ==> job in db.defs && ValidDefinition(db.defs[job])
  }

  /** An attempt that was dispatched and never accepted is charged by its result. */
  function ChargedNo(e: Execution): int {
    e.attemptNo + if e.status == Dispatching then 1 else 0
  }

  function ChargedStart(e: Execution, now: Instant): Option<Instant> {
    if e.status == Dispatching then OrNow(e.startedAt, now) else e.startedAt
  }

  predicate ReportAdmitted(db: Db, h: Holder, utc: Clock) {
    && JobHeld(db, h.job, h.token, h.epoch) && RowCarries(db, h.id, h.token, h.epoch)
    && Started(db.execs[h.id]) && !Elapsed(db.execs[h.id].timeoutAt, utc)
  }

  // ----- reported results ----------------------------------------------------------------

  predicate Final(s: Status) {
    s == Success || s == Dead || s == Cancelled || s == Skipped
  }

  /** A reported ending lands as what was reported. */
  function CompletedRow(e: Execution, o: Tx.Outcome, now: Instant): Execution {
    e.(status := o.status, reason := Some(o.reason), finishedAt := Some(now), leaseUntil := None,
       attemptNo := ChargedNo(e), startedAt := ChargedStart(e, now))
  }

  predicate CompletedAs(db: Db, db': Db, h: Holder, o: Tx.Outcome, now: Instant, utc: Clock)
    requires Ordered(db)
  {
    if Final(o.status) && ReportAdmitted(db, h, utc) then
      var e' := CompletedRow(db.execs[h.id], o, now);
      Freed(db, db', h.job, h.id, e', o.status == Success, (h.key, h.token),
            Attempt(e'.attemptNo, o.executor, o.attempt, now), now)
    else db' == db
  }

  lemma CompleteLaw(db: Db, h: Holder, o: Tx.Outcome, now: Instant, utc: Clock)
    requires Ordered(db)
    ensures CompletedAs(db, Tx.After(db, Tx.Complete(db, h, o, now, utc)), h, o, now, utc)
  {
    if Final(o.status) && ReportAdmitted(db, h, utc) {
      FinishFrees(db, h.job, h.id, h.key, h.token, o.status == Success, CompletedRow(db.execs[h.id], o, now),
                  o.executor, o.attempt, now);
    }
  }

  /** A failure to be tried again: dead if that was the last attempt, ready with a fresh cap otherwise. */
  function RetriedRow(e: Execution, backoff: int, now: Instant): Execution {
    var spent := e.maxAttempts <= ChargedNo(e);
    e.(status := if spent then Dead else Ready, reason := if spent then Some(BudgetExhausted) else None,
       finishedAt := if spent then Some(now) else None,
       availableAt := if spent then e.availableAt else now + backoff * 1_000_000_000,
       timeoutAt := if spent then e.timeoutAt else None,
       attemptNo := ChargedNo(e), startedAt := ChargedStart(e, now),
       owner := None, dispatchedTo := None, runToken := None, leaseUntil := None, deadlineAt := None)
  }

  predicate RetriedAs(db: Db, db': Db, h: Holder, o: Tx.Outcome, backoff: int, now: Instant, utc: Clock)
    requires Ordered(db)
  {
    if ReportAdmitted(db, h, utc) then
      var e' := RetriedRow(db.execs[h.id], backoff, now);
      Freed(db, db', h.job, h.id, e', false, (h.key, h.token),
            Attempt(e'.attemptNo, o.executor, o.attempt, now), now)
    else db' == db
  }

  lemma RetryLaw(db: Db, h: Holder, o: Tx.Outcome, backoff: int, now: Instant, utc: Clock)
    requires Ordered(db)
    ensures RetriedAs(db, Tx.After(db, Tx.Retry(db, h, o, backoff, now, utc)), h, o, backoff, now, utc)
  {
    if ReportAdmitted(db, h, utc) {
      FinishFrees(db, h.job, h.id, h.key, h.token, false, RetriedRow(db.execs[h.id], backoff, now),
                  o.executor, o.attempt, now);
    }
  }

  // ----- attempts nobody can account for -------------------------------------------------

  /** A cancel wins; then the cap; then either budget; otherwise the work is to be done again. */
  function RecoveredStatus(e: Execution, utc: Clock): Status {
    if e.status == CancelRequested then Cancelled
    else if Elapsed(e.timeoutAt, utc) || e.maxAttempts <= e.attemptNo || e.maxRecoveries <= e.recoveryCount + 1
      then Dead
    else Ready
  }

  function RecoveredReason(e: Execution, utc: Clock): Option<TerminalReason> {
    if e.status == CancelRequested then Some(ReasonFenced)
    else if Elapsed(e.timeoutAt, utc) then Some(ReasonTimeout)
    else if e.maxAttempts <= e.attemptNo || e.maxRecoveries <= e.recoveryCount + 1 then Some(BudgetExhausted)
    else None
  }

  function RecoveredRow(e: Execution, backoff: int, now: Instant, utc: Clock): Execution {
    var again := RecoveredStatus(e, utc) == Ready;
    e.(status := RecoveredStatus(e, utc), reason := RecoveredReason(e, utc),
       finishedAt := if again then None else Some(now),
       availableAt := if again then now + backoff * 1_000_000_000 else e.availableAt,
       timeoutAt := if again then None else e.timeoutAt,
       recoveryCount := e.recoveryCount + 1, fenceEpoch := e.fenceEpoch + 1,
       owner := None, dispatchedTo := None, runToken := None, leaseUntil := None, deadlineAt := None)
  }

  predicate ResolvedAs(db: Db, db': Db, v: Stale, backoff: int, now: Instant, utc: Clock)
    requires Ordered(db)
  {
    if && JobHeld(db, v.job, v.token, v.epoch) && RowCarries(db, v.id, v.token, v.epoch) && Started(db.execs[v.id])
       && db.states[v.job].active.lease < utc
    then
      var e' := RecoveredRow(db.execs[v.id], backoff, now, utc);
      Freed(db, db', v.job, v.id, e', false, (v.key, v.token), Attempt(e'.attemptNo, v.sentTo, AttemptUnknown, now),
            now)
    else db' == db
  }

  lemma ResolveLaw(db: Db, v: Stale, backoff: int, now: Instant, utc: Clock)
    requires Ordered(db)
    ensures ResolvedAs(db, Tx.After(db, Tx.Resolve(db, v, backoff, now, utc)), v, backoff, now, utc)
  {
    if JobHeld(db, v.job, v.token, v.epoch) && RowCarries(db, v.id, v.token, v.epoch) {
      FinishFrees(db, v.job, v.id, v.key, v.token, false, RecoveredRow(db.execs[v.id], backoff, now, utc),
                  v.sentTo, AttemptUnknown, now);
    }
  }

  /** An attempt ended by a scheduler, under the next epoch: cancelled if that was asked for, dead otherwise. */
  function StoppedRow(e: Execution, reason: TerminalReason, now: Instant): Execution {
    var asked := e.status == CancelRequested;
    e.(status := if asked then Cancelled else Dead, reason := Some(if asked then ReasonFenced else reason),
       finishedAt := Some(now), fenceEpoch := e.fenceEpoch + 1, leaseUntil := None, deadlineAt := None)
  }

  predicate TimedOutAs(db: Db, db': Db, v: Stale, now: Instant)
    requires Ordered(db)
  {
    if JobHeld(db, v.job, v.token, v.epoch) && RowCarries(db, v.id, v.token, v.epoch) && Started(db.execs[v.id]) then
      var e' := StoppedRow(db.execs[v.id], ReasonTimeout, now);
      Freed(db, db', v.job, v.id, e', false, (v.key, v.token), Attempt(e'.attemptNo, v.sentTo, AttemptFenced, now), now)
    else db' == db
  }

  lemma TimeoutLaw(db: Db, v: Stale, now: Instant)
    requires Ordered(db)
    ensures TimedOutAs(db, Tx.After(db, Tx.FenceTimedOut(db, v, now)), v, now)
  {
    if JobHeld(db, v.job, v.token, v.epoch) && RowCarries(db, v.id, v.token, v.epoch) {
      FinishFrees(db, v.job, v.id, v.key, v.token, false, StoppedRow(db.execs[v.id], ReasonTimeout, now),
                  v.sentTo, AttemptFenced, now);
    }
  }

  predicate SilencedAs(db: Db, db': Db, v: Stale, now: Instant, utc: Clock)
    requires Ordered(db)
  {
    if && JobHeld(db, v.job, v.token, v.epoch) && RowCarries(db, v.id, v.token, v.epoch)
       && (db.execs[v.id].status == Running || db.execs[v.id].status == CancelRequested)
       && Elapsed(db.execs[v.id].deadlineAt, utc)
    then
      var e' := StoppedRow(db.execs[v.id], ReasonFenced, now);
      Freed(db, db', v.job, v.id, e', false, (v.key, v.token), Attempt(e'.attemptNo, v.sentTo, AttemptUnknown, now),
            now)
    else db' == db
  }

  lemma SilenceLaw(db: Db, v: Stale, now: Instant, utc: Clock)
    requires Ordered(db)
    ensures SilencedAs(db, Tx.After(db, Tx.ExpireSilent(db, v, now, utc)), v, now, utc)
  {
    if JobHeld(db, v.job, v.token, v.epoch) && RowCarries(db, v.id, v.token, v.epoch) {
      FinishFrees(db, v.job, v.id, v.key, v.token, false, StoppedRow(db.execs[v.id], ReasonFenced, now),
                  v.sentTo, AttemptUnknown, now);
    }
  }

  function ReleasedRow(e: Execution, now: Instant): Execution {
    StoppedRow(e, ReasonFenced, now).(recoveryCount := e.recoveryCount + 1, owner := None, dispatchedTo := None,
                                      runToken := None)
  }

  predicate ReleasedAs(db: Db, db': Db, h: Holder, now: Instant, utc: Clock)
    requires Ordered(db)
  {
    if && JobHeld(db, h.job, h.token, h.epoch) && RowCarries(db, h.id, h.token, h.epoch) && Started(db.execs[h.id])
       && db.execs[h.id].leaseUntil.Some? && utc <= db.execs[h.id].leaseUntil.value
    then
      var e' := ReleasedRow(db.execs[h.id], now);
      Freed(db, db', h.job, h.id, e', false, (h.key, h.token), Attempt(e'.attemptNo, None, AttemptUnknown, now), now)
    else db' == db
  }

  lemma ReleaseLaw(db: Db, h: Holder, now: Instant, utc: Clock)
    requires Ordered(db)
    ensures ReleasedAs(db, Tx.After(db, Tx.ReleaseAsOwner(db, h, now, utc)), h, now, utc)
  {
    if JobHeld(db, h.job, h.token, h.epoch) && RowCarries(db, h.id, h.token, h.epoch) {
      FinishFrees(db, h.job, h.id, h.key, h.token, false, ReleasedRow(db.execs[h.id], now), None, AttemptUnknown, now);
    }
  }

  // ----- over runs -----------------------------------------------------------------------

  /** Everything a step that ends an attempt does to the tables. */
  predicate EndEffect(s: Step, db: Db, db': Db)
    requires Ends(s.op) && Ordered(db)
  {
    match s.op
    case Complete(h, o) => CompletedAs(db, db', h, o, s.now, s.utc)
    case Retry(h, o, backoff) => RetriedAs(db, db', h, o, backoff, s.now, s.utc)
    case Resolve(v, backoff) => ResolvedAs(db, db', v, backoff, s.now, s.utc)
    case FenceTimedOut(v) => TimedOutAs(db, db', v, s.now)
    case ExpireSilent(v) => SilencedAs(db, db', v, s.now, s.utc)
    case ReleaseAsOwner(h) => ReleasedAs(db, db', h, s.now, s.utc)
  }

  lemma ReportTables(compile: Tx.Compile, db: Db, s: Step)
    requires Tx.Forward(compile) && Ordered(db) && (s.op.Complete? || s.op.Retry? || s.op.Resolve?)
    ensures EndEffect(s, db, Tables(compile, db, s))
  {
    match s.op
    case Complete(h, o) => CompleteLaw(db, h, o, s.now, s.utc);
    case Retry(h, o, backoff) => RetryLaw(db, h, o, backoff, s.now, s.utc);
    case Resolve(v, backoff) => ResolveLaw(db, v, backoff, s.now, s.utc);
  }

  lemma StopTables(compile: Tx.Compile, db: Db, s: Step)
    requires Tx.Forward(compile) && Ordered(db) && (s.op.FenceTimedOut? || s.op.ExpireSilent? || s.op.ReleaseAsOwner?)
    ensures EndEffect(s, db, Tables(compile, db, s))
  {
    match s.op
    case FenceTimedOut(v) => TimeoutLaw(db, v, s.now);
    case ExpireSilent(v) => SilenceLaw(db, v, s.now, s.utc);
    case ReleaseAsOwner(h) => ReleaseLaw(db, h, s.now, s.utc);
  }

  lemma InOrder(w: World)
    requires Inv(w)
    ensures Ordered(w.db)
  {
    forall job | job in w.db.states
      ensures job in w.db.defs && ValidDefinition(w.db.defs[job])
    {
      assert JobOk(w, job);
    }
  }

  /** A step that ends an attempt, in a run: it lands the row as its law says, under its condition, or does nothing. */
  lemma LandingLaw(compile: Tx.Compile, ws: seq<World>, ss: seq<Step>, k: nat)
    requires Run(compile, ws, ss) && k < |ss| && Ends(ss[k].op)
    ensures Ordered(ws[k].db) && EndEffect(ss[k], ws[k].db, ws[k + 1].db)
  {
    Reachable(compile, ws, ss, k);
    InOrder(ws[k]);
    assert Follows(compile, ws, ss, k);
    if ss[k].op.Complete? || ss[k].op.Retry? || ss[k].op.Resolve? {
      ReportTables(compile, ws[k].db, ss[k]);
    } else {
      StopTables(compile, ws[k].db, ss[k]);
    }
  }

  lemma TerminalStays(s: Step, id: int, e: Execution, e': Execution)
    requires Moves(s, id, e, e') && Final(e.status) && s.op != AuthorizedRetry(id)
    ensures e' == e
  {
  }

  /** A landing is final: a row that has ended stays as it is until an operator revives it. */
  lemma {:induction false} LandedStays(compile: Tx.Compile, ws: seq<World>, ss: seq<Step>, i: nat, j: nat, id: int)
    requires Run(compile, ws, ss) && i <= j < |ws| && id in ws[i].db.execs && Final(ws[i].db.execs[id].status)
    requires forall k :: i <= k < j ==> ss[k].op != AuthorizedRetry(id)
    ensures id in ws[j].db.execs && ws[j].db.execs[id] == ws[i].db.execs[id]
    decreases j
  {
    if i < j {
      LandedStays(compile, ws, ss, i, j - 1, id);
      MovesAt(compile, ws, ss, j - 1, id);
      TerminalStays(ss[j - 1], id, ws[j - 1].db.execs[id], ws[j].db.execs[id]);
    }
  }

  /** An attempt recovered past its cap is over: cancelled if that was asked for, dead of its timeout otherwise, and it
      stays so until an operator revives it. */
  lemma RecoveredPastCapIsOver(compile: Tx.Compile, ws: seq<World>, ss: seq<Step>, k: nat, j: nat, id: int)
    requires Run(compile, ws, ss) && k < j < |ws| && ss[k].op.Resolve? && ss[k].op.v.id == id
    requires ws[k + 1].db != ws[k].db && id in ws[k].db.execs && Elapsed(ws[k].db.execs[id].timeoutAt, ss[k].utc)
    requires forall i :: k < i < j ==> ss[i].op != AuthorizedRetry(id)
    ensures id in ws[j].db.execs
    ensures if ws[k].db.execs[id].status == CancelRequested then ws[j].db.execs[id].status == Cancelled
            else ws[j].db.execs[id].status == Dead && ws[j].db.execs[id].reason == Some(ReasonTimeout)
  {
    LandingLaw(compile, ws, ss, k);
    assert ws[k + 1].db.execs[id] == RecoveredRow(ws[k].db.execs[id], ss[k].op.backoff, ss[k].now, ss[k].utc);
    LandedStays(compile, ws, ss, k + 1, j, id);
  }
}
