/** Operator requests: a request id names one execution of one job, however often it is repeated. */
module Requests {
  import opened Rows
  import opened Schedules
  import opened Protocol
  import opened Preservation
  import opened RowSteps
  import opened Runs
  import Tx = Transactions

  predicate ServesRequest(db: Db, id: int, request: int) {
    id in db.execs && db.execs[id].key.ManualKey? && db.execs[id].key.request == request
  }

  /** A manual row is inserted only for a request nothing serves yet. */
  lemma InsertedForNewRequest(compile: Tx.Compile, db: Db, s: Step, id: int, b: int, request: int)
    requires Tx.Forward(compile) && id !in db.execs
    requires s.op.TriggerRun? || s.op.MaterializeCron? || s.op.MaterializePoll?
    requires ServesRequest(Tables(compile, db, s), id, request)
    ensures !ServesRequest(db, b, request)
  {
  }

  lemma InsertedAt(compile: Tx.Compile, ws: seq<World>, ss: seq<Step>, k: nat, id: int, b: int, request: int)
    requires Run(compile, ws, ss) && k < |ss| && id !in ws[k].db.execs && ServesRequest(ws[k + 1].db, id, request)
    ensures !ServesRequest(ws[k].db, b, request)
  {
    InsertsAt(compile, ws, ss, k, id);
    assert Follows(compile, ws, ss, k);
    InsertedForNewRequest(compile, ws[k].db, ss[k], id, b, request);
  }

  lemma ServedBefore(compile: Tx.Compile, ws: seq<World>, ss: seq<Step>, k: nat, id: int, request: int)
    requires Run(compile, ws, ss) && k < |ss| && id in ws[k].db.execs && ServesRequest(ws[k + 1].db, id, request)
    ensures ServesRequest(ws[k].db, id, request)
  {
    MovesAt(compile, ws, ss, k, id);
  }

  /** In every world of every run, two executions that serve one request are one execution: a repeated request
      starts nothing twice, and never serves a second job. */
  lemma {:induction false} OneExecutionPerRequest(compile: Tx.Compile, ws: seq<World>, ss: seq<Step>, i: nat, a: int,
                                                  b: int, request: int)
    requires Run(compile, ws, ss) && i < |ws| && ServesRequest(ws[i].db, a, request)
    requires ServesRequest(ws[i].db, b, request)
    ensures a == b
  {
    if i > 0 {
      var k := i - 1;
      if a in ws[k].db.execs { ServedBefore(compile, ws, ss, k, a, request); }
      if b in ws[k].db.execs { ServedBefore(compile, ws, ss, k, b, request); }
      if a in ws[k].db.execs && b in ws[k].db.execs {
        OneExecutionPerRequest(compile, ws, ss, k, a, b, request);
      } else if a !in ws[k].db.execs && b !in ws[k].db.execs {
        InsertsAt(compile, ws, ss, k, a);
        InsertsAt(compile, ws, ss, k, b);
      } else if a !in ws[k].db.execs {
        InsertedAt(compile, ws, ss, k, a, b, request);
      } else {
        InsertedAt(compile, ws, ss, k, b, a, request);
      }
    }
  }
}
