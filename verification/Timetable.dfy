/** The parts together: an installation whose schedules are compiled from parsed expressions by the cron
  engine, and what becomes of every match of an expression. */
module Timetable {
  import opened Rows
  import opened Schedules
  import opened Calendar
  import opened Zones
  import opened Fires
  import opened Cron
  import opened CronParse
  import opened CronText
  import opened CronMeaning
  import opened CronEngine
  import opened Protocol
  import opened PollPace
  import opened CronFires
  import Tx = Transactions

  /** The tables of an accepted text. */
  ghost function TablesOf(text: string): Expression
    requires Accepts(text)
  {
    Denoted(Read(text).value)
  }

  /** Every definition's expression is a text the parser accepts. */
  ghost predicate Parsed(texts: int -> string) {
    forall x :: Accepts(texts(x))
  }

  /** The engine's compiler in one zone. */
  ghost function CompileIn(texts: int -> string, z: Zone): Tx.Compile
    requires Parsed(texts) && Regular(z)
  {
    x => Compiled(TablesOf(texts(x)), z)
  }

  /** Whatever the parser accepted, in any regular zone, the store's assumption on schedules holds. */
  lemma CompilesForward(texts: int -> string, z: Zone)
    requires Parsed(texts) && Regular(z)
    ensures Tx.Forward(CompileIn(texts, z))
  {
    forall x
      ensures Onward(CompileIn(texts, z)(x))
    {
      CompiledSchedule(TablesOf(texts(x)), z);
    }
  }

  /** The readings of the job's expression. */
  ghost function MatchesOf(texts: int -> string, d: Definition): int -> bool
    requires Parsed(texts)
  {
    Readings(TablesOf(texts(d.expr)))
  }

  /** They are the dates and times the job's text says. */
  lemma MatchIsSaid(texts: int -> string, d: Definition, n: int)
    requires Parsed(texts)
    ensures MatchesOf(texts, d)(n) <==> TextSays(texts(d.expr), CivilOf(n))
  {
    var f := Read(texts(d.expr)).value;
    FineIsOk(f);
    TablesMean(f, CivilOf(n));
  }

  /** No match is lost. Let a job tick under an expression whose matches no clock change in its zone swallows.
      Then every instant at which a matching wall-clock reading falls, and which the job's clock has passed,
      has its execution or was passed over with an excuse; whatever the other jobs' expressions are. */
  lemma NoMatchLost(texts: int -> string, z: Zone, ws: seq<World>, ss: seq<Step>, i: nat, n: nat, job: JobName,
                    d: Definition, k: int)
    requires Parsed(texts) && Regular(z) && Run(CompileIn(texts, z), ws, ss) && i <= n < |ws|
    requires forall start :: !Overlooks(MatchesOf(texts, d), z, start)
    requires Ticking(CompileIn(texts, z), ws[i].db, job, d) && Unedited(ws, i, n, job, d) && Harmless(ws, ss, i, n, job)
    requires FiresAt(MatchesOf(texts, d), z, k) && Clocked(ws[i].db, job) <= k * SECOND < Clocked(ws[n].db, job)
    ensures || Tx.KeyTaken(ws[n].db, CronKey(job, k * SECOND))
            || (exists j :: i <= j < n && PassedOver(CompileIn(texts, z), ws, ss, j, job, d, k * SECOND))
  {
    var compile := CompileIn(texts, z);
    CompiledSchedule(TablesOf(texts(d.expr)), z);
    assert compile(d.expr) == Compiled(TablesOf(texts(d.expr)), z);
    NoFireLost(compile, ws, ss, i, n, job, d, k * SECOND);
  }
}
