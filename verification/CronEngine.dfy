/** The schedule an expression compiles to, as the search computes it: always later, and exact unless a clock
  change swallows a match. */
module CronEngine {
  import opened Rows
  import opened Schedules
  import opened Zones
  import opened Fires
  import opened Cron
  import opened CronFacts

  /** What the engine schedules: an expression that matches something, in a regular zone. */
  ghost predicate Fireable(e: Expression, z: Zone) {
    Shaped(e) && Satisfiable(e) && Regular(z)
  }

  lemma HasAnswer(e: Expression, z: Zone, start: int)
    requires Fireable(e, z)
    ensures exists f :: Answers(Readings(e), z, start, Some(f))
  {
    var n := CandidateInTime(e, z, start);
    var f := AnswerExists(Readings(e), z, start, n);
  }

  ghost function NextInstant(e: Expression, z: Zone, after: Instant): Instant
    requires Fireable(e, z)
  {
    HasAnswer(e, z, StartOf(after));
    var f :| Answers(Readings(e), z, StartOf(after), Some(f));
    f * SECOND
  }

  ghost function Compiled(e: Expression, z: Zone): Schedule
    requires Fireable(e, z)
  {
    Schedule(t => NextInstant(e, z, t))
  }

  lemma NextInstantAnswers(e: Expression, z: Zone, t: Instant)
    requires Fireable(e, z)
    ensures NextInstant(e, z, t) % SECOND == 0 && t < NextInstant(e, z, t)
    ensures Answers(Readings(e), z, StartOf(t), Some(NextInstant(e, z, t) / SECOND))
  {
    HasAnswer(e, z, StartOf(t));
    var f :| Answers(Readings(e), z, StartOf(t), Some(f)) && NextInstant(e, z, t) == f * SECOND;
    AnswerNotBefore(Readings(e), z, StartOf(t), f);
    StartsAfter(t, f);
  }

  /** Every compiled schedule goes onwards, and it is exact with the expression's fires exactly when no forward
      jump of the clock swallows a match without landing on one. */
  lemma CompiledSchedule(e: Expression, z: Zone)
    requires Fireable(e, z)
    ensures Onward(Compiled(e, z)) && Computes(Readings(e), z, Compiled(e, z))
    ensures Represents(Readings(e), z, Compiled(e, z)) <==> forall start :: !Overlooks(Readings(e), z, start)
  {
    forall t
      ensures Compiled(e, z).next(t) == NextInstant(e, z, t) && NextInstant(e, z, t) % SECOND == 0
      ensures t < NextInstant(e, z, t)
      ensures Answers(Readings(e), z, StartOf(t), Some(NextInstant(e, z, t) / SECOND))
    {
      NextInstantAnswers(e, z, t);
    }
    RepresentsIff(Readings(e), z, Compiled(e, z));
  }

  /** The next fire strictly after an instant: of an expression that matches anything there is always one, and
      it is the compiled schedule's; it is the least fire after the instant exactly when the search does not
      start where a match was swallowed. An expression that matches nothing is told apart by its answer. */
  method Next(e: Expression, z: Zone, after: Instant) returns (r: Option<Instant>)
    requires Shaped(e) && Regular(z)
    ensures r.Some? <==> Satisfiable(e)
    ensures r.Some? ==> r.value % SECOND == 0 && after < r.value && r.value == Compiled(e, z).next(after)
    ensures r.Some? ==>
            (FirstFire(Readings(e), z, StartOf(after), r.value / SECOND) <==>
              !Overlooks(Readings(e), z, StartOf(after)))
  {
    var start := StartOf(after);
    var found := Search(e, z, start);
    if found.None? {
      if Satisfiable(e) { SearchNeverFails(e, z, start); }
      return None;
    }
    AnswerMeansMatch(e, z, start, found.value);
    NextInstantAnswers(e, z, after);
    AnswerUnique(Readings(e), z, start, found.value, NextInstant(e, z, after) / SECOND);
    AnswerIsFirstIff(Readings(e), z, start, found.value);
    StartsAfter(after, found.value);
    r := Some(found.value * SECOND);
  }

  lemma AnswerMeansMatch(e: Expression, z: Zone, start: int, f: int)
    requires Shaped(e) && Answers(Readings(e), z, start, Some(f))
    ensures Satisfiable(e)
  {
    var n :| Candidate(Readings(e), z, start, n);
    assert MatchesAt(e, n);
  }
}
