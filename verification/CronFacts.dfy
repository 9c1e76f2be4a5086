/** What the cron search promises of its expressions: it always answers; and a job for which its answer is
  not the first fire. */
module CronFacts {
  import opened Rows
  import opened Schedules
  import opened Calendar
  import opened Zones
  import opened Fires
  import opened Cron

  /** A date that matches somewhere matches again within any eight years. */
  lemma MatchesSoon(e: Expression, c0: Civil, year: int) returns (c: Civil)
    requires Shaped(e) && Valid(c0) && Matches(e, c0)
    ensures Valid(c) && Matches(e, c) && year <= c.year < year + 8
  {
    var leap := NextLeap(year);
    if e.domRestricted ==> e.dom[c0.day] {
      if e.dowRestricted && !e.domRestricted {
        c := c0.(year := year, day := FirstDay(year, c0.month, Weekday(c0.year, c0.month, c0.day)));
      } else {
        c := c0.(year := leap);
      }
    } else {
      c := c0.(year := year, day := FirstDay(year, c0.month, Weekday(c0.year, c0.month, c0.day)));
    }
  }

  lemma YearBounds(c: Civil)
    requires Valid(c)
    ensures DAY * DaysBeforeYear(c.year) <= Seconds(c) < DAY * DaysBeforeYear(c.year + 1)
  {
    MonthStep(c.month, c.year);
    MonthsGrow(c.month + 1, 13, c.year);
    LeapDays(c.year);
  }

  /** So a candidate lies within the search limit, and far enough ahead for any offset. */
  lemma CandidateInTime(e: Expression, z: Zone, start: int) returns (n: int)
    requires Shaped(e) && Regular(z) && Satisfiable(e)
    ensures Candidate(Readings(e), z, start, n) && n <= Wall(z, start - 1 + SEARCH_LIMIT)
  {
    var c0 :| Valid(c0) && Matches(e, c0);
    var now := CivilOf(Wall(z, start));
    var c := MatchesSoon(e, c0, now.year + 2);
    n := Seconds(c);
    MatchesHere(e, c);
    YearBounds(now);
    YearBounds(c);
    YearsGrow(now.year + 1, now.year + 2);
    YearsGrow(now.year + 2, c.year);
    YearsGrow(now.year, now.year + 10);
    YearsGrow(c.year + 1, now.year + 10);
  }

  /** The search limit is never what ends a search: every expression that matches anything has a fire
      within it. */
  lemma SearchNeverFails(e: Expression, z: Zone, start: int)
    requires Shaped(e) && Regular(z) && Satisfiable(e)
    ensures !Answers(Readings(e), z, start, None)
  {
    var n := CandidateInTime(e, z, start);
  }

  const HALF_PAST_TWO := Expression(seq(60, i => i == 0), seq(60, i => i == 30), seq(24, i => i == 2),
                                    seq(32, _ => true), seq(13, _ => true), seq(7, _ => true), false, false)

  lemma OnlyHalfPastTwo(c: Civil)
    requires Valid(c)
    ensures Shaped(HALF_PAST_TWO)
    ensures Matches(HALF_PAST_TWO, c) <==> c.hour == 2 && c.min == 30 && c.sec == 0
  {
  }

  function SpringForward(jump: int): Zone {
    Zone(t => if t < jump then 0 else 3600)
  }

  lemma SpringForwardIsRegular(jump: int)
    ensures Regular(SpringForward(jump))
  {
  }

  lemma LaterThatDay(c: Civil, d: Civil)
    requires Valid(c) && SameDay(c, d)
    ensures Seconds(d) == Seconds(c) + 3600 * (d.hour - c.hour) + 60 * (d.min - c.min) + d.sec - c.sec
  {
  }

  /** A reading later on the day of `c` is good exactly if it reads half past two. */
  lemma HalfPastTwoAt(c: Civil, d: Civil, n: int)
    requires Valid(c) && Valid(d) && SameDay(c, d)
    requires n == Seconds(c) + 3600 * (d.hour - c.hour) + 60 * (d.min - c.min) + d.sec - c.sec
    ensures Shaped(HALF_PAST_TWO)
    ensures Readings(HALF_PAST_TWO)(n) <==> d.hour == 2 && d.min == 30 && d.sec == 0
  {
    LaterThatDay(c, d);
    OnlyHalfPastTwo(d);
    MatchesHere(HALF_PAST_TWO, d);
  }

  lemma SpringOverlooks(good: int -> bool, start: int)
    requires good(start + 1800) && !good(start + 3600)
    ensures Regular(SpringForward(start)) && Overlooks(good, SpringForward(start), start)
  {
    SpringForwardIsRegular(start);
    OverlookedReading(good, SpringForward(start), start, start + 1800);
  }

  /** Daily at half past two, where clocks go from two to three: asked within the last second before the
      jump, the search overlooks that day's fire. */
  lemma SpringForwardIsOverlooked(two: Civil, start: int)
    requires Valid(two) && two.hour == 2 && two.min == 0 && two.sec == 0 && start == Seconds(two)
    ensures Shaped(HALF_PAST_TWO) && Regular(SpringForward(start))
    ensures Overlooks(Readings(HALF_PAST_TWO), SpringForward(start), start)
  {
    HalfPastTwoAt(two, two.(min := 30), start + 1800);
    HalfPastTwoAt(two, two.(hour := 3), start + 3600);
    SpringOverlooks(Readings(HALF_PAST_TWO), start);
  }
}
