/** Six-field cron expressions, and the search for their next fire in a time zone. */
module Cron {
  import opened Rows
  import opened Schedules
  import opened Calendar
  import opened Zones
  import opened Fires

  datatype Expression = Expression(
    second: seq<bool>, minute: seq<bool>, hour: seq<bool>, dom: seq<bool>, month: seq<bool>, dow: seq<bool>,
    domRestricted: bool, dowRestricted: bool)

  /** The field tables are as long as their ranges; days and months count from one, Sunday is zero. */
  predicate Shaped(e: Expression) {
    && |e.second| == 60 && |e.minute| == 60 && |e.hour| == 24 && |e.dom| == 32 && |e.month| == 13 && |e.dow| == 7
  }

  predicate MatchesDay(e: Expression, year: int, month: int, day: int)
    requires Shaped(e) && 1 <= month <= 12 && 1 <= day <= 31
  {
    var dom, dow := e.dom[day], e.dow[Weekday(year, month, day)];
    if e.domRestricted && e.dowRestricted then dom || dow
    else if e.domRestricted then dom
    else if e.dowRestricted then dow
    else true
  }

  predicate Matches(e: Expression, c: Civil)
    requires Shaped(e) && Valid(c)
  {
    && e.month[c.month] && MatchesDay(e, c.year, c.month, c.day)
    && e.hour[c.hour] && e.minute[c.min] && e.second[c.sec]
  }

  ghost predicate MatchesAt(e: Expression, n: int)
    requires Shaped(e)
  {
    Matches(e, CivilOf(n))
  }

  /** The readings that match. */
  ghost function Readings(e: Expression): int -> bool
    requires Shaped(e)
  {
    n => MatchesAt(e, n)
  }

  ghost predicate Satisfiable(e: Expression)
    requires Shaped(e)
  {
    exists c :: Valid(c) && Matches(e, c)
  }

  // ----- the search ----------------------------------------------------------------------

  /** A cursor that fails at some field may jump over everything that shares it. */
  lemma JumpOver(e: Expression, t: Civil, n: int)
    requires Shaped(e) && Valid(t) && Seconds(t) <= n
    ensures Valid(NextMonth(t)) && Seconds(t) < Seconds(NextMonth(t))
    ensures !e.month[t.month] && n < Seconds(NextMonth(t)) ==> !MatchesAt(e, n)
    ensures Valid(NextDay(t)) && Seconds(t) < Seconds(NextDay(t))
    ensures !MatchesDay(e, t.year, t.month, t.day) && n < Seconds(NextDay(t)) ==> !MatchesAt(e, n)
    ensures Valid(NextHour(t)) && Seconds(t) < Seconds(NextHour(t))
    ensures !e.hour[t.hour] && n < Seconds(NextHour(t)) ==> !MatchesAt(e, n)
    ensures Valid(NextMinute(t)) && Seconds(t) < Seconds(NextMinute(t))
    ensures !e.minute[t.min] && n < Seconds(NextMinute(t)) ==> !MatchesAt(e, n)
  {
    var c := CivilOf(n);
    OrderAgrees(c, t);
    JumpsSkipOnlyTheirStretch(t, c);
    Ordered(t, NextMonth(t), c);
    Ordered(t, NextDay(t), c);
    Ordered(t, NextHour(t), c);
    Ordered(t, NextMinute(t), c);
  }

  lemma Ordered(t: Civil, t': Civil, c: Civil)
    requires Valid(t) && Valid(t') && Valid(c) && Before(t, t')
    ensures Seconds(t) < Seconds(t') && (Before(c, t') <==> Seconds(c) < Seconds(t'))
  {
    OrderAgrees(t, t');
    OrderAgrees(c, t');
  }

  lemma BarrenMonth(e: Expression, t: Civil)
    requires Shaped(e) && Valid(t) && !e.month[t.month]
    ensures Valid(NextMonth(t)) && Seconds(t) < Seconds(NextMonth(t))
    ensures Barren(Readings(e), Seconds(t), Seconds(NextMonth(t)))
  {
    JumpOver(e, t, Seconds(t));
    forall n | Seconds(t) <= n < Seconds(NextMonth(t))
      ensures !Readings(e)(n)
    {
      JumpOver(e, t, n);
    }
  }

  lemma BarrenDay(e: Expression, t: Civil)
    requires Shaped(e) && Valid(t) && !MatchesDay(e, t.year, t.month, t.day)
    ensures Valid(NextDay(t)) && Seconds(t) < Seconds(NextDay(t))
    ensures Barren(Readings(e), Seconds(t), Seconds(NextDay(t)))
  {
    JumpOver(e, t, Seconds(t));
    forall n | Seconds(t) <= n < Seconds(NextDay(t))
      ensures !Readings(e)(n)
    {
      JumpOver(e, t, n);
    }
  }

  lemma BarrenHour(e: Expression, t: Civil)
    requires Shaped(e) && Valid(t) && !e.hour[t.hour]
    ensures Valid(NextHour(t)) && Seconds(t) < Seconds(NextHour(t))
    ensures Barren(Readings(e), Seconds(t), Seconds(NextHour(t)))
  {
    JumpOver(e, t, Seconds(t));
    forall n | Seconds(t) <= n < Seconds(NextHour(t))
      ensures !Readings(e)(n)
    {
      JumpOver(e, t, n);
    }
  }

  lemma BarrenMinute(e: Expression, t: Civil)
    requires Shaped(e) && Valid(t) && !e.minute[t.min]
    ensures Valid(NextMinute(t)) && Seconds(t) < Seconds(NextMinute(t))
    ensures Barren(Readings(e), Seconds(t), Seconds(NextMinute(t)))
  {
    JumpOver(e, t, Seconds(t));
    forall n | Seconds(t) <= n < Seconds(NextMinute(t))
      ensures !Readings(e)(n)
    {
      JumpOver(e, t, n);
    }
  }

  lemma MatchesHere(e: Expression, t: Civil)
    requires Shaped(e) && Valid(t)
    ensures MatchesAt(e, Seconds(t)) == Matches(e, t)
  {
    RoundTrip(t);
  }

  /** One move of the cursor: past the month, day, hour, minute or second that cannot match, or, where
      everything matches, past the second it stands on. */
  method Step(e: Expression, t: Civil) returns (matched: bool, t': Civil)
    requires Shaped(e) && Valid(t)
    ensures matched == Readings(e)(Seconds(t))
    ensures Valid(t') && Seconds(t) < Seconds(t') && Barren(Readings(e), Seconds(t) + 1, Seconds(t'))
  {
    MatchesHere(e, t);
    matched := false;
    if !e.month[t.month] {
      BarrenMonth(e, t);
      t' := NextMonth(t);
    } else if !MatchesDay(e, t.year, t.month, t.day) {
      BarrenDay(e, t);
      t' := NextDay(t);
    } else if !e.hour[t.hour] {
      BarrenHour(e, t);
      t' := NextHour(t);
    } else if !e.minute[t.min] {
      BarrenMinute(e, t);
      t' := NextMinute(t);
    } else {
      matched := e.second[t.sec];
      NextSecondIsOneLater(t);
      t' := NextSecond(t);
    }
  }

  /** Walks calendar fields from the wall clock at `start`, and applies the zone once, to what matched. */
  method Search(e: Expression, z: Zone, start: int) returns (r: Option<int>)
    requires Shaped(e) && Regular(z)
    ensures Answers(Readings(e), z, start, r)
  {
    var limit := ToCivil(Wall(z, start - 1 + SEARCH_LIMIT));
    var t := ToCivil(Wall(z, start));
    OrderAgrees(limit, t);
    while !Before(limit, t)
      invariant Valid(t) && Wall(z, start) <= Seconds(t) && NoneBehind(Readings(e), z, start, Seconds(t))
      invariant Before(limit, t) <==> Seconds(limit) < Seconds(t)
      decreases Seconds(limit) - Seconds(t)
    {
      var matched, t' := Step(e, t);
      if matched {
        var got := Resolve(z, Seconds(t));
        NotBeforeIff(z, Seconds(t), got, start);
        if start <= got {
          assert Candidate(Readings(e), z, start, Seconds(t));
          return Some(got);
        }
      }
      MovesOn(Readings(e), z, start, Seconds(t), Seconds(t'));
      OrderAgrees(limit, t');
      t := t';
    }
    return None;
  }
}
