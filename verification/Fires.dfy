/** Fires as a matter of readings: given which wall-clock readings are good, when they fire, what a forward
  search over them answers, and when that answer is the first fire. Nothing here knows how a reading is
  matched; `Cron` supplies that. */
module Fires {
  import opened Rows
  import opened Schedules
  import opened Calendar
  import opened Zones

  // ----- what it means to fire -----------------------------------------------------------

  /** A fire is the instant some good reading stands for. */
  ghost predicate FiresAt(good: int -> bool, z: Zone, t: int) {
    exists n :: good(n) && StandsFor(z, n, t)
  }

  /** The first fire not before `start`. */
  ghost predicate FirstFire(good: int -> bool, z: Zone, start: int, f: int) {
    && start <= f && FiresAt(good, z, f)
    && (forall g :: start <= g && FiresAt(good, z, g) ==> f <= g)
  }

  // ----- what a search may answer --------------------------------------------------------

  const SEARCH_LIMIT: int := 12 * 366 * DAY

  /** A reading the search from `start` may answer with. */
  ghost predicate Candidate(good: int -> bool, z: Zone, start: int, n: int) {
    Wall(z, start) <= n && good(n) && NotBefore(z, n, start)
  }

  /** No candidate is left behind the cursor. */
  ghost predicate NoneBehind(good: int -> bool, z: Zone, start: int, cursor: int) {
    forall n :: Candidate(good, z, start, n) ==> cursor <= n
  }

  ghost predicate Barren(good: int -> bool, from: int, to: int) {
    forall n :: from <= n < to ==> !good(n)
  }

  lemma MovesOn(good: int -> bool, z: Zone, start: int, from: int, to: int)
    requires NoneBehind(good, z, start, from) && from < to && Barren(good, from + 1, to)
    requires !Candidate(good, z, start, from)
    ensures NoneBehind(good, z, start, to)
  {
  }

  /** The answer of the search: the instant its first candidate stands for, or nothing if every
      candidate lies beyond the limit. */
  ghost predicate Answers(good: int -> bool, z: Zone, start: int, r: Option<int>) {
    match r
    case Some(f) => exists n :: Candidate(good, z, start, n) && StandsFor(z, n, f) && NoneBehind(good, z, start, n)
    case None => NoneBehind(good, z, start, Wall(z, start - 1 + SEARCH_LIMIT) + 1)
  }

  /** The whole second after the one an instant lies in. */
  function StartOf(after: Instant): int {
    after / SECOND + 1
  }

  lemma StartsAfter(after: Instant, k: int)
    ensures StartOf(after) <= k <==> after < k * SECOND
    ensures k * SECOND / SECOND == k && k * SECOND % SECOND == 0
  {
  }

  lemma AnswerNotBefore(good: int -> bool, z: Zone, start: int, f: int)
    requires Answers(good, z, start, Some(f))
    ensures start <= f
  {
  }

  lemma {:induction false} LeastCandidate(good: int -> bool, z: Zone, start: int, cursor: int, n: int) returns (m: int)
    requires Candidate(good, z, start, n) && NoneBehind(good, z, start, cursor)
    ensures Candidate(good, z, start, m) && NoneBehind(good, z, start, m)
    decreases n - cursor
  {
    if Candidate(good, z, start, cursor) {
      m := cursor;
    } else {
      m := LeastCandidate(good, z, start, cursor + 1, n);
    }
  }

  /** Where there is a candidate there is an answer, */
  lemma AnswerExists(good: int -> bool, z: Zone, start: int, n: int) returns (f: int)
    requires Regular(z) && Candidate(good, z, start, n)
    ensures Answers(good, z, start, Some(f))
  {
    var m := LeastCandidate(good, z, start, Wall(z, start), n);
    f := StandsForSome(z, m);
  }

  /** and only one. */
  lemma AnswerUnique(good: int -> bool, z: Zone, start: int, f: int, g: int)
    requires Answers(good, z, start, Some(f)) && Answers(good, z, start, Some(g))
    ensures f == g
  {
    var m :| Candidate(good, z, start, m) && StandsFor(z, m, f) && NoneBehind(good, z, start, m);
    var n :| Candidate(good, z, start, n) && StandsFor(z, n, g) && NoneBehind(good, z, start, n);
    StandsForOrdered(z, m, f, n, g);
    StandsForOrdered(z, n, g, m, f);
  }

  // ----- it answers with the first fire --------------------------------------------------

  /** `start` is where clocks went forward over a matching reading, and does not match itself. */
  ghost predicate Overlooks(good: int -> bool, z: Zone, start: int) {
    && !good(Wall(z, start))
    && exists n :: Wall(z, start - 1) < n < Wall(z, start) && good(n)
  }

  lemma OverlookedReading(good: int -> bool, z: Zone, start: int, n: int)
    requires Wall(z, start - 1) < n < Wall(z, start) && good(n) && !good(Wall(z, start))
    ensures Overlooks(good, z, start)
  {
  }

  /** A fire not before `start` that no candidate accounts for can only be at `start` itself, for a reading
      the clock jumped over. */
  lemma FireHasCandidate(good: int -> bool, z: Zone, start: int, n: int, g: int)
    requires good(n) && StandsFor(z, n, g) && start <= g
    ensures Candidate(good, z, start, n) || (g == start && Wall(z, start - 1) < n < Wall(z, start))
  {
  }

  lemma AnswerIsFire(good: int -> bool, z: Zone, start: int, n: int, f: int)
    requires Candidate(good, z, start, n) && StandsFor(z, n, f) && NoneBehind(good, z, start, n)
    ensures start <= f && FiresAt(good, z, f)
    ensures forall g :: start < g && FiresAt(good, z, g) ==> f <= g
  {
    NotBeforeIff(z, n, f, start);
    forall g | start < g && FiresAt(good, z, g)
      ensures f <= g
    {
      var m :| good(m) && StandsFor(z, m, g);
      FireHasCandidate(good, z, start, m, g);
      StandsForOrdered(z, n, f, m, g);
    }
  }

  /** When `start` matches, or no matching reading was jumped over, nothing is overlooked. */
  lemma FirstUnlessOverlooked(good: int -> bool, z: Zone, start: int, n: int, f: int, g: int)
    requires Regular(z) && Candidate(good, z, start, n) && StandsFor(z, n, f) && NoneBehind(good, z, start, n)
    requires !Overlooks(good, z, start) && start <= g && FiresAt(good, z, g)
    ensures f <= g
  {
    var m :| good(m) && StandsFor(z, m, g);
    FireHasCandidate(good, z, start, m, g);
    if Candidate(good, z, start, m) {
      StandsForOrdered(z, n, f, m, g);
    } else {
      JumpCollects(z, start, Wall(z, start));
      assert Candidate(good, z, start, Wall(z, start));
      StandsForOrdered(z, n, f, Wall(z, start), start);
    }
  }

  lemma OverlookedFire(good: int -> bool, z: Zone, start: int, n: int, f: int)
    requires Regular(z) && Candidate(good, z, start, n) && StandsFor(z, n, f) && Overlooks(good, z, start)
    ensures FiresAt(good, z, start) && start < f
  {
    var m :| Wall(z, start - 1) < m < Wall(z, start) && good(m);
    JumpCollects(z, start, m);
    NotBeforeIff(z, n, f, start);
    assert f == start ==> n == Wall(z, start);
  }

  /** The search answers with the first fire not before `start`, exactly when it does not start on the
      instant clocks went forward over a matching reading. Then it misses the fire at that very instant,
      and nothing else. */
  lemma AnswerIsFirstIff(good: int -> bool, z: Zone, start: int, f: int)
    requires Regular(z) && Answers(good, z, start, Some(f))
    ensures start <= f && FiresAt(good, z, f)
    ensures forall g :: start < g && FiresAt(good, z, g) ==> f <= g
    ensures FirstFire(good, z, start, f) <==> !Overlooks(good, z, start)
  {
    var n :| Candidate(good, z, start, n) && StandsFor(z, n, f) && NoneBehind(good, z, start, n);
    AnswerIsFire(good, z, start, n, f);
    if Overlooks(good, z, start) {
      OverlookedAnswer(good, z, start, f);
    } else {
      forall g | start <= g && FiresAt(good, z, g)
        ensures f <= g
      {
        FirstUnlessOverlooked(good, z, start, n, f, g);
      }
    }
  }

  // ----- as a schedule -------------------------------------------------------------------

  /** The schedule that answers as the search does. */
  ghost predicate Computes(good: int -> bool, z: Zone, s: Schedule) {
    forall t :: s.next(t) % SECOND == 0 && Answers(good, z, StartOf(t), Some(s.next(t) / SECOND))
  }

  /** The schedule is exact and its fires are those of the good readings. */
  ghost predicate Represents(good: int -> bool, z: Zone, s: Schedule) {
    && Exact(s)
    && (forall k :: Fire(s, k * SECOND) <==> FiresAt(good, z, k))
  }

  lemma FirstFireFrom(good: int -> bool, z: Zone, a: int, b: int, f: int, g: int)
    requires FirstFire(good, z, a, f) && FirstFire(good, z, b, g) && a <= b <= f
    ensures f == g
  {
  }

  lemma WholeSeconds(t: int, u: int, f: int)
    requires t <= u < f && f % SECOND == 0
    ensures StartOf(t) <= StartOf(u) <= f / SECOND && f == f / SECOND * SECOND
  {
  }

  lemma OverlooksNothing(good: int -> bool, z: Zone, s: Schedule, t: int)
    requires Regular(z) && Computes(good, z, s) && !Overlooks(good, z, StartOf(t))
    ensures FirstFire(good, z, StartOf(t), s.next(t) / SECOND) && t < s.next(t) && s.next(t) % SECOND == 0
  {
    AnswerIsFirstIff(good, z, StartOf(t), s.next(t) / SECOND);
  }

  lemma ExactWhenNothingOverlooked(good: int -> bool, z: Zone, s: Schedule)
    requires Regular(z) && Computes(good, z, s) && (forall start :: !Overlooks(good, z, start))
    ensures Exact(s)
  {
    forall t
      ensures t < s.next(t) && s.next(t) % SECOND == 0
    {
      OverlooksNothing(good, z, s, t);
    }
    forall t, u
      ensures Steady(s, t, u)
    {
      if t <= u < s.next(t) {
        OverlooksNothing(good, z, s, t);
        OverlooksNothing(good, z, s, u);
        WholeSeconds(t, u, s.next(t));
        FirstFireFrom(good, z, StartOf(t), StartOf(u), s.next(t) / SECOND, s.next(u) / SECOND);
      }
    }
  }

  lemma FireIsFire(good: int -> bool, z: Zone, s: Schedule, k: int)
    requires Regular(z) && Computes(good, z, s)
    ensures Overlooks(good, z, k) ==> FiresAt(good, z, k) && !Fire(s, k * SECOND)
    ensures !Overlooks(good, z, k) ==> (Fire(s, k * SECOND) <==> FiresAt(good, z, k))
  {
    var f := AnswerAt(good, z, s, k);
    if Overlooks(good, z, k) {
      OverlookedAnswer(good, z, k, f);
    } else {
      AnswerIsFirstIff(good, z, k, f);
    }
  }

  lemma JustBefore(k: int, next: int)
    ensures StartOf(k * SECOND - 1) == k
    ensures next % SECOND == 0 ==> (next == k * SECOND <==> next / SECOND == k)
  {
  }

  lemma AnswerAt(good: int -> bool, z: Zone, s: Schedule, k: int) returns (f: int)
    requires Computes(good, z, s)
    ensures Answers(good, z, k, Some(f)) && (Fire(s, k * SECOND) <==> f == k)
  {
    var next := s.next(k * SECOND - 1);
    JustBefore(k, next);
    f := next / SECOND;
  }

  lemma OverlookedAnswer(good: int -> bool, z: Zone, start: int, f: int)
    requires Regular(z) && Answers(good, z, start, Some(f)) && Overlooks(good, z, start)
    ensures FiresAt(good, z, start) && start < f
  {
    var n :| Candidate(good, z, start, n) && StandsFor(z, n, f) && NoneBehind(good, z, start, n);
    OverlookedFire(good, z, start, n, f);
  }

  /** The engine is the exact schedule the store relies on, exactly for the expressions and zones in
      which no forward jump of the clock swallows a match without landing on one. */
  lemma RepresentsIff(good: int -> bool, z: Zone, s: Schedule)
    requires Regular(z) && Computes(good, z, s)
    ensures Represents(good, z, s) <==> forall start :: !Overlooks(good, z, start)
  {
    forall k
      ensures Overlooks(good, z, k) ==> FiresAt(good, z, k) && !Fire(s, k * SECOND)
      ensures !Overlooks(good, z, k) ==> (Fire(s, k * SECOND) <==> FiresAt(good, z, k))
    {
      FireIsFire(good, z, s, k);
    }
    if forall start :: !Overlooks(good, z, start) {
      ExactWhenNothingOverlooked(good, z, s);
    }
  }

  /** A zone that never moves its clock forward overlooks nothing, whatever the expression. */
  lemma NoJumpNoLoss(good: int -> bool, z: Zone, start: int)
    requires Regular(z) && z.offset(start) <= z.offset(start - 1)
    ensures !Overlooks(good, z, start)
  {
  }
}
