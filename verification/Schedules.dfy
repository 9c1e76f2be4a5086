/** A compiled schedule, seen through the one thing a cron expression can do: go forwards.

  `Onward` holds of everything the cron engine compiles, and is all the store needs to be sound. `Exact` is
  the rest of the promise, which the engine keeps unless a clock change swallows a match; what is said
  about fires needs it. Fires are whole seconds, instants are nanoseconds. */
module Schedules {

  const SECOND: int := 1_000_000_000

  /** `next(t)` is the first fire strictly after `t`. */
  datatype Schedule = Schedule(next: int -> int)

  ghost predicate Onward(s: Schedule) {
    forall t :: t < s.next(t)
  }

  /** Nothing fires between an instant and its next fire, so every instant between has the same one. */
  predicate Steady(s: Schedule, t: int, u: int) {
    t <= u < s.next(t) ==> s.next(u) == s.next(t)
  }

  /** `next` answers with the least whole-second fire strictly later than its argument. */
  ghost predicate Exact(s: Schedule) {
    && Onward(s)
    && (forall t :: s.next(t) % SECOND == 0)
    && (forall t, u :: Steady(s, t, u))
  }

  ghost predicate Fire(s: Schedule, f: int) {
    s.next(f - 1) == f
  }

  lemma NextIsFire(s: Schedule, t: int)
    requires Exact(s)
    ensures Fire(s, s.next(t))
  {
    assert Steady(s, t, s.next(t) - 1);
  }

  /** No fire lies strictly between an instant and the next fire. */
  lemma NextIsLeast(s: Schedule, t: int, f: int)
    requires Exact(s) && Fire(s, f) && t < f
    ensures s.next(t) <= f
  {
    assert Steady(s, t, f - 1);
  }

  /** The last fire at or before `at`, by walking forwards from the fire `f`: the enumeration
      a catch-up lookup is specified against. */
  ghost function LastFrom(s: Schedule, f: int, at: int): (last: int)
    requires Exact(s) && Fire(s, f) && f <= at
    ensures Fire(s, last) && f <= last <= at < s.next(last)
    decreases at - f
  {
    NextIsFire(s, f);
    if at < s.next(f) then f else LastFrom(s, s.next(f), at)
  }

  /** How many steps of `next` fit into the half-open window (from, to]. */
  ghost function CountFires(s: Schedule, from: int, to: int): (n: nat)
    requires Onward(s)
    decreases if from < to then to - from else 0
  {
    if to < s.next(from) then 0 else 1 + CountFires(s, s.next(from), to)
  }

  /** The walk ends at the greatest fire of the window, whatever fire it started from. */
  lemma LastFromIsGreatest(s: Schedule, f: int, at: int, g: int)
    requires Exact(s) && Fire(s, f) && f <= at
    requires Fire(s, g) && g <= at
    ensures g <= LastFrom(s, f, at)
  {
    var last := LastFrom(s, f, at);
    if last < g {
      NextIsLeast(s, last, g);
    }
  }

  ghost function FiresIn(s: Schedule, from: int, to: int): set<int> {
    set f | from < f <= to && Fire(s, f)
  }

  /** Of an exact schedule, those steps are its fires: the count is the size of the window's set of fires. */
  lemma {:induction false} CountIsCardinality(s: Schedule, from: int, to: int)
    requires Exact(s)
    ensures CountFires(s, from, to) == |FiresIn(s, from, to)|
    decreases if from < to then to - from else 0
  {
    var next := s.next(from);
    NextIsFire(s, from);
    forall f | f in FiresIn(s, from, to)
      ensures next <= f
    {
      NextIsLeast(s, from, f);
    }
    if to < next {
      assert FiresIn(s, from, to) == {};
    } else {
      CountIsCardinality(s, next, to);
      assert FiresIn(s, from, to) == {next} + FiresIn(s, next, to);
    }
  }
}
