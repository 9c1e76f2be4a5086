/** Looking backwards with a schedule that only goes forwards: the misfire window's lookups,
  proved against the enumeration of fires they avoid. */
module Windows {
  import opened Rows
  import opened Schedules
  import Tx = Transactions

  function Pow2(n: nat): (p: nat)
    ensures 0 < p
  {
    if n == 0 then 1 else 2 * Pow2(n - 1)
  }

  lemma {:induction false} Pow2Grows(a: nat, b: nat)
    requires a <= b
    ensures Pow2(a) <= Pow2(b)
    decreases b - a
  {
    if a < b { Pow2Grows(a + 1, b); }
  }

  /** So many rounds fit into the horizon: the last of them still had a second to halve. */
  predicate Within(rounds: nat, horizon: int) {
    rounds == 0 || SECOND * Pow2(rounds - 1) <= horizon
  }

  /** The span left after so many halvings. */
  ghost predicate Spent(len: int, rounds: nat, horizon: int) {
    (len - 1) * Pow2(rounds) <= horizon
  }

  lemma Scales(a: int, b: int, p: nat)
    requires a <= b
    ensures a * p <= b * p
  {
  }

  /** Halving a span of more than a second rounds down by less than one. */
  lemma Halved(len: int, len': int, rounds: nat, horizon: int)
    requires SECOND < len && 2 * (len' - 1) <= len - 1 && Spent(len, rounds, horizon)
    ensures Spent(len', rounds + 1, horizon) && Within(rounds + 1, horizon)
  {
    var p := Pow2(rounds);
    Scales(SECOND, len - 1, p);
    Scales(2 * (len' - 1), len - 1, p);
    calc {
      (len' - 1) * Pow2(rounds + 1);
      (len' - 1) * (2 * p);
      (2 * (len' - 1)) * p;
    }
  }

  lemma SecondsApart(a: int, b: int)
    requires a < b && a % SECOND == 0 && b % SECOND == 0
    ensures a + SECOND <= b
  {
  }

  /** Once the search span is at most a second, it holds one fire, and that is the last one. */
  lemma Bisected(s: Schedule, lo: int, hi: int, at: int)
    requires Exact(s) && hi - lo <= SECOND && hi <= at
    requires s.next(lo) <= at < s.next(hi)
    ensures at < s.next(s.next(lo))
  {
    var last := s.next(lo);
    NextIsFire(s, lo);
    if hi < last {
      NextIsLeast(s, hi, last);
    } else {
      NextIsFire(s, last);
      SecondsApart(last, s.next(last));
      NextIsLeast(s, hi, s.next(last));
    }
  }

  lemma LastIsUnique(s: Schedule, f: int, at: int, last: int)
    requires Exact(s) && Fire(s, f) && f <= at && Fire(s, last) && last <= at < s.next(last)
    ensures LastFrom(s, f, at) == last
  {
    var found := LastFrom(s, f, at);
    if found < last {
      NextIsLeast(s, found, last);
    } else if last < found {
      NextIsLeast(s, last, found);
    }
  }

  /** The most recent fire in [at - horizon, at], by walking every fire of the window. */
  ghost function Enumerated(s: Schedule, at: Instant, horizon: int): Option<Instant>
    requires Exact(s)
  {
    var first := s.next(at - horizon - 1);
    NextIsFire(s, at - horizon - 1);
    if at < first then None else Some(LastFrom(s, first, at))
  }

  lemma {:induction false} BisectIsLast(s: Schedule, at: Instant, lo: Instant, hi: Instant, first: Instant)
    requires Exact(s) && lo <= hi <= at && s.next(lo) <= at < s.next(hi) && Fire(s, first) && first <= at
    ensures Tx.Bisect(s, at, lo, hi) == LastFrom(s, first, at)
    decreases hi - lo
  {
    if hi - lo <= SECOND {
      Bisected(s, lo, hi, at);
      NextIsFire(s, lo);
      LastIsUnique(s, first, at, s.next(lo));
    } else {
      var mid := lo + (hi - lo) / 2;
      if at < s.next(mid) { BisectIsLast(s, at, lo, mid, first); } else { BisectIsLast(s, at, mid, hi, first); }
    }
  }

  /** Bisecting an exact schedule finds what enumerating it would. */
  lemma LookupIsEnumeration(s: Schedule, at: Instant, horizon: int)
    requires Exact(s)
    ensures Tx.LatestFire(s, at, horizon) == Enumerated(s, at, horizon)
  {
    var lo := at - horizon - 1;
    NextIsFire(s, lo);
    if s.next(lo) <= at { BisectIsLast(s, at, lo, at, s.next(lo)); }
  }

  /** The catch-up lookup: on an exact schedule, the most recent fire of the window, reached in a number of
      rounds that depends on the horizon alone. */
  method Latest(s: Schedule, at: Instant, horizon: int) returns (last: Option<Instant>, ghost rounds: nat)
    ensures last == Tx.LatestFire(s, at, horizon)
    ensures Exact(s) ==> last == Enumerated(s, at, horizon)
    ensures Within(rounds, horizon)
  {
    if Exact(s) { LookupIsEnumeration(s, at, horizon); }
    rounds := 0;
    var lo := at - horizon - 1;
    var first := s.next(lo);
    if at < first {
      return None, 0;
    }
    var hi := at;
    ghost var found := Tx.Bisect(s, at, lo, hi);
    assert Spent(hi - lo, 0, horizon);
    while hi - lo > SECOND
      invariant Tx.Bisect(s, at, lo, hi) == found
      invariant Spent(hi - lo, rounds, horizon) && Within(rounds, horizon)
      decreases hi - lo
    {
      var half := (hi - lo) / 2;
      var mid := lo + half;
      Halved(hi - lo, if at < s.next(mid) then half else hi - lo - half, rounds, horizon);
      if at < s.next(mid) {
        hi := mid;
      } else {
        lo := mid;
      }
      rounds := rounds + 1;
    }
    last := Some(s.next(lo));
  }

  /** A year and a day of misfire horizon costs at most twenty-five rounds, however often the
      expression fires inside it. */
  lemma HorizonRounds(rounds: nat)
    requires Within(rounds, Tx.MISFIRE_HORIZON)
    ensures rounds <= 25
  {
    if 25 < rounds {
      Pow2Grows(25, rounds - 1);
      assert Pow2(25) == 33_554_432 by {
        assert Pow2(5) == 32;
        assert Pow2(10) == 1024;
        assert Pow2(15) == 32_768;
        assert Pow2(20) == 1_048_576;
      }
    }
  }

  function Min(a: int, b: int): int {
    if a < b then a else b
  }

  /** The number of steps in (from, to], cut off at the limit, and whether it was cut; on an exact schedule
      they are the fires of the window. */
  method CountBetween(s: Schedule, from: Instant, to: Instant, limit: int) returns (n: nat, exact: bool)
    requires Onward(s)
    ensures 0 <= limit ==> n == Min(limit, CountFires(s, from, to))
    ensures limit < 0 ==> n == 0
    ensures exact <==> n == CountFires(s, from, to)
    ensures Exact(s) ==> n <= |FiresIn(s, from, to)| && (exact <==> n == |FiresIn(s, from, to)|)
  {
    if Exact(s) { CountIsCardinality(s, from, to); }
    n := 0;
    var cur := from;
    while n < limit
      invariant n == 0 || n <= limit
      invariant n + CountFires(s, cur, to) == CountFires(s, from, to)
    {
      var nxt := s.next(cur);
      if to < nxt {
        return n, true;
      }
      n := n + 1;
      cur := nxt;
    }
    exact := to < s.next(cur);
  }
}
