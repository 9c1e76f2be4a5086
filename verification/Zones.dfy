/** Wall clocks of a time zone, and the instant a wall-clock reading stands for.

  Instants and readings are whole seconds. A reading may be shown twice (clocks went back), once, or
  never (clocks went forward); one definition covers the three: a reading stands for the first
  instant at which the wall clock has reached it. */
module Zones {
  import opened Calendar

  datatype Zone = Zone(offset: int -> int)

  function Wall(z: Zone, t: int): int {
    t + z.offset(t)
  }

  predicate OneChange(z: Zone, a: int, b: int, c: int) {
    z.offset(b) == z.offset(a) || z.offset(b) == z.offset(c)
  }

  /** Offsets stay under a day, and no two changes of offset lie within two days of each other. */
  ghost predicate Regular(z: Zone) {
    && (forall t :: -DAY < z.offset(t) < DAY)
    && (forall a, b, c :: a <= b <= c <= a + 2 * DAY ==> OneChange(z, a, b, c))
  }

  /** The wall clock has not reached `n` before `t`. */
  ghost predicate NotBefore(z: Zone, n: int, t: int) {
    forall u :: u < t ==> Wall(z, u) < n
  }

  /** `r` is the first instant at which the wall clock has reached `n`. */
  ghost predicate StandsFor(z: Zone, n: int, r: int) {
    n <= Wall(z, r) && NotBefore(z, n, r)
  }

  lemma StandsForOrdered(z: Zone, m: int, q: int, n: int, r: int)
    requires StandsFor(z, m, q) && StandsFor(z, n, r) && m <= n
    ensures q <= r
  {
  }

  lemma NotBeforeIff(z: Zone, n: int, r: int, t: int)
    requires StandsFor(z, n, r)
    ensures NotBefore(z, n, t) <==> t <= r
  {
  }

  /** If the reading is shown at all, it stands for the first time it is shown. */
  lemma FirstShowing(z: Zone, n: int, r: int, t: int)
    requires Regular(z) && StandsFor(z, n, r) && Wall(z, t) == n
    ensures Wall(z, r) == n && r <= t
  {
    assert t < r ==> Wall(z, t) < n;
    assert Wall(z, r - 1) < n;
    assert n < Wall(z, r) ==> OneChange(z, r - 1, r, t);
  }

  /** If it is never shown, it stands for the instant the gap around it ends. */
  lemma GapCloses(z: Zone, n: int, r: int)
    requires Regular(z) && StandsFor(z, n, r)
    ensures (forall t :: Wall(z, t) != n) <==> Wall(z, r) != n
    ensures Wall(z, r) != n ==> Wall(z, r - 1) < n < Wall(z, r)
  {
    forall t | Wall(z, t) == n
      ensures Wall(z, r) == n
    {
      FirstShowing(z, n, r, t);
    }
    assert Wall(z, r - 1) < n;
  }

  /** Every reading a forward jump leaves out, and the one it lands on, stand for the jump. */
  lemma JumpCollects(z: Zone, s: int, n: int)
    requires Regular(z) && Wall(z, s - 1) < n <= Wall(z, s) && Wall(z, s - 1) + 1 < Wall(z, s)
    ensures StandsFor(z, n, s)
  {
    forall u | u < s
      ensures Wall(z, u) < n
    {
      assert n <= Wall(z, u) ==> OneChange(z, u, s - 1, s);
    }
  }

  /** Rendering under the earlier of the two bracketing offsets, when the clock is still on it. */
  lemma EarlierCandidate(z: Zone, n: int, t: int)
    requires Regular(z) && n - DAY < t < n + DAY && n <= Wall(z, t) && z.offset(t) == z.offset(n - DAY)
    ensures Wall(z, n - z.offset(n - DAY)) == n
  {
    assert OneChange(z, n - DAY, n - z.offset(n - DAY), t);
  }

  /** The first instant at which the wall clock has reached `n`, when `n` is never shown: the predicate
      being bisected changes once, because no reading at or after `n` is followed by one before it. */
  method GapEnd(z: Zone, n: int) returns (r: int)
    requires Regular(z) && Wall(z, n - z.offset(n - DAY)) != n
    ensures StandsFor(z, n, r)
  {
    var lo, hi := n - 48 * 3600, n + 48 * 3600;
    while hi - lo > 1
      invariant lo < hi && Wall(z, lo) < n <= Wall(z, hi)
      decreases hi - lo
    {
      var mid := lo + (hi - lo) / 2;
      if Wall(z, mid) < n {
        lo := mid;
      } else {
        hi := mid;
      }
    }
    forall u | u < hi
      ensures Wall(z, u) < n
    {
      if n <= Wall(z, u) {
        assert OneChange(z, n - DAY, u, lo);
        EarlierCandidate(z, n, u);
      }
    }
    return hi;
  }

  lemma EarliestCandidateStands(z: Zone, n: int, best: int)
    requires Regular(z) && Wall(z, best) == n
    requires z.offset(best) == z.offset(n - DAY) || z.offset(best) == z.offset(n + DAY)
    requires Wall(z, n - z.offset(n - DAY)) == n ==> best <= n - z.offset(n - DAY)
    ensures StandsFor(z, n, best)
  {
    forall u | u < best
      ensures Wall(z, u) < n
    {
      if n <= Wall(z, u) {
        assert OneChange(z, n - DAY, u, best);
        EarlierCandidate(z, n, u);
      }
    }
  }

  /** The instant a reading stands for: its first showing, or the end of the gap that swallows it. */
  method Resolve(z: Zone, n: int) returns (r: int)
    requires Regular(z)
    ensures StandsFor(z, n, r)
  {
    var offBefore, offAfter := z.offset(n - 24 * 3600), z.offset(n + 24 * 3600);
    var offs := [offBefore, offAfter];
    var found, best := false, 0;
    for i := 0 to 2
      invariant found ==> Wall(z, best) == n && exists j :: 0 <= j < i && best == n - offs[j]
      invariant forall j :: 0 <= j < i && Wall(z, n - offs[j]) == n ==> found && best <= n - offs[j]
    {
      var cand := n - offs[i];
      if Wall(z, cand) == n && (!found || cand < best) {
        found, best := true, cand;
      }
    }
    assert offs[0] == offBefore;
    if found {
      EarliestCandidateStands(z, n, best);
      return best;
    }
    r := GapEnd(z, n);
  }

  lemma {:induction false} ReachedFrom(z: Zone, n: int, t: int) returns (r: int)
    requires Regular(z) && NotBefore(z, n, t) && t <= n + DAY
    ensures StandsFor(z, n, r)
    decreases n + DAY - t
  {
    if n <= Wall(z, t) { r := t; } else { r := ReachedFrom(z, n, t + 1); }
  }

  /** Every reading stands for some instant. */
  lemma StandsForSome(z: Zone, n: int) returns (r: int)
    requires Regular(z)
    ensures StandsFor(z, n, r)
  {
    r := ReachedFrom(z, n, n - DAY);
  }
}
