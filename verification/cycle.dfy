/**
 * The click cycle over the two enabled flags. A click moves
 * (lastModified, created) around the three states of `Orbit`; the state with
 * both flags off is not on it and a click takes it to (true, false).
 */
module DisplayCycle {

  /** The pair (lastModifiedEnabled, createdEnabled). */
  datatype Flags = Flags(lastModified: bool, created: bool)

  /** The states a click visits, in order: both, last-modified only, created only. */
  const Orbit: seq<Flags> := [Flags(true, true), Flags(true, false), Flags(false, true)]

  /** Where a state on the orbit stands in it. */
  function Position(f: Flags): (i: nat)
    requires f in Orbit
    ensures i < |Orbit| && Orbit[i] == f
  {
    if f == Orbit[0] then 0 else if f == Orbit[1] then 1 else 2
  }

  /** The state after one cycle step. */
  function Next(f: Flags): (r: Flags)
    ensures r in Orbit
    ensures r.lastModified || r.created
    ensures r != f
  {
    if f in Orbit then Orbit[(Position(f) + 1) % |Orbit|] else Orbit[1]
  }

  /** On the orbit distinct states have distinct successors, so a click never merges two states. */
  lemma NextInjectiveOnOrbit(f: Flags, g: Flags)
    requires f in Orbit && g in Orbit && Next(f) == Next(g)
    ensures f == g
  {
  }

  /** The state after `n` cycle steps from `f`. */
  function CycleN(n: nat, f: Flags): (r: Flags)
    ensures n > 0 ==> r in Orbit && (r.lastModified || r.created)
  {
    if n == 0 then f else CycleN(n - 1, Next(f))
  }

  /** One step advances a state on the orbit by one position, wrapping around. */
  lemma NextAdvances(f: Flags)
    requires f in Orbit
    ensures Position(Next(f)) == (Position(f) + 1) % 3
  {
  }

  /** From a state on the orbit, `n` steps advance `n` positions modulo three. */
  lemma {:induction false} CycleNOnOrbit(n: nat, f: Flags)
    requires f in Orbit
    ensures CycleN(n, f) == Orbit[(Position(f) + n) % 3]
  {
    if n > 0 {
      NextAdvances(f);
      CycleNOnOrbit(n - 1, Next(f));
      assert ((Position(f) + 1) % 3 + (n - 1)) % 3 == (Position(f) + n) % 3;
    }
  }

  /** Every state on the orbit returns to itself after any multiple of three clicks. */
  lemma {:induction false} CyclePeriodThree(k: nat, f: Flags)
    requires f in Orbit
    ensures CycleN(3 * k, f) == f
  {
    CycleNOnOrbit(3 * k, f);
    assert (Position(f) + 3 * k) % 3 == Position(f);
  }

  /** No state on the orbit comes back after one or two clicks: the period is exactly three. */
  lemma {:induction false} PeriodIsExactlyThree(f: Flags)
    requires f in Orbit
    ensures CycleN(1, f) != f && CycleN(2, f) != f
  {
  }

  /** Both-off enters the orbit at (true, false) and from then on follows it. */
  lemma {:induction false} BothOffEntersOrbit(n: nat)
    requires n > 0
    ensures CycleN(n, Flags(false, false)) == Orbit[n % 3]
  {
    CycleNOnOrbit(n - 1, Orbit[1]);
  }

  /** Four clicks from both-on end at last-modified only, not at both-on. */
  lemma FourCyclesFromBothOn()
    ensures CycleN(4, Flags(true, true)) == Flags(true, false)
  {
  }
}
