/** From the band to rest: when no corridor is wider than the rate limit, every
    tick after arrival is unimpeded, and the fleet stands still from the second
    one on. Again everything is read off the first state. */
module Resting {
  import opened Prelude
  import opened Sums
  import opened Config
  import opened State
  import opened WaterFillLaws
  import opened Demand
  import opened Targets
  import opened TargetLaws
  import opened ClosedLoop
  import opened Settling
  import opened Convergence

  /** A heard battery crosses its corridor in one tick. */
  ghost predicate Narrow(first: Batteries, circuits: Circuits, cfg: DispatcherConfig, now: Time, load: real,
                         eps: real) {
    var lo, hi := Lowest(first, circuits, cfg, now, load, eps), Highest(first, circuits, cfg, now, load, eps);
    forall id :: id in Heard(first, circuits, now) && id in first ==> hi[id] - lo[id] <= RateLimit(cfg)
  }

  lemma ReadingsKeepReach(a: Batteries, b: Batteries, circuits: Circuits, cfg: DispatcherConfig, now: Time, asked: real)
    requires SameButReadings(a, b) && InReach(b, circuits, cfg, now, asked)
    ensures InReach(a, circuits, cfg, now, asked)
  {
    hide Eligible, Slots, Reachable, SameButReadings;
    ReadingsKeepStructure(a, b, circuits, cfg, now, asked < 0.0);
  }

  /** Nothing to consolidate, so no primary that could lack room. */
  lemma CorridorHasRoom(bats: Batteries, first: Batteries, circuits: Circuits, cfg: DispatcherConfig, now: Time,
                        load: real, eps: real, asked: real)
    requires WellFormed(first, circuits) && WellFormed(bats, circuits) && SameButReadings(bats, first) && eps >= 0.0
    requires Unobstructed(first, circuits, cfg, now, load, eps) && Abs(asked - load) <= SAFETY_MARGIN_W
    ensures ConsolidationHasRoom(bats, circuits, cfg, now, asked, eps)
  {
    hide Shares, Sum, CapW, InReach, SubMinimum, Lowest, Highest, Primary, LowBound, HighBound, NeverConsolidates;
    hide Peaks, Band, Homed, SameButReadings;
    var t := Shares(first, circuits, cfg, now, asked, eps);
    ReadingsKeepShares(bats, first, circuits, cfg, now, asked, eps);
    SharesInCorridor(first, circuits, cfg, now, load, eps, asked);
    forall c | c in circuits
      ensures RoomForAll(circuits[c], bats, t, cfg, now)
    {
      CorridorIsUnconsolidated(circuits[c], Lowest(first, circuits, cfg, now, load, eps), t,
                               Highest(first, circuits, cfg, now, load, eps));
    }
  }

  lemma AskedIsInReach(bats: Batteries, first: Batteries, circuits: Circuits, cfg: DispatcherConfig, now: Time,
                       load: real, eps: real)
    requires SameButReadings(bats, first) && eps >= 0.0 && Unobstructed(first, circuits, cfg, now, load, eps)
    ensures InReach(bats, circuits, cfg, now, Asked(bats, circuits, now, load))
  {
    hide InReach, Asked, Eligible, Lowest, Highest, NeverConsolidates, Peaks, CapW, SameButReadings;
    var asked := Asked(bats, circuits, now, load);
    TimesNonNegative(|Eligible(first, circuits, now)|, eps);
    AskedInBand(bats, circuits, now, load);
    ReachBetween(first, circuits, cfg, now, load - Band(first, circuits, now, eps), asked,
                 load + Band(first, circuits, now, eps));
    ReadingsKeepReach(bats, first, circuits, cfg, now, asked);
  }

  /** A tick after arrival is unimpeded, and unhindered when nobody is missed. */
  lemma ArrivedIsUnimpeded(first: Batteries, circuits: Circuits, cfg: DispatcherConfig, now: Time, load: real,
                           eps: real,
                           k: nat)
    requires WellFormed(first, circuits) && eps >= 0.0 && Unobstructed(first, circuits, cfg, now, load, eps)
    requires Narrow(first, circuits, cfg, now, load, eps) && ArrivesIn(first, circuits, cfg, now, load, eps, k)
    ensures var later := After(first, circuits, cfg, now, load, eps, k);
            && Unimpeded(later, circuits, cfg, now, load, eps)
            && Between(Lowest(first, circuits, cfg, now, load, eps),
                       Wanted(later, circuits, cfg, now, Asked(later, circuits, now, load), eps),
                       Highest(first, circuits, cfg, now, load, eps))
            && (NobodyEverMissed(first, circuits, cfg, now, load, eps) ==>
                  Unhindered(later, circuits, cfg, now, load, eps))
  {
    hide After, WellFormed, Eligible, Heard, Unheard, Lowest, Highest, RateLimit, Unobstructed, Wanted, InReach, Asked;
    hide ConsolidationHasRoom, FusesIdle, RateLimited, SameButReadings, Steers, ArrivesIn, LeftAlone;
    var later := After(first, circuits, cfg, now, load, eps, k);
    var asked := Asked(later, circuits, now, load);
    StaysOnCourse(first, circuits, cfg, now, load, eps, k);
    CourseRamps(later, first, circuits, cfg, now, load, eps, Times(k, RateLimit(cfg)));
    AskedIsInReach(later, first, circuits, cfg, now, load, eps);
    AskedInBand(later, circuits, now, load);
    CorridorHasRoom(later, first, circuits, cfg, now, load, eps, asked);
    AfterKeepsStructure(first, circuits, cfg, now, load, eps, k);
    ArrivedRampsIdle(first, circuits, cfg, now, load, eps, k,
                     Wanted(later, circuits, cfg, now, asked, eps));
  }

  lemma ArrivedRampsIdle(first: Batteries, circuits: Circuits, cfg: DispatcherConfig, now: Time, load: real, eps: real,
                         k: nat, wanted: map<Id, real>)
    requires WellFormed(first, circuits) && eps >= 0.0 && Unobstructed(first, circuits, cfg, now, load, eps)
    requires Narrow(first, circuits, cfg, now, load, eps) && ArrivesIn(first, circuits, cfg, now, load, eps, k)
    requires wanted.Keys == first.Keys
    requires Between(Lowest(first, circuits, cfg, now, load, eps), wanted,
                     Highest(first, circuits, cfg, now, load, eps))
    ensures var later := After(first, circuits, cfg, now, load, eps, k);
            && RampIdle(later, Heard(first, circuits, now), wanted, RateLimit(cfg))
            && (NobodyEverMissed(first, circuits, cfg, now, load, eps) ==> NobodyMissed(later, circuits, now, wanted))
  {
    hide After, WellFormed, Eligible, Heard, Lowest, Highest, RateLimit, Unobstructed, ArrivesIn, LeftAlone, Steers;
    var later := After(first, circuits, cfg, now, load, eps, k);
    AfterKeepsStructure(first, circuits, cfg, now, load, eps, k);
    StaysOnCourse(first, circuits, cfg, now, load, eps, k);
    forall id | id in Eligible(first, circuits, now)
      ensures id in Heard(first, circuits, now) ==> Abs(wanted[id] - PlugOf(later[id])) <= RateLimit(cfg)
      ensures id in Unheard(first, circuits, now) ==> LeftAlone(later[id], now) == LeftAlone(first[id], now)
    {
      Arrived(first, circuits, cfg, now, load, eps, k, id);
      StillLeftAlone(later, first, circuits, cfg, now, load, eps, Times(k, RateLimit(cfg)), id);
    }
  }

  lemma StillLeftAlone(bats: Batteries, first: Batteries, circuits: Circuits, cfg: DispatcherConfig, now: Time,
                       load: real, eps: real, closed: real, id: Id)
    requires OnCourse(bats, first, circuits, now, Lowest(first, circuits, cfg, now, load, eps),
                      Highest(first, circuits, cfg, now, load, eps), closed) && id in first
    ensures id in Unheard(first, circuits, now) ==> LeftAlone(bats[id], now) == LeftAlone(first[id], now)
  {
    hide Lowest, Highest, Unheard, Heard, LeftAlone, Gap, Peaks;
    assert Steers(bats[id], first, circuits, now, Lowest(first, circuits, cfg, now, load, eps),
                  Highest(first, circuits, cfg, now, load, eps), closed, id);
  }

  lemma {:induction false} AfterAdds(bats: Batteries, circuits: Circuits, cfg: DispatcherConfig, now: Time, load: real,
                                     eps: real, k: nat, j: nat)
    requires WellFormed(bats, circuits)
    ensures After(bats, circuits, cfg, now, load, eps, k + j)
         == After(After(bats, circuits, cfg, now, load, eps, k), circuits, cfg, now, load, eps, j)
    decreases j
  {
    hide Tick, WellFormed;
    if j > 0 {
      AfterAdds(bats, circuits, cfg, now, load, eps, k, j - 1);
    }
  }

  /** Main result: from any readings, without cut-offs, the fleet comes to rest
      inside the band: from some tick on no battery moves any more. */
  lemma RestsFromAnywhere(first: Batteries, circuits: Circuits, cfg: DispatcherConfig, now: Time, load: real)
    returns (rest: nat)
    requires WellFormed(first, circuits) && Unobstructed(first, circuits, cfg, now, load, 0.0)
    requires NobodyEverMissed(first, circuits, cfg, now, load, 0.0) && Narrow(first, circuits, cfg, now, load, 0.0)
    ensures forall k: nat :: k >= rest ==>
      && After(first, circuits, cfg, now, load, 0.0, k) == After(first, circuits, cfg, now, load, 0.0, rest)
      && Abs(GridReading(After(first, circuits, cfg, now, load, 0.0, k), circuits, now, load)) <= SAFETY_MARGIN_W
  {
    hide After, WellFormed, Unobstructed, Narrow, ArrivesIn, NobodyEverMissed, GridReading, Unhindered;
    var a := SomeArrival(first, circuits, cfg, now, load, 0.0);
    rest := a + 2;
    var arrived := After(first, circuits, cfg, now, load, 0.0, a);
    forall j: nat | j <= 2
      ensures Unhindered(After(arrived, circuits, cfg, now, load, 0.0, j), circuits, cfg, now, load, 0.0)
    {
      AfterAdds(first, circuits, cfg, now, load, 0.0, a, j);
      ArrivedIsUnimpeded(first, circuits, cfg, now, load, 0.0, a + j);
    }
    forall k: nat | k >= rest
      ensures After(first, circuits, cfg, now, load, 0.0, k) == After(first, circuits, cfg, now, load, 0.0, rest)
      ensures Abs(GridReading(After(first, circuits, cfg, now, load, 0.0, k), circuits, now, load)) <= SAFETY_MARGIN_W
    {
      AfterAdds(first, circuits, cfg, now, load, 0.0, a, k - a);
      AfterAdds(first, circuits, cfg, now, load, 0.0, a, 2);
      RestsForGood(arrived, circuits, cfg, now, load, k - a);
    }
  }
}
