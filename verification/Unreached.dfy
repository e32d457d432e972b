/** Batteries that get a share of the total and no command: cut off, or without
    a writer. The allocation does not know, so what is asked of them is missing
    from the grid: exactly when it matters, for one tick and for good. */
module Unreached {
  import opened Prelude
  import opened Sums
  import opened Config
  import opened State
  import opened WaterFill
  import opened WaterFillLaws
  import opened Demand
  import opened Targets
  import CapSafety
  import ModbusMode
  import opened ClosedLoop
  import opened Settling
  import opened Convergence
  import opened Resting
  import TargetLaws

  /** The heard batteries are those of the fleet that a tick sends a setpoint. */
  lemma HeardAreSent(bats: Batteries, circuits: Circuits, now: Time, t: map<Id, real>)
    requires t.Keys == bats.Keys
    requires ModbusMode.NoPanic(bats, t, CapSafety.Dispatched(bats, circuits, now))
    ensures Heard(bats, circuits, now)
         == Eligible(bats, circuits, now) * ModbusMode.Plan(bats, t, CapSafety.Dispatched(bats, circuits, now)).Keys
  {
    hide CapSafety.CommandFor;
  }

  // ------------------------------------------------------------------
  // One tick
  // ------------------------------------------------------------------

  /** Without cut-offs an unimpeded tick leaves exactly what is missed on the
      grid, on top of what it meant to leave. */
  lemma GridAfterTick(bats: Batteries, circuits: Circuits, cfg: DispatcherConfig, now: Time, load: real)
    requires WellFormed(bats, circuits) && Unimpeded(bats, circuits, cfg, now, load, 0.0)
    ensures var asked := Asked(bats, circuits, now, load);
            GridReading(Tick(bats, circuits, cfg, now, load, 0.0), circuits, now, load)
              == load - asked + Missed(bats, circuits, now, Wanted(bats, circuits, cfg, now, asked, 0.0))
  {
    hide Wanted, WellFormed, Unimpeded, Asked, Eligible, Tick, FleetTotal, Missed;
    UnimpededTotal(bats, circuits, cfg, now, load, 0.0);
    TimesZero(|Eligible(bats, circuits, now)|);
  }

  /** Nothing comes out of any unheard battery: it is cut, or it rests. */
  ghost predicate AllSilent(bats: Batteries, circuits: Circuits, now: Time) {
    forall id :: id in Unheard(bats, circuits, now) ==> LeftAlone(bats[id], now) == 0.0
  }

  /** The tick asks for the load less the margin, all in its direction. */
  ghost predicate AtMargin(bats: Batteries, circuits: Circuits, now: Time, load: real) {
    match ClassAt(bats, circuits, now, load)
    case Discharging => load >= SAFETY_MARGIN_W
    case Importing => load >= SAFETY_MARGIN_W
    case Charging => load <= -SAFETY_MARGIN_W
    case Exporting => load <= -SAFETY_MARGIN_W
    case Balanced => false
  }

  /** Main result: such a tick, otherwise unimpeded, ends in the band if and only
      if nothing is wanted of any battery that it does not reach. */
  lemma BandIffNobodyMissed(bats: Batteries, circuits: Circuits, cfg: DispatcherConfig, now: Time, load: real)
    requires WellFormed(bats, circuits) && Unimpeded(bats, circuits, cfg, now, load, 0.0)
    requires AllSilent(bats, circuits, now) && AtMargin(bats, circuits, now, load)
    ensures var wanted := Wanted(bats, circuits, cfg, now, Asked(bats, circuits, now, load), 0.0);
            (Abs(GridReading(Tick(bats, circuits, cfg, now, load, 0.0), circuits, now, load)) <= SAFETY_MARGIN_W)
              <==> (forall id :: id in Unheard(bats, circuits, now) ==> wanted[id] == 0.0)
  {
    hide Wanted, WellFormed, Unimpeded, Asked, Eligible, Heard, Tick, GridReading, ClassAt, LowBound, HighBound, Sum;
    hide LeftAlone;
    var asked := Asked(bats, circuits, now, load);
    var wanted := Wanted(bats, circuits, cfg, now, asked, 0.0);
    var unheard := Unheard(bats, circuits, now);
    ClassFixesAsked(bats, circuits, now, load);
    GridAfterTick(bats, circuits, cfg, now, load);
    TargetLaws.WantedIsAdmissible(bats, circuits, cfg, now, asked, 0.0);
    SumZero(unheard, Delivered(bats, circuits, now, wanted));
    SumZeroIff(unheard, wanted, asked);
    TargetLaws.SumAlong(unheard, wanted, asked);
  }

  /** A one-way sum is 0 when every term is. */
  lemma SumZeroIff(s: set<Id>, t: map<Id, real>, desired: real)
    requires s <= t.Keys && forall id :: id in s ==> Along(t[id], desired)
    ensures Sum(s, t) == 0.0 <==> forall id :: id in s ==> t[id] == 0.0
  {
    var zero := map id | id in s :: 0.0;
    SumZero(s, zero);
    if desired >= 0.0 {
      SumLe(s, zero, t);
    } else {
      SumLe(s, t, zero);
    }
    if forall id :: id in s ==> t[id] == 0.0 {
      SumZero(s, t);
    }
  }

  // ------------------------------------------------------------------
  // Who is asked for anything
  // ------------------------------------------------------------------

  /** Weightless, or shut in the direction of dispatch. */
  predicate Powerless(b: Battery, cfg: DispatcherConfig, now: Time, charging: bool) {
    WeightOf(b, cfg, now, charging) == 0.0
      || (if charging then LowBound(b, cfg, now) == 0.0 else HighBound(b, cfg, now) == 0.0)
  }

  lemma LevelIsZeroIff(slot: Slot, level: real, desired: real)
    requires slot.Ok() && Along(level, desired) && level != 0.0
    ensures LevelOf(slot, level) == 0.0 <==> slot.weight == 0.0 || Edge(slot, desired) == 0.0
  {
    if slot.weight == 0.0 {
    } else if level > 0.0 {
      assert level * slot.weight > 0.0;
    } else {
      assert -level * slot.weight > 0.0;
    }
  }

  lemma ShareIsZeroIff(bats: Batteries, circuits: Circuits, cfg: DispatcherConfig, now: Time, a: real, id: Id)
    requires WellFormed(bats, circuits) && a != 0.0 && InReach(bats, circuits, cfg, now, a)
    requires id in Eligible(bats, circuits, now)
    ensures Shares(bats, circuits, cfg, now, a, 0.0)[id] == 0.0 <==> Powerless(bats[id], cfg, now, a < 0.0)
  {
    hide WellFormed, Eligible, Allocate, WeightOf, LowBound, HighBound, LevelOf, Sum, LimitsOk, InReach;
    var eligible := Eligible(bats, circuits, now);
    var p := Slots(bats, cfg, now, a < 0.0);
    TargetLaws.LimitsOfWellFormed(bats, circuits);
    SlotsAreValid(bats, cfg, now, a < 0.0);
    var t := Allocate(p, eligible, a, 0.0);
    var level := AllocateHasLevel(p, eligible, a, 0.0);
    SharesFacts(bats, circuits, cfg, now, a, 0.0);
    TimesZero(|eligible|);
    assert p[id].Ok();
    if level == 0.0 {
      ZeroLevel(p, t);
      SumZero(eligible, t);
    }
    LevelIsZeroIff(p[id], level, a);
  }

  lemma ZeroLevel(p: map<Id, Slot>, t: map<Id, real>)
    requires Valid(p) && t.Keys <= p.Keys && AtLevel(p, t, 0.0)
    ensures forall id :: id in t ==> t[id] == 0.0
  {
    forall id | id in t
      ensures t[id] == 0.0
    {
      assert p[id].Ok();
    }
  }

  // ------------------------------------------------------------------
  // For good
  // ------------------------------------------------------------------

  /** Watts counted in the direction of the load. */
  function Out(load: real, x: real): real {
    if load < 0.0 then -x else x
  }

  /** The end of the corridor nearer to 0, and the other one. */
  ghost function Near(first: Batteries, circuits: Circuits, cfg: DispatcherConfig, now: Time, load: real):
      (t: map<Id, real>)
    ensures t.Keys == first.Keys
  {
    if load < 0.0 then Highest(first, circuits, cfg, now, load, 0.0) else Lowest(first, circuits, cfg, now, load, 0.0)
  }

  ghost function Far(first: Batteries, circuits: Circuits, cfg: DispatcherConfig, now: Time, load: real):
      (t: map<Id, real>)
    ensures t.Keys == first.Keys
  {
    if load < 0.0 then Lowest(first, circuits, cfg, now, load, 0.0) else Highest(first, circuits, cfg, now, load, 0.0)
  }

  /** A load beyond the margin, with everything else as for `GridSettles`. */
  ghost predicate Loaded(first: Batteries, circuits: Circuits, cfg: DispatcherConfig, now: Time, load: real) {
    && WellFormed(first, circuits) && Abs(load) > SAFETY_MARGIN_W
    && Unobstructed(first, circuits, cfg, now, load, 0.0) && Narrow(first, circuits, cfg, now, load, 0.0)
    && AllSilent(first, circuits, now)
  }

  lemma BandIsMargin(first: Batteries, circuits: Circuits, now: Time)
    ensures Band(first, circuits, now, 0.0) == SAFETY_MARGIN_W
  {
    hide Eligible;
    TimesZero(|Eligible(first, circuits, now)|);
  }

  /** The whole corridor lies on the side of the load. */
  lemma CorridorOnOneSide(first: Batteries, circuits: Circuits, cfg: DispatcherConfig, now: Time, load: real, id: Id)
    requires Loaded(first, circuits, cfg, now, load) && id in Eligible(first, circuits, now)
    ensures id in first
    ensures var near, far := Near(first, circuits, cfg, now, load)[id], Far(first, circuits, cfg, now, load)[id];
            0.0 <= Out(load, near) <= Out(load, far)
  {
    hide Eligible, Allocate, WellFormed, InReach, Slots, Sum, Narrow, AllSilent, NeverConsolidates, Peaks, CapW;
    BandIsMargin(first, circuits, now);
    SharesFacts(first, circuits, cfg, now, load - SAFETY_MARGIN_W, 0.0);
    SharesFacts(first, circuits, cfg, now, load + SAFETY_MARGIN_W, 0.0);
    SharesInCorridor(first, circuits, cfg, now, load, 0.0, load);
  }

  /** What every tick after arrival misses at least. */
  ghost function MissedAtLeast(first: Batteries, circuits: Circuits, cfg: DispatcherConfig, now: Time,
                               load: real): real {
    Out(load, Sum(Unheard(first, circuits, now), Near(first, circuits, cfg, now, load)))
  }

  lemma OutSumLe(load: real, s: set<Id>, f: map<Id, real>, g: map<Id, real>)
    requires s <= f.Keys && s <= g.Keys && forall id :: id in s ==> Out(load, f[id]) <= Out(load, g[id])
    ensures Out(load, Sum(s, f)) <= Out(load, Sum(s, g))
  {
    hide Sum;
    if load < 0.0 {
      SumLe(s, g, f);
    } else {
      SumLe(s, f, g);
    }
  }

  lemma OutSumSign(load: real, s: set<Id>, f: map<Id, real>)
    requires s <= f.Keys && forall id :: id in s ==> Out(load, f[id]) >= 0.0
    ensures Out(load, Sum(s, f)) >= 0.0
    ensures Out(load, Sum(s, f)) == 0.0 <==> forall id :: id in s ==> f[id] == 0.0
  {
    hide Sum;
    SumZeroIff(s, f, Out(load, 1.0));
    TargetLaws.SumAlong(s, f, Out(load, 1.0));
  }

  /** Arrived, the fleet delivers no more than the far end of the band. */
  lemma ArrivedTotal(first: Batteries, circuits: Circuits, cfg: DispatcherConfig, now: Time, load: real, k: nat)
    requires Loaded(first, circuits, cfg, now, load) && ArrivesIn(first, circuits, cfg, now, load, 0.0, k)
    ensures var total := FleetTotal(After(first, circuits, cfg, now, load, 0.0, k), circuits, now);
            0.0 <= Out(load, total) <= Out(load, load) + SAFETY_MARGIN_W
  {
    hide After, WellFormed, Eligible, Heard, Lowest, Highest, Unobstructed, Narrow, ArrivesIn, Sum, LeftAlone, Band;
    hide Out;
    var later := After(first, circuits, cfg, now, load, 0.0, k);
    var eligible, far := Eligible(first, circuits, now), Far(first, circuits, cfg, now, load);
    AfterKeepsStructure(first, circuits, cfg, now, load, 0.0, k);
    CorridorTotals(first, circuits, cfg, now, load, 0.0);
    BandIsMargin(first, circuits, now);
    forall id | id in eligible
      ensures 0.0 <= Out(load, Plugs(later)[id]) <= Out(load, far[id])
    {
      ArrivedOnOneSide(first, circuits, cfg, now, load, k, id);
    }
    OutSumLe(load, eligible, Plugs(later), far);
    OutSumSign(load, eligible, Plugs(later));
    OutOfEnds(load);
  }

  lemma OutOfEnds(load: real)
    ensures Out(load, if load < 0.0 then load - SAFETY_MARGIN_W else load + SAFETY_MARGIN_W)
         == Out(load, load) + SAFETY_MARGIN_W
  {
  }

  lemma ArrivedOnOneSide(first: Batteries, circuits: Circuits, cfg: DispatcherConfig, now: Time, load: real, k: nat,
                         id: Id)
    requires Loaded(first, circuits, cfg, now, load) && ArrivesIn(first, circuits, cfg, now, load, 0.0, k)
    requires id in Eligible(first, circuits, now)
    ensures var x := PlugOf(After(first, circuits, cfg, now, load, 0.0, k)[id]);
            0.0 <= Out(load, x) <= Out(load, Far(first, circuits, cfg, now, load)[id])
  {
    hide After, WellFormed, Eligible, Heard, Lowest, Highest, Unobstructed, Narrow, ArrivesIn, LeftAlone;
    CorridorOnOneSide(first, circuits, cfg, now, load, id);
    Arrived(first, circuits, cfg, now, load, 0.0, k, id);
  }

  /** ... and a tick from there misses at least what is wanted at the near end. */
  lemma ArrivedMisses(first: Batteries, circuits: Circuits, cfg: DispatcherConfig, now: Time, load: real, k: nat)
    requires Loaded(first, circuits, cfg, now, load) && ArrivesIn(first, circuits, cfg, now, load, 0.0, k)
    ensures var later := After(first, circuits, cfg, now, load, 0.0, k);
            var asked := Asked(later, circuits, now, load);
            && Unimpeded(later, circuits, cfg, now, load, 0.0)
            && Out(load, Missed(later, circuits, now, Wanted(later, circuits, cfg, now, asked, 0.0)))
                 >= MissedAtLeast(first, circuits, cfg, now, load)
  {
    hide After, WellFormed, Eligible, Heard, Lowest, Highest, Unobstructed, Narrow, ArrivesIn, Sum, LeftAlone;
    hide Unimpeded;
    hide Wanted, Asked;
    var later := After(first, circuits, cfg, now, load, 0.0, k);
    var wanted := Wanted(later, circuits, cfg, now, Asked(later, circuits, now, load), 0.0);
    var unheard := Unheard(first, circuits, now);
    AfterKeepsStructure(first, circuits, cfg, now, load, 0.0, k);
    ArrivedIsUnimpeded(first, circuits, cfg, now, load, 0.0, k);
    StaysOnCourse(first, circuits, cfg, now, load, 0.0, k);
    forall id | id in unheard
      ensures Delivered(later, circuits, now, wanted)[id] == 0.0
    {
      StillLeftAlone(later, first, circuits, cfg, now, load, 0.0, Times(k, RateLimit(cfg)), id);
    }
    SumZero(unheard, Delivered(later, circuits, now, wanted));
    OutSumLe(load, unheard, Near(first, circuits, cfg, now, load), wanted);
  }

  /** What the next tick asks for when the fleet delivers no more than the far
      end of the band: the near end, or no more than what is delivered. */
  lemma AskedFromBelow(load: real, total: real, n: nat)
    requires Abs(load) > SAFETY_MARGIN_W && 0.0 <= Out(load, total) <= Out(load, load) + SAFETY_MARGIN_W
    ensures var asked := NextTotal(load, total, n);
            && (Out(load, total) < Out(load, load) - SAFETY_MARGIN_W ==>
                  Out(load, asked) == Out(load, load) - SAFETY_MARGIN_W)
            && (Out(load, total) >= Out(load, load) - SAFETY_MARGIN_W ==> Out(load, asked) <= Out(load, total))
  {
  }

  /** With every tick the total falls by what is missed, until it is below the
      band, and then it stays there. */
  lemma {:induction false} FallsOutOfBand(first: Batteries, circuits: Circuits, cfg: DispatcherConfig, now: Time,
                                          load: real, a: nat, j: nat)
    requires Loaded(first, circuits, cfg, now, load)
    requires forall k: nat :: k >= a ==> ArrivesIn(first, circuits, cfg, now, load, 0.0, k)
    requires MissedAtLeast(first, circuits, cfg, now, load) > 0.0
    ensures var total := FleetTotal(After(first, circuits, cfg, now, load, 0.0, a + j), circuits, now);
            var missed := MissedAtLeast(first, circuits, cfg, now, load);
            || Out(load, total) < Out(load, load) - SAFETY_MARGIN_W
            || Out(load, total) <= Out(load, load) + SAFETY_MARGIN_W - Times(j, missed)
    decreases j
  {
    hide Tick, ArrivesIn, FleetTotal, Eligible, Out, NextTotal, MissedAtLeast, Unobstructed, Narrow, WellFormed;
    hide AllSilent;
    hide Asked, Wanted, Missed, Unimpeded;
    if j == 0 {
      ArrivedTotal(first, circuits, cfg, now, load, a);
    } else {
      FallsOutOfBand(first, circuits, cfg, now, load, a, j - 1);
      TotalFalls(first, circuits, cfg, now, load, a + j - 1);
    }
  }

  lemma TotalFalls(first: Batteries, circuits: Circuits, cfg: DispatcherConfig, now: Time, load: real, k: nat)
    requires Loaded(first, circuits, cfg, now, load) && ArrivesIn(first, circuits, cfg, now, load, 0.0, k)
    ensures var before := Out(load, FleetTotal(After(first, circuits, cfg, now, load, 0.0, k), circuits, now));
            var after := Out(load, FleetTotal(After(first, circuits, cfg, now, load, 0.0, k + 1), circuits, now));
            var missed := MissedAtLeast(first, circuits, cfg, now, load);
            && (before < Out(load, load) - SAFETY_MARGIN_W ==> after <= Out(load, load) - SAFETY_MARGIN_W - missed)
            && (before >= Out(load, load) - SAFETY_MARGIN_W ==> after <= before - missed)
  {
    hide Tick, ArrivesIn, FleetTotal, Eligible, MissedAtLeast, Unobstructed, Narrow, WellFormed, AllSilent;
    hide Asked, Wanted, Missed, Unimpeded, NextTotal, Out;
    var later := After(first, circuits, cfg, now, load, 0.0, k);
    var asked := Asked(later, circuits, now, load);
    var missed := Missed(later, circuits, now, Wanted(later, circuits, cfg, now, asked, 0.0));
    ArrivedTotal(first, circuits, cfg, now, load, k);
    ArrivedMisses(first, circuits, cfg, now, load, k);
    AskedIsNextTotal(later, circuits, now, load);
    AskedFromBelow(load, FleetTotal(later, circuits, now), |Eligible(later, circuits, now)|);
    UnimpededTotal(later, circuits, cfg, now, load, 0.0);
    TimesZero(|Eligible(later, circuits, now)|);
    assert After(first, circuits, cfg, now, load, 0.0, k + 1) == Tick(later, circuits, cfg, now, load, 0.0);
    OutOfDifference(load, asked, missed);
  }

  lemma OutOfDifference(load: real, x: real, y: real)
    ensures Out(load, x - y) == Out(load, x) - Out(load, y)
  {
  }

  /** So the grid leaves the band for good as soon as anything is missed. */
  lemma MissedForGood(first: Batteries, circuits: Circuits, cfg: DispatcherConfig, now: Time, load: real)
    returns (gone: nat)
    requires Loaded(first, circuits, cfg, now, load) && MissedAtLeast(first, circuits, cfg, now, load) > 0.0
    ensures forall k: nat :: k >= gone ==>
      Abs(GridReading(After(first, circuits, cfg, now, load, 0.0, k), circuits, now, load)) > SAFETY_MARGIN_W
  {
    hide After, ArrivesIn, FleetTotal, MissedAtLeast, Unobstructed, Narrow, WellFormed, AllSilent;
    var missed := MissedAtLeast(first, circuits, cfg, now, load);
    var a := SomeArrival(first, circuits, cfg, now, load, 0.0);
    var j := EnoughTicks(2.0 * SAFETY_MARGIN_W, missed);
    gone := a + j;
    forall k: nat | k >= gone
      ensures Abs(GridReading(After(first, circuits, cfg, now, load, 0.0, k), circuits, now, load)) > SAFETY_MARGIN_W
    {
      FallsOutOfBand(first, circuits, cfg, now, load, a, k - a);
      TimesMonotone(j, k - a, missed);
    }
  }

  ghost predicate InBandFrom(first: Batteries, circuits: Circuits, cfg: DispatcherConfig, now: Time, load: real,
                             start: nat)
    requires WellFormed(first, circuits)
  {
    forall k: nat :: k >= start ==>
      Abs(GridReading(After(first, circuits, cfg, now, load, 0.0, k), circuits, now, load)) <= SAFETY_MARGIN_W
  }

  /** Main result: without cut-offs, a fleet under a load beyond the margin and
      with nothing else in its way settles in the band for good if and only if
      every silent battery it does not reach is weightless or shut in the
      direction of the load. */
  lemma SettlesIffNobodyAsked(first: Batteries, circuits: Circuits, cfg: DispatcherConfig, now: Time, load: real)
    requires WellFormed(first, circuits) && Loaded(first, circuits, cfg, now, load)
    ensures (exists start: nat :: InBandFrom(first, circuits, cfg, now, load, start))
            <==> (forall id :: id in Unheard(first, circuits, now) ==> Powerless(first[id], cfg, now, load < 0.0))
  {
    hide After, Eligible, Heard, Unobstructed, Narrow, WellFormed, AllSilent, Powerless, GridReading, MissedAtLeast;
    hide Band;
    MissedIffPower(first, circuits, cfg, now, load);
    BandIsMargin(first, circuits, now);
    if forall id :: id in Unheard(first, circuits, now) ==> Powerless(first[id], cfg, now, load < 0.0) {
      var start := GridSettlesForGood(first, circuits, cfg, now, load, 0.0);
      assert InBandFrom(first, circuits, cfg, now, load, start);
    } else {
      var gone := MissedForGood(first, circuits, cfg, now, load);
      forall start: nat
        ensures !InBandFrom(first, circuits, cfg, now, load, start)
      {
        var k := if start < gone then gone else start;
        assert Abs(GridReading(After(first, circuits, cfg, now, load, 0.0, k), circuits, now, load)) > SAFETY_MARGIN_W;
      }
    }
  }

  /** Nothing is ever missed when nobody unheard has power to give, and
      otherwise some of it always is. */
  lemma MissedIffPower(first: Batteries, circuits: Circuits, cfg: DispatcherConfig, now: Time, load: real)
    requires Loaded(first, circuits, cfg, now, load)
    ensures (forall id :: id in Unheard(first, circuits, now) ==> Powerless(first[id], cfg, now, load < 0.0))
            ==> NobodyEverMissed(first, circuits, cfg, now, load, 0.0)
    ensures !(forall id :: id in Unheard(first, circuits, now) ==> Powerless(first[id], cfg, now, load < 0.0))
            ==> MissedAtLeast(first, circuits, cfg, now, load) > 0.0
  {
    hide Eligible, Heard, Narrow, WellFormed, Powerless, InReach, NeverConsolidates, Peaks, CapW, Shares, Sum, Band;
    var unheard := Unheard(first, circuits, now);
    BandIsMargin(first, circuits, now);
    forall id | id in unheard
      ensures Lowest(first, circuits, cfg, now, load, 0.0)[id] == 0.0 <==> Powerless(first[id], cfg, now, load < 0.0)
      ensures Highest(first, circuits, cfg, now, load, 0.0)[id] == 0.0 <==> Powerless(first[id], cfg, now, load < 0.0)
      ensures Out(load, Near(first, circuits, cfg, now, load)[id]) >= 0.0
    {
      ShareIsZeroIff(first, circuits, cfg, now, load - SAFETY_MARGIN_W, id);
      ShareIsZeroIff(first, circuits, cfg, now, load + SAFETY_MARGIN_W, id);
      CorridorOnOneSide(first, circuits, cfg, now, load, id);
    }
    OutSumSign(load, unheard, Near(first, circuits, cfg, now, load));
  }
}
