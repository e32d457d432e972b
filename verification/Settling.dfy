/** Main results about the closed loop: one unhindered tick brings the grid
    into the band, two bring every battery to rest, and under a binding rate
    limit each battery ramps at full rate and arrives on time. */
module Settling {
  import opened Prelude
  import opened Sums
  import opened Config
  import opened State
  import opened WaterFillLaws
  import opened Demand
  import opened Targets
  import opened TargetLaws
  import opened ClosedLoop

  lemma AskedIsNextTotal(bats: Batteries, circuits: Circuits, now: Time, load: real)
    ensures Asked(bats, circuits, now, load)
         == NextTotal(load, FleetTotal(bats, circuits, now), |Eligible(bats, circuits, now)|)
  {
    hide GridCorrection, Sum, Eligible;
  }

  lemma TickKeepsStructure(bats: Batteries, circuits: Circuits, cfg: DispatcherConfig, now: Time, load: real, eps: real)
    requires WellFormed(bats, circuits)
    ensures var next := Tick(bats, circuits, cfg, now, load, eps);
            && SameButReadings(next, bats) && WellFormed(next, circuits)
            && Eligible(next, circuits, now) == Eligible(bats, circuits, now)
  {
    hide TargetsFor, WellFormed, Eligible, Landed, SameButReadings;
    var t := TargetsFor(bats, circuits, cfg, GridReading(bats, circuits, now, load), now, eps);
    LandedSameButReadings(bats, circuits, now, t);
    ReadingsKeepStructure(Tick(bats, circuits, cfg, now, load, eps), bats, circuits, cfg, now, false);
  }

  /** After one unhindered tick the grid reads at most the safety margin either
      way, plus one cut-off per battery. Nothing is asked of the state before,
      so the same holds after every further unhindered tick. */
  lemma GridInBand(bats: Batteries, circuits: Circuits, cfg: DispatcherConfig, now: Time, load: real, eps: real)
    requires WellFormed(bats, circuits) && eps >= 0.0 && Unhindered(bats, circuits, cfg, now, load, eps)
    ensures Abs(GridReading(Tick(bats, circuits, cfg, now, load, eps), circuits, now, load))
              <= SAFETY_MARGIN_W + Times(|Eligible(bats, circuits, now)|, eps)
  {
    hide Unhindered, WellFormed, Tick, Eligible, Asked, NextTotal, FleetTotal;
    UnhinderedTotal(bats, circuits, cfg, now, load, eps);
    AskedIsNextTotal(bats, circuits, now, load);
    OneTickReachesTheBand(load, FleetTotal(bats, circuits, now), |Eligible(bats, circuits, now)|);
  }

  ghost function After(bats: Batteries, circuits: Circuits, cfg: DispatcherConfig, now: Time, load: real, eps: real,
                       ticks: nat): (later: Batteries)
    requires WellFormed(bats, circuits)
    ensures WellFormed(later, circuits) && later.Keys == bats.Keys
  {
    if ticks == 0 then bats
    else
      var before := After(bats, circuits, cfg, now, load, eps, ticks - 1);
      TickKeepsStructure(before, circuits, cfg, now, load, eps);
      Tick(before, circuits, cfg, now, load, eps)
  }

  /** Without cut-offs an unhindered tick hits its total. */
  lemma ExactTotal(bats: Batteries, circuits: Circuits, cfg: DispatcherConfig, now: Time, load: real)
    requires WellFormed(bats, circuits) && Unhindered(bats, circuits, cfg, now, load, 0.0)
    ensures var next := Tick(bats, circuits, cfg, now, load, 0.0);
            && FleetTotal(next, circuits, now) == Asked(bats, circuits, now, load)
            && Eligible(next, circuits, now) == Eligible(bats, circuits, now)
  {
    hide Unhindered, WellFormed, Tick, Eligible, Asked, FleetTotal, SameButReadings;
    UnhinderedTotal(bats, circuits, cfg, now, load, 0.0);
    TimesZero(|Eligible(bats, circuits, now)|);
    TickKeepsStructure(bats, circuits, cfg, now, load, 0.0);
  }

  /** A tick that asks for what the tick before asked for changes no reading. */
  lemma SameAskedSameState(bats: Batteries, circuits: Circuits, cfg: DispatcherConfig, now: Time, load: real, eps: real)
    requires WellFormed(bats, circuits) && Unimpeded(bats, circuits, cfg, now, load, eps)
    requires var next := Tick(bats, circuits, cfg, now, load, eps);
             && WellFormed(next, circuits) && Unimpeded(next, circuits, cfg, now, load, eps)
             && Asked(next, circuits, now, load) == Asked(bats, circuits, now, load)
    ensures var next := Tick(bats, circuits, cfg, now, load, eps);
            Tick(next, circuits, cfg, now, load, eps) == next
  {
    hide Unimpeded, WellFormed, Asked, SameButReadings, TargetsFor, Wanted, Eligible, Heard, Landed;
    var next := Tick(bats, circuits, cfg, now, load, eps);
    TickKeepsStructure(bats, circuits, cfg, now, load, eps);
    UnimpededTargets(bats, circuits, cfg, now, load, eps);
    UnimpededTargets(next, circuits, cfg, now, load, eps);
    ReadingsKeepWanted(next, bats, circuits, cfg, now, Asked(bats, circuits, now, load), eps);
    ReadingsKeepStructure(next, bats, circuits, cfg, now, false);
    LandsTwice(bats, circuits, now,
               TargetsFor(bats, circuits, cfg, GridReading(bats, circuits, now, load), now, eps),
               TargetsFor(next, circuits, cfg, GridReading(next, circuits, now, load), now, eps));
  }

  lemma LandsTwice(bats: Batteries, circuits: Circuits, now: Time, t: map<Id, real>, u: map<Id, real>)
    requires bats.Keys == t.Keys == u.Keys
    requires forall id :: id in Heard(bats, circuits, now) ==> t[id] == u[id]
    ensures Landed(Landed(bats, circuits, now, t), circuits, now, u) == Landed(bats, circuits, now, t)
  {
    hide Eligible, Heard, SameButReadings;
    var next := Landed(bats, circuits, now, t);
    LandedSameButReadings(bats, circuits, now, t);
    LandedKeepsEars(bats, circuits, now, t);
  }

  lemma LandedKeepsEars(bats: Batteries, circuits: Circuits, now: Time, t: map<Id, real>)
    requires bats.Keys <= t.Keys
    ensures Eligible(Landed(bats, circuits, now, t), circuits, now) == Eligible(bats, circuits, now)
    ensures Heard(Landed(bats, circuits, now, t), circuits, now) == Heard(bats, circuits, now)
  {
    hide Delivered;
  }

  /** Two unhindered ticks bring the whole fleet to rest: from the second tick
      on every battery keeps its power, and the -10 W and +10 W grid targets
      never alternate. */
  lemma RestsAfterTwoTicks(bats: Batteries, circuits: Circuits, cfg: DispatcherConfig, now: Time, load: real)
    requires WellFormed(bats, circuits)
    requires forall k :: 0 <= k <= 2 ==>
      Unhindered(After(bats, circuits, cfg, now, load, 0.0, k), circuits, cfg, now, load, 0.0)
    ensures After(bats, circuits, cfg, now, load, 0.0, 3) == After(bats, circuits, cfg, now, load, 0.0, 2)
  {
    hide Unimpeded, NobodyMissed, Wanted, WellFormed, Tick, Asked, FleetTotal, NextTotal, Eligible;
    var b0 := After(bats, circuits, cfg, now, load, 0.0, 0);
    var b1 := After(bats, circuits, cfg, now, load, 0.0, 1);
    var b2 := After(bats, circuits, cfg, now, load, 0.0, 2);
    assert b1 == Tick(b0, circuits, cfg, now, load, 0.0);
    assert b2 == Tick(b1, circuits, cfg, now, load, 0.0);
    ExactTotal(b0, circuits, cfg, now, load);
    ExactTotal(b1, circuits, cfg, now, load);
    AskedIsNextTotal(b0, circuits, now, load);
    AskedIsNextTotal(b1, circuits, now, load);
    AskedIsNextTotal(b2, circuits, now, load);
    TotalStopsAfterTwoTicks(load, FleetTotal(b0, circuits, now), |Eligible(b0, circuits, now)|);
    SameAskedSameState(b1, circuits, cfg, now, load, 0.0);
  }

  lemma {:induction false} RestsForGood(bats: Batteries, circuits: Circuits, cfg: DispatcherConfig, now: Time,
                                        load: real,
                                        k: nat)
    requires WellFormed(bats, circuits) && k >= 2
    requires forall j :: 0 <= j <= 2 ==>
      Unhindered(After(bats, circuits, cfg, now, load, 0.0, j), circuits, cfg, now, load, 0.0)
    ensures After(bats, circuits, cfg, now, load, 0.0, k) == After(bats, circuits, cfg, now, load, 0.0, 2)
    ensures Abs(GridReading(After(bats, circuits, cfg, now, load, 0.0, k), circuits, now, load)) <= SAFETY_MARGIN_W
  {
    hide Unhindered, WellFormed, Tick, GridReading, Eligible;
    if k == 2 {
      var b1 := After(bats, circuits, cfg, now, load, 0.0, 1);
      GridInBand(b1, circuits, cfg, now, load, 0.0);
      TimesZero(|Eligible(b1, circuits, now)|);
    } else {
      RestsForGood(bats, circuits, cfg, now, load, k - 1);
      RestsAfterTwoTicks(bats, circuits, cfg, now, load);
    }
  }

  // ------------------------------------------------------------------
  // Ramps
  // ------------------------------------------------------------------

  /** The cases of the grid correction. */
  datatype DirectionClass = Charging | Discharging | Importing | Exporting | Balanced

  ghost function ClassAt(bats: Batteries, circuits: Circuits, now: Time, load: real): DirectionClass {
    var total, grid := FleetTotal(bats, circuits, now), GridReading(bats, circuits, now, load);
    var idle := IdleThreshold(|Eligible(bats, circuits, now)|);
    if total < -idle then Charging
    else if total > idle then Discharging
    else if grid > SAFETY_MARGIN_W then Importing
    else if grid < -SAFETY_MARGIN_W then Exporting
    else Balanced
  }

  /** As long as the fleet stays in one direction class, every tick asks for
      the same total, however far the batteries have got. */
  lemma ClassFixesAsked(bats: Batteries, circuits: Circuits, now: Time, load: real)
    ensures Asked(bats, circuits, now, load) ==
            match ClassAt(bats, circuits, now, load)
            case Charging => load + SAFETY_MARGIN_W
            case Discharging => load - SAFETY_MARGIN_W
            case Importing => load - SAFETY_MARGIN_W
            case Exporting => load + SAFETY_MARGIN_W
            case Balanced => FleetTotal(bats, circuits, now)
  {
    hide Eligible, Sum;
    AskedIsNextTotal(bats, circuits, now, load);
  }

  /** The tick asks for `asked` and no fuse is engaged. */
  ghost predicate Ramping(bats: Batteries, circuits: Circuits, cfg: DispatcherConfig, now: Time, load: real, eps: real,
                          asked: real)
    requires WellFormed(bats, circuits)
  {
    && Asked(bats, circuits, now, load) == asked
    && FusesIdle(bats, circuits, RateLimited(bats, Eligible(bats, circuits, now),
                                             Wanted(bats, circuits, cfg, now, asked, eps), RateLimit(cfg)))
  }

  /** Whoever takes part is then given its limited target. */
  lemma RampTarget(bats: Batteries, circuits: Circuits, cfg: DispatcherConfig, now: Time, load: real, eps: real,
                   asked: real, id: Id)
    requires WellFormed(bats, circuits) && Ramping(bats, circuits, cfg, now, load, eps, asked)
    requires id in Eligible(bats, circuits, now)
    ensures TargetsFor(bats, circuits, cfg, GridReading(bats, circuits, now, load), now, eps)[id]
         == Limited(PlugOf(bats[id]), Wanted(bats, circuits, cfg, now, asked, eps)[id], RateLimit(cfg))
  {
    hide Wanted, Homed, WorstCase, CapW, Eligible, DesiredTotal, RateLimit, Mul, Limited;
    var limited := RateLimited(bats, Eligible(bats, circuits, now), Wanted(bats, circuits, cfg, now, asked, eps),
                               RateLimit(cfg));
    HomeOf(bats, circuits, id);
    MulLaws(1.0, limited[id]);
  }

  lemma RampTick(bats: Batteries, circuits: Circuits, cfg: DispatcherConfig, now: Time, load: real, eps: real,
                 asked: real, id: Id)
    requires WellFormed(bats, circuits) && Ramping(bats, circuits, cfg, now, load, eps, asked)
    requires id in Heard(bats, circuits, now)
    ensures PlugOf(Tick(bats, circuits, cfg, now, load, eps)[id])
         == Limited(PlugOf(bats[id]), Wanted(bats, circuits, cfg, now, asked, eps)[id], RateLimit(cfg))
  {
    hide Ramping, TargetsFor, Wanted, WellFormed, Eligible, RateLimit, Limited;
    RampTarget(bats, circuits, cfg, now, load, eps, asked, id);
  }

  lemma {:induction false} AfterKeepsStructure(bats: Batteries, circuits: Circuits, cfg: DispatcherConfig, now: Time,
                                               load: real, eps: real, k: nat)
    requires WellFormed(bats, circuits)
    ensures var later := After(bats, circuits, cfg, now, load, eps, k);
            && SameButReadings(later, bats) && Eligible(later, circuits, now) == Eligible(bats, circuits, now)
            && Heard(later, circuits, now) == Heard(bats, circuits, now)
  {
    hide WellFormed, Tick, Eligible, Heard, OnlyReadingDiffers;
    if k == 0 {
      SameAsItself(bats);
    } else {
      var before := After(bats, circuits, cfg, now, load, eps, k - 1);
      AfterKeepsStructure(bats, circuits, cfg, now, load, eps, k - 1);
      TickKeepsStructure(before, circuits, cfg, now, load, eps);
      SameButReadingsTrans(After(bats, circuits, cfg, now, load, eps, k), before, bats);
      ReadingsKeepStructure(After(bats, circuits, cfg, now, load, eps, k), bats, circuits, cfg, now, false);
    }
  }

  lemma {:induction false} RampsOneTotal(bats: Batteries, circuits: Circuits, cfg: DispatcherConfig, now: Time,
                                         load: real, eps: real, asked: real, k: nat, id: Id)
    requires WellFormed(bats, circuits) && id in bats && id in Heard(bats, circuits, now)
    requires forall j :: 0 <= j < k ==>
      Ramping(After(bats, circuits, cfg, now, load, eps, j), circuits, cfg, now, load, eps, asked)
    ensures var start := PlugOf(bats[id]);
            var here := PlugOf(After(bats, circuits, cfg, now, load, eps, k)[id]);
            var wanted := Wanted(bats, circuits, cfg, now, asked, eps)[id];
            && Abs(wanted - here) == Max(0.0, Abs(wanted - start) - Times(k, RateLimit(cfg)))
            && Min(start, wanted) <= here <= Max(start, wanted)
  {
    hide Ramping, WellFormed, Tick, Eligible, Heard, Wanted, RateLimit, SameButReadings, Limited, PlugOf;
    if k > 0 {
      RampsOneTotal(bats, circuits, cfg, now, load, eps, asked, k - 1, id);
      TimesNonNegative(k - 1, RateLimit(cfg));
      var before := After(bats, circuits, cfg, now, load, eps, k - 1);
      AfterKeepsStructure(bats, circuits, cfg, now, load, eps, k - 1);
      RampTick(before, circuits, cfg, now, load, eps, asked, id);
      ReadingsKeepWanted(before, bats, circuits, cfg, now, asked, eps);
      NearerByOneLimit(PlugOf(bats[id]), PlugOf(before[id]), Wanted(bats, circuits, cfg, now, asked, eps)[id],
                       Times(k - 1, RateLimit(cfg)), RateLimit(cfg));
    }
  }

  lemma NearerByOneLimit(start: real, here: real, wanted: real, closed: real, rate: real)
    requires closed >= 0.0 && rate >= 0.0
    requires Abs(wanted - here) == Max(0.0, Abs(wanted - start) - closed)
    requires Min(start, wanted) <= here <= Max(start, wanted)
    ensures var next := Limited(here, wanted, rate);
            && Abs(wanted - next) == Max(0.0, Abs(wanted - start) - (closed + rate))
            && Min(start, wanted) <= next <= Max(start, wanted)
  {
    LimitedStep(here, wanted, rate);
  }

  /** The direction class of the first tick still holds at the state, and no
      fuse is engaged in the tick that follows. */
  ghost predicate KeepsClass(first: Batteries, bats: Batteries, circuits: Circuits, cfg: DispatcherConfig, now: Time,
                             load: real, eps: real)
    requires WellFormed(bats, circuits)
  {
    && ClassAt(bats, circuits, now, load) == ClassAt(first, circuits, now, load)
    && FusesIdle(bats, circuits, RateLimited(bats, Eligible(bats, circuits, now),
                                             Wanted(bats, circuits, cfg, now, Asked(bats, circuits, now, load), eps),
                                             RateLimit(cfg)))
  }

  lemma ClassRamps(first: Batteries, bats: Batteries, circuits: Circuits, cfg: DispatcherConfig, now: Time, load: real,
                   eps: real)
    requires WellFormed(bats, circuits) && KeepsClass(first, bats, circuits, cfg, now, load, eps)
    requires ClassAt(first, circuits, now, load) != Balanced
    ensures Asked(bats, circuits, now, load) == Asked(first, circuits, now, load)
    ensures Ramping(bats, circuits, cfg, now, load, eps, Asked(first, circuits, now, load))
  {
    hide Eligible, Wanted, WellFormed, FusesIdle, Asked, ClassAt, RateLimited;
    ClassFixesAsked(first, circuits, now, load);
    ClassFixesAsked(bats, circuits, now, load);
  }

  /** Main result: while the direction class stays what it was, every tick asks
      for the same total, and every heard battery moves monotonically towards
      its share of it, by exactly min(rate limit, distance) a tick: after k ticks
      the distance has shrunk by k rate limits, or to nothing. */
  lemma RampArrives(bats: Batteries, circuits: Circuits, cfg: DispatcherConfig, now: Time, load: real, eps: real,
                    k: nat,
                    id: Id)
    requires WellFormed(bats, circuits) && id in bats && id in Heard(bats, circuits, now)
    requires ClassAt(bats, circuits, now, load) != Balanced
    requires forall j :: 0 <= j < k ==>
      KeepsClass(bats, After(bats, circuits, cfg, now, load, eps, j), circuits, cfg, now, load, eps)
    ensures forall j :: 0 <= j < k ==>
      Asked(After(bats, circuits, cfg, now, load, eps, j), circuits, now, load) == Asked(bats, circuits, now, load)
    ensures var start := PlugOf(bats[id]);
            var here := PlugOf(After(bats, circuits, cfg, now, load, eps, k)[id]);
            var wanted := Wanted(bats, circuits, cfg, now, Asked(bats, circuits, now, load), eps)[id];
            && Abs(wanted - here) == Max(0.0, Abs(wanted - start) - Times(k, RateLimit(cfg)))
            && Min(start, wanted) <= here <= Max(start, wanted)
  {
    hide Heard, Wanted, WellFormed, After, Asked, ClassAt, KeepsClass, Ramping, RateLimit;
    var asked := Asked(bats, circuits, now, load);
    forall j | 0 <= j < k
      ensures Asked(After(bats, circuits, cfg, now, load, eps, j), circuits, now, load) == asked
      ensures Ramping(After(bats, circuits, cfg, now, load, eps, j), circuits, cfg, now, load, eps, asked)
    {
      ClassRamps(bats, After(bats, circuits, cfg, now, load, eps, j), circuits, cfg, now, load, eps);
    }
    RampsOneTotal(bats, circuits, cfg, now, load, eps, asked, k, id);
  }

  lemma SameAsItself(a: Batteries)
    ensures SameButReadings(a, a)
  {
  }

  lemma SameButReadingsTrans(a: Batteries, b: Batteries, c: Batteries)
    requires SameButReadings(a, b) && SameButReadings(b, c)
    ensures SameButReadings(a, c)
  {
    forall id | id in a
      ensures OnlyReadingDiffers(a[id], c[id])
    {
      assert OnlyReadingDiffers(a[id], b[id]) && OnlyReadingDiffers(b[id], c[id]);
    }
  }
}
