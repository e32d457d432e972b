/** The hypotheses of the settling results can be met: one battery that serves
    a constant load settles from any reading, and with the grid at the margin
    it stays exactly where it is. */
module SteadyState {
  import opened Prelude
  import opened Sums
  import opened Config
  import opened State
  import opened WaterFill
  import opened WaterFillLaws
  import opened Demand
  import opened Targets
  import opened TargetLaws
  import opened ClosedLoop
  import opened Settling
  import opened Convergence

  /** A lone battery that can serve the load, from wherever its plug reads. */
  ghost predicate Alone(bats: Batteries, circuits: Circuits, cfg: DispatcherConfig, now: Time, load: real, id: Id) {
    && WellFormed(bats, circuits) && bats.Keys == {id} && circuits.Keys == {bats[id].circuit}
    && !Muted(circuits, bats[id].circuit, now)
    && bats[id].hasWriter && !IsCut(bats[id], now)
    && bats[id].lastPlugW.Some? && Abs(PlugOf(bats[id])) <= CapW(circuits[bats[id].circuit].config)
    && MARSTEK_MIN_W <= load - SAFETY_MARGIN_W
    && load + SAFETY_MARGIN_W <= Min(HighBound(bats[id], cfg, now), CapW(circuits[bats[id].circuit].config))
    && WeightOf(bats[id], cfg, now, false) > 0.0
  }

  /** It discharges `power` into a house that draws 10 W more. */
  ghost predicate Steady(bats: Batteries, circuits: Circuits, cfg: DispatcherConfig, now: Time, load: real, id: Id) {
    Alone(bats, circuits, cfg, now, load, id) && bats[id].lastPlugW == Some(load - SAFETY_MARGIN_W)
  }

  lemma SumOfOne(id: Id, f: map<Id, real>)
    requires id in f
    ensures Sum({id}, f) == f[id]
  {
    SumPick({id}, f, id);
    assert {id} - {id} == {};
  }

  lemma SteadyAsks(bats: Batteries, circuits: Circuits, cfg: DispatcherConfig, now: Time, load: real, id: Id)
    requires Steady(bats, circuits, cfg, now, load, id)
    ensures Asked(bats, circuits, now, load) == load - SAFETY_MARGIN_W
  {
    hide WellFormed, WeightOf, HighBound, CapW;
    assert Eligible(bats, circuits, now) == {id};
    SumOfOne(id, Plugs(bats));
  }

  /** It gets what is asked for. */
  lemma LoneShare(bats: Batteries, circuits: Circuits, cfg: DispatcherConfig, now: Time, load: real, id: Id,
                  power: real)
    requires Alone(bats, circuits, cfg, now, load, id) && 0.0 <= power <= load + SAFETY_MARGIN_W
    ensures Eligible(bats, circuits, now) == {id}
    ensures InReach(bats, circuits, cfg, now, power)
    ensures Shares(bats, circuits, cfg, now, power, 0.0) == map[id := power]
  {
    hide WellFormed, WeightOf, HighBound, LowBound, CapW, Sum, Allocate, LimitsOk;
    var p := Slots(bats, cfg, now, false);
    LimitsOfWellFormed(bats, circuits);
    SlotsAreValid(bats, cfg, now, false);
    SumOfOne(id, Room(p, power));
    var t := Allocate(p, {id}, power, 0.0);
    AllocateIsExact(p, {id}, power, t);
    SumOfOne(id, t);
  }

  lemma LoneCircuit(bats: Batteries, circuits: Circuits, cfg: DispatcherConfig, now: Time, load: real, id: Id)
    requires Alone(bats, circuits, cfg, now, load, id)
    ensures forall c :: c in circuits ==> c == bats[id].circuit && Members(circuits[c]) == {id}
  {
    hide WeightOf, HighBound, CapW, LimitsOk;
    assert Homed(id, bats[id], circuits);
  }

  lemma LoneCorridor(bats: Batteries, circuits: Circuits, cfg: DispatcherConfig, now: Time, load: real, id: Id)
    requires Alone(bats, circuits, cfg, now, load, id)
    ensures Band(bats, circuits, now, 0.0) == SAFETY_MARGIN_W
    ensures InReach(bats, circuits, cfg, now, load - SAFETY_MARGIN_W)
    ensures InReach(bats, circuits, cfg, now, load + SAFETY_MARGIN_W)
    ensures Lowest(bats, circuits, cfg, now, load, 0.0) == map[id := load - SAFETY_MARGIN_W]
    ensures Highest(bats, circuits, cfg, now, load, 0.0) == map[id := load + SAFETY_MARGIN_W]
  {
    hide WellFormed, WeightOf, HighBound, CapW, Shares, InReach, Eligible;
    LoneShare(bats, circuits, cfg, now, load, id, load - SAFETY_MARGIN_W);
    LoneShare(bats, circuits, cfg, now, load, id, load + SAFETY_MARGIN_W);
    TimesZero(1);
  }

  /** From any reading it meets the hypotheses of the convergence result. */
  lemma LoneIsUnobstructed(bats: Batteries, circuits: Circuits, cfg: DispatcherConfig, now: Time, load: real, id: Id)
    requires Alone(bats, circuits, cfg, now, load, id)
    ensures Unobstructed(bats, circuits, cfg, now, load, 0.0) && Band(bats, circuits, now, 0.0) == SAFETY_MARGIN_W
    ensures NobodyEverMissed(bats, circuits, cfg, now, load, 0.0)
  {
    hide WellFormed, WeightOf, HighBound, CapW, Sum, InReach, Lowest, Highest, Band;
    LoneCorridor(bats, circuits, cfg, now, load, id);
    LoneCircuit(bats, circuits, cfg, now, load, id);
    var lo, hi := map[id := load - SAFETY_MARGIN_W], map[id := load + SAFETY_MARGIN_W];
    SumOfOne(id, Peaks(bats, lo, hi));
    assert id in Members(circuits[bats[id].circuit]);
  }

  lemma LoneBatterySettles(bats: Batteries, circuits: Circuits, cfg: DispatcherConfig, now: Time, load: real, id: Id)
    returns (arrival: nat)
    requires WellFormed(bats, circuits) && Alone(bats, circuits, cfg, now, load, id)
    ensures forall k: nat :: k >= arrival ==>
      Abs(GridReading(After(bats, circuits, cfg, now, load, 0.0, k), circuits, now, load)) <= SAFETY_MARGIN_W
  {
    hide WellFormed, After, GridReading, Band, Unobstructed, ArrivesIn, Alone, NobodyEverMissed;
    LoneIsUnobstructed(bats, circuits, cfg, now, load, id);
    arrival := GridSettlesForGood(bats, circuits, cfg, now, load, 0.0);
  }

  lemma SteadyWanted(bats: Batteries, circuits: Circuits, cfg: DispatcherConfig, now: Time, load: real, id: Id)
    requires Steady(bats, circuits, cfg, now, load, id)
    ensures Wanted(bats, circuits, cfg, now, load - SAFETY_MARGIN_W, 0.0) == map[id := load - SAFETY_MARGIN_W]
    ensures ConsolidationHasRoom(bats, circuits, cfg, now, load - SAFETY_MARGIN_W, 0.0)
    ensures Members(circuits[bats[id].circuit]) == {id}
  {
    hide WeightOf, HighBound, LowBound, CapW, Sum, Shares, LimitsOk, Primary;
    var power := load - SAFETY_MARGIN_W;
    LoneShare(bats, circuits, cfg, now, load, id, power);
    LoneCircuit(bats, circuits, cfg, now, load, id);
    var c := circuits[bats[id].circuit];
    assert !SubMinimum(c, Shares(bats, circuits, cfg, now, power, 0.0));
  }

  lemma LoneIsHeard(bats: Batteries, circuits: Circuits, cfg: DispatcherConfig, now: Time, load: real, id: Id)
    requires Alone(bats, circuits, cfg, now, load, id)
    ensures Heard(bats, circuits, now) == {id} == Eligible(bats, circuits, now)
  {
    hide WellFormed, WeightOf, HighBound, CapW;
  }

  lemma SteadyRamps(bats: Batteries, circuits: Circuits, cfg: DispatcherConfig, now: Time, load: real, id: Id)
    requires Steady(bats, circuits, cfg, now, load, id)
    ensures WellFormed(bats, circuits)
    ensures var wanted := map[id := load - SAFETY_MARGIN_W];
            && RateLimited(bats, {id}, wanted, RateLimit(cfg)) == wanted
            && RampIdle(bats, {id}, wanted, RateLimit(cfg)) && FusesIdle(bats, circuits, wanted)
  {
    hide WellFormed, WeightOf, HighBound, CapW, Sum, RateLimit;
    var wanted := map[id := load - SAFETY_MARGIN_W];
    LoneCircuit(bats, circuits, cfg, now, load, id);
    SumOfOne(id, Plugs(bats));
    SumOfOne(id, wanted);
  }

  lemma SteadyIsUnhindered(bats: Batteries, circuits: Circuits, cfg: DispatcherConfig, now: Time, load: real, id: Id)
    requires Steady(bats, circuits, cfg, now, load, id)
    ensures Unhindered(bats, circuits, cfg, now, load, 0.0)
    ensures Tick(bats, circuits, cfg, now, load, 0.0) == bats
  {
    hide WellFormed, WeightOf, HighBound, CapW, Wanted, ConsolidationHasRoom, InReach, TargetsFor, Asked, RateLimit;
    hide Eligible, Heard, RateLimited, RampIdle, FusesIdle;
    SteadyAsks(bats, circuits, cfg, now, load, id);
    LoneShare(bats, circuits, cfg, now, load, id, load - SAFETY_MARGIN_W);
    SteadyWanted(bats, circuits, cfg, now, load, id);
    LoneIsHeard(bats, circuits, cfg, now, load, id);
    SteadyRamps(bats, circuits, cfg, now, load, id);
    UnimpededTargets(bats, circuits, cfg, now, load, 0.0);
  }

  lemma {:induction false} SteadyStays(bats: Batteries, circuits: Circuits, cfg: DispatcherConfig, now: Time,
                                       load: real,
                                       id: Id, k: nat)
    requires WellFormed(bats, circuits) && Steady(bats, circuits, cfg, now, load, id)
    ensures Settling.After(bats, circuits, cfg, now, load, 0.0, k) == bats
    ensures Unhindered(bats, circuits, cfg, now, load, 0.0)
  {
    hide Unhindered, Tick, Steady, WellFormed;
    SteadyIsUnhindered(bats, circuits, cfg, now, load, id);
    if k > 0 {
      SteadyStays(bats, circuits, cfg, now, load, id, k - 1);
    }
  }
}
