/** The circuit cap overrun by parallel writes: two states of a well-formed
    fleet from which one tick commands a circuit over its cap. Each breaks one
    proviso of `NoAlarm`, so neither can be dropped. */
module CapOverruns {
  import opened Prelude
  import opened Sums
  import opened Config
  import opened State
  import opened WaterFill
  import opened Demand
  import opened Targets
  import opened Setpoints
  import opened CapSafety
  import opened ModbusMode

  /** An unlocked 5 kWh battery of unknown charge, `limit` watts either way. */
  function Cell(base: Battery, c: Id, limit: real, plug: real, overhead: Option<real>): Battery {
    base.(circuit := c, maxChargeW := limit, maxDischargeW := limit, capacityWh := 5000.0, priorityWeight := 1.0,
          chargeTaperW := None, dischargeTaperW := None, socPct := None, chargeLockedUntil := None,
          dischargeLockedUntil := None, lastPlugW := Some(plug), plugOverheadWSmoothed := overhead,
          plugCutUntil := None)
  }

  /** An audible circuit on a breaker of that many amps at 200 V. */
  function Breaker(c: Id, amps: real, members: seq<Id>): Circuits {
    map[c := Circuit(CircuitConfig(c, amps, 200.0, 1), members, None, None, None)]
  }

  predicate Fresh(b: Battery, c: Id, limit: real) {
    && b.circuit == c && LimitsOk(b) && Max(b.maxChargeW, b.maxDischargeW) == limit
    && b.lastPlugW.Some? && b.plugCutUntil.None?
  }

  /** A breaker with fresh batteries on it, none too large for it alone. */
  lemma BreakerIsFormed(bats: Batteries, c: Id, amps: real, members: seq<Id>, limit: real, now: Time)
    requires Distinct(members) && bats.Keys == IdSet(members) && limit <= amps * 200.0
    requires forall id :: id in bats ==> Fresh(bats[id], c, limit)
    ensures var circuits := Breaker(c, amps, members);
            && WellFormed(bats, circuits) && CapW(circuits[c].config) == amps * 200.0
            && Eligible(bats, circuits, now) == bats.Keys == Dispatched(bats, circuits, now) == On(bats, c)
            && Members(circuits[c]) == bats.Keys
  {
    hide LimitsOk;
    var circuits := Breaker(c, amps, members);
    forall id | id in bats
      ensures Homed(id, bats[id], circuits)
    {
      assert id in members;
    }
    assert forall m :: m in members ==> m in bats;
  }

  lemma CellSlot(base: Battery, c: Id, limit: real, plug: real, overhead: Option<real>, cfg: DispatcherConfig,
                 now: Time,
                 charging: bool)
    requires limit >= 0.0
    ensures var b := Cell(base, c, limit, plug, overhead);
            && SlotOf(b, cfg, now, charging) == Slot(250000.0, -limit, limit)
            && Fresh(b, c, limit) && PlugOf(b) == plug
  {
  }

  /** One circuit with everybody on it, nothing to consolidate, a fuse that is
      not engaged: the targets are the rate-limited shares. */
  lemma PlainTargets(bats: Batteries, circuits: Circuits, cfg: DispatcherConfig, gridW: real, now: Time, c: Id,
                     shares: map<Id, real>, limited: map<Id, real>)
    requires WellFormed(bats, circuits) && c in circuits && Members(circuits[c]) == bats.Keys != {}
    requires Eligible(bats, circuits, now) == bats.Keys
    requires Shares(bats, circuits, cfg, now, DesiredTotal(bats, bats.Keys, gridW), CUTOFF) == shares
    requires !SubMinimum(circuits[c], shares)
    requires limited == RateLimited(bats, bats.Keys, shares, RateLimit(cfg))
    requires WorstCase(circuits[c], bats, limited) <= CapW(circuits[c].config)
    ensures TargetsFor(bats, circuits, cfg, gridW, now, CUTOFF) == limited
  {
    hide Shares, SubMinimum, Limited, RateLimit, WorstCase, CapW, DesiredTotal, Eligible, Mul, Homed;
    forall id | id in bats
      ensures bats[id].circuit == c
      ensures Mul(1.0, limited[id]) == limited[id]
    {
      assert id in circuits[c].memberIds;
      MulLaws(1.0, limited[id]);
    }
    assert Consolidated(bats, circuits, shares, cfg, now, circuits.Keys) == shares;
    assert Capped(bats, circuits, limited, circuits.Keys) == limited;
  }

  /** Batteries with equal slots are proposed equal shares, and get them. */
  lemma RoundOfEquals(p: map<Id, Slot>, ids: set<Id>, slot: Slot, total: real, share: real, totalWeight: real)
    requires ids <= p.Keys && forall id :: id in ids ==> p[id] == slot
    requires totalWeight > 0.0 && Proposal(slot, 0.0, total, totalWeight) == share && slot.lo <= share <= slot.hi
    ensures var g := Round(p, Start(ids, total), total, CUTOFF, totalWeight);
            g.targets == (map id | id in ids :: share) && g.active == ids
  {
    hide Proposal, Sum;
  }

  // ------------------------------------------------------------------
  // An overhead larger than its target
  // ------------------------------------------------------------------

  /** Two resting 100 W batteries that read 200 W more than they are told. */
  function RestingPair(base: Battery, c: Id, x: Id, y: Id): Batteries {
    var b := Cell(base, c, 100.0, 0.0, Some(200.0));
    map[x := b, y := b]
  }

  lemma SumOfTwo(x: Id, y: Id, f: map<Id, real>)
    requires x != y && x in f && y in f
    ensures Sum({x, y}, f) == f[x] + f[y]
  {
    SumPick({x, y}, f, x);
    assert {x, y} - {x} == {y};
    SumPick({y}, f, y);
    assert {y} - {y} == {};
  }

  lemma PairIsFormed(base: Battery, c: Id, x: Id, y: Id, cfg: DispatcherConfig, now: Time)
    requires x != y
    ensures var bats, circuits := RestingPair(base, c, x, y), Breaker(c, 0.5, [x, y]);
            && WellFormed(bats, circuits) && CapW(circuits[c].config) == 100.0
            && Eligible(bats, circuits, now) == {x, y} == Dispatched(bats, circuits, now) == On(bats, c)
            && Members(circuits[c]) == {x, y}
  {
    hide Cell, Fresh, WellFormed, CapW, Eligible, Dispatched, On;
    CellSlot(base, c, 100.0, 0.0, Some(200.0), cfg, now, false);
    assert IdSet([x, y]) == {x, y};
    BreakerIsFormed(RestingPair(base, c, x, y), c, 0.5, [x, y], 100.0, now);
  }

  lemma NothingToShare(p: map<Id, Slot>, ids: set<Id>)
    requires ids <= p.Keys
    ensures Allocate(p, ids, 0.0, CUTOFF) == map id | id in ids :: 0.0
  {
    hide Run;
    assert Start(ids, 0.0).targets.Keys == ids;
    RunStep(p, Start(ids, 0.0), 0.0, CUTOFF, ROUNDS);
  }

  /** A balanced grid and resting batteries ask for nothing. */
  lemma PairShares(base: Battery, c: Id, x: Id, y: Id, cfg: DispatcherConfig, now: Time)
    requires x != y
    ensures var bats, circuits := RestingPair(base, c, x, y), Breaker(c, 0.5, [x, y]);
            && Eligible(bats, circuits, now) == {x, y} == Members(circuits[c])
            && DesiredTotal(bats, {x, y}, 0.0) == 0.0
            && Shares(bats, circuits, cfg, now, 0.0, CUTOFF) == map[x := 0.0, y := 0.0]
  {
    hide Slots, Sum, Allocate, Cell, WellFormed, CapW;
    var bats := RestingPair(base, c, x, y);
    PairIsFormed(base, c, x, y, cfg, now);
    CellSlot(base, c, 100.0, 0.0, Some(200.0), cfg, now, false);
    SumOfTwo(x, y, Plugs(bats));
    NothingToShare(Slots(bats, cfg, now, false), {x, y});
  }

  lemma PairIsQuiet(base: Battery, c: Id, x: Id, y: Id, cfg: DispatcherConfig, now: Time)
    requires x != y
    ensures var bats, circuits := RestingPair(base, c, x, y), Breaker(c, 0.5, [x, y]);
            var rest := map[x := 0.0, y := 0.0];
            && Members(circuits[c]) == {x, y} && !SubMinimum(circuits[c], rest)
            && RateLimited(bats, {x, y}, rest, RateLimit(cfg)) == rest
            && WorstCase(circuits[c], bats, rest) == 0.0
            && NoOpposition(circuits[c], bats, {x, y}, 0.0, RateLimit(cfg))
  {
    hide Sum, Cell, WellFormed, CapW, RateLimit;
    var bats := RestingPair(base, c, x, y);
    PairIsFormed(base, c, x, y, cfg, now);
    CellSlot(base, c, 100.0, 0.0, Some(200.0), cfg, now, false);
    SumOfTwo(x, y, Plugs(bats));
    SumOfTwo(x, y, map[x := 0.0, y := 0.0]);
  }

  lemma PairTargets(base: Battery, c: Id, x: Id, y: Id, cfg: DispatcherConfig, now: Time)
    requires x != y
    ensures var bats, circuits := RestingPair(base, c, x, y), Breaker(c, 0.5, [x, y]);
            && WellFormed(bats, circuits)
            && TargetsFor(bats, circuits, cfg, 0.0, now, CUTOFF) == map[x := 0.0, y := 0.0]
  {
    hide Cell, Shares, DesiredTotal, WellFormed, CapW, Eligible, SubMinimum, RateLimited, WorstCase, TargetsFor;
    hide RateLimit;
    var bats, circuits := RestingPair(base, c, x, y), Breaker(c, 0.5, [x, y]);
    var rest := map[x := 0.0, y := 0.0];
    PairIsFormed(base, c, x, y, cfg, now);
    PairShares(base, c, x, y, cfg, now);
    PairIsQuiet(base, c, x, y, cfg, now);
    PlainTargets(bats, circuits, cfg, 0.0, now, c, rest, rest);
  }

  /** Nobody is asked for anything, and both are told to charge at 100 W, on a
      100 W circuit: the alarm fires, whatever the dispatcher's knobs. */
  lemma OverheadOverrunsTheCap(base: Battery, c: Id, x: Id, y: Id, cfg: DispatcherConfig, now: Time)
    requires x != y
    ensures var bats, circuits := RestingPair(base, c, x, y), Breaker(c, 0.5, [x, y]);
            && WellFormed(bats, circuits)
            && var t := TargetsFor(bats, circuits, cfg, 0.0, now, CUTOFF);
               && NoOpposition(circuits[c], bats, {x, y}, DesiredTotal(bats, {x, y}, 0.0), RateLimit(cfg))
               && CommandedOn(bats, t, c, Dispatched(bats, circuits, now)) == -200.0
               && CapW(circuits[c].config) == 100.0
               && c in OverCap(bats, circuits, t, Dispatched(bats, circuits, now))
  {
    hide TargetsFor, Sum, WellFormed, CapW, RateLimit, DesiredTotal, Dispatched, On, Cell, NoOpposition, CommandedW;
    var bats, circuits := RestingPair(base, c, x, y), Breaker(c, 0.5, [x, y]);
    PairIsFormed(base, c, x, y, cfg, now);
    PairShares(base, c, x, y, cfg, now);
    PairIsQuiet(base, c, x, y, cfg, now);
    PairTargets(base, c, x, y, cfg, now);
    RestingCellCharges(base, c);
    SumOfTwo(x, y, Commands(bats, TargetsFor(bats, circuits, cfg, 0.0, now, CUTOFF)));
    assert On(bats, c) * Dispatched(bats, circuits, now) == {x, y};
  }

  lemma RestingCellCharges(base: Battery, c: Id)
    ensures CommandedW(Cell(base, c, 100.0, 0.0, Some(200.0)), 0.0) == -100.0
  {
  }

  // ------------------------------------------------------------------
  // A reading that opposes the dispatch
  // ------------------------------------------------------------------

  /** Three 2500 W batteries on a 3000 W circuit. Two discharge at 2000 W, the
      third still charges at 1500 W, with 200 W more at the plug than told. */
  function TurningTrio(base: Battery, c: Id, x: Id, y: Id, z: Id): Batteries {
    var b := Cell(base, c, 2500.0, 2000.0, None);
    map[x := b, y := b, z := Cell(base, c, 2500.0, -1500.0, Some(-200.0))]
  }

  lemma SumOfThree(x: Id, y: Id, z: Id, f: map<Id, real>)
    requires x != y && y != z && x != z && x in f && y in f && z in f
    ensures Sum({x, y, z}, f) == f[x] + f[y] + f[z]
  {
    SumPick({x, y, z}, f, z);
    assert {x, y, z} - {z} == {x, y};
    SumOfTwo(x, y, f);
  }

  lemma TrioIsFormed(base: Battery, c: Id, x: Id, y: Id, z: Id, cfg: DispatcherConfig, now: Time)
    requires x != y && y != z && x != z
    ensures var bats, circuits := TurningTrio(base, c, x, y, z), Breaker(c, 15.0, [x, y, z]);
            && WellFormed(bats, circuits) && CapW(circuits[c].config) == 3000.0
            && Eligible(bats, circuits, now) == {x, y, z} == Dispatched(bats, circuits, now) == On(bats, c)
            && Members(circuits[c]) == {x, y, z}
  {
    hide Cell, Fresh, WellFormed, CapW, Eligible, Dispatched, On;
    CellSlot(base, c, 2500.0, 2000.0, None, cfg, now, false);
    CellSlot(base, c, 2500.0, -1500.0, Some(-200.0), cfg, now, false);
    assert IdSet([x, y, z]) == {x, y, z};
    BreakerIsFormed(TurningTrio(base, c, x, y, z), c, 15.0, [x, y, z], 2500.0, now);
  }

  /** Equal weights, room for all: one round shares the total out evenly. */
  lemma EvenThirds(p: map<Id, Slot>, x: Id, y: Id, z: Id, slot: Slot)
    requires x != y && y != z && x != z && p == map[x := slot, y := slot, z := slot]
    requires slot.weight > 0.0 && slot.lo <= 2000.0 <= slot.hi
    ensures Allocate(p, {x, y, z}, 6000.0, CUTOFF) == map[x := 2000.0, y := 2000.0, z := 2000.0]
  {
    hide Sum, Run, Round;
    var f := Start({x, y, z}, 6000.0);
    SumOfThree(x, y, z, Weights(p));
    RunStep(p, f, 6000.0, CUTOFF, ROUNDS);
    Third(slot);
    RoundOfEquals(p, {x, y, z}, slot, 6000.0, 2000.0, 3.0 * slot.weight);
    assert f.targets.Keys == {x, y, z};
  }

  lemma Third(slot: Slot)
    requires slot.weight > 0.0
    ensures Proposal(slot, 0.0, 6000.0, 3.0 * slot.weight) == 2000.0
  {
    assert 6000.0 * slot.weight == 2000.0 * (3.0 * slot.weight);
  }

  lemma TrioShares(base: Battery, c: Id, x: Id, y: Id, z: Id, cfg: DispatcherConfig, now: Time)
    requires x != y && y != z && x != z
    ensures var bats, circuits := TurningTrio(base, c, x, y, z), Breaker(c, 15.0, [x, y, z]);
            && Eligible(bats, circuits, now) == {x, y, z} == Members(circuits[c])
            && DesiredTotal(bats, {x, y, z}, 3510.0) == 6000.0
            && Shares(bats, circuits, cfg, now, 6000.0, CUTOFF) == map[x := 2000.0, y := 2000.0, z := 2000.0]
  {
    hide SlotOf, Sum, Allocate, Cell, WellFormed, CapW;
    var bats := TurningTrio(base, c, x, y, z);
    TrioIsFormed(base, c, x, y, z, cfg, now);
    CellSlot(base, c, 2500.0, 2000.0, None, cfg, now, false);
    CellSlot(base, c, 2500.0, -1500.0, Some(-200.0), cfg, now, false);
    SumOfThree(x, y, z, Plugs(bats));
    assert |{x, y, z}| == 3;
    EvenThirds(Slots(bats, cfg, now, false), x, y, z, Slot(250000.0, -2500.0, 2500.0));
  }

  /** The rate limit lets the third battery keep 1000 W of charge ... */
  lemma TrioTurns(base: Battery, c: Id, x: Id, y: Id, z: Id, cfg: DispatcherConfig, now: Time)
    requires x != y && y != z && x != z && cfg.rateLimitWPerCycle == 500.0
    ensures var bats := TurningTrio(base, c, x, y, z);
            RateLimited(bats, {x, y, z}, map[x := 2000.0, y := 2000.0, z := 2000.0], RateLimit(cfg))
              == map[x := 2000.0, y := 2000.0, z := -1000.0]
  {
    hide Cell, SlotOf, Limited;
    TurningSteps();
    CellSlot(base, c, 2500.0, 2000.0, None, cfg, now, false);
    CellSlot(base, c, 2500.0, -1500.0, Some(-200.0), cfg, now, false);
  }

  lemma TurningSteps()
    ensures Limited(2000.0, 2000.0, 500.0) == 2000.0 && Limited(-1500.0, 2000.0, 500.0) == -1000.0
  {
  }

  /** ... so that the targets just fit under the fuse. */
  lemma TrioFits(base: Battery, c: Id, x: Id, y: Id, z: Id, cfg: DispatcherConfig, now: Time)
    requires x != y && y != z && x != z
    ensures var bats, circuits := TurningTrio(base, c, x, y, z), Breaker(c, 15.0, [x, y, z]);
            && Members(circuits[c]) == {x, y, z}
            && !SubMinimum(circuits[c], map[x := 2000.0, y := 2000.0, z := 2000.0])
            && WorstCase(circuits[c], bats, map[x := 2000.0, y := 2000.0, z := -1000.0]) == 3000.0
  {
    hide Sum, Cell, WellFormed, CapW, Fresh, Eligible, Dispatched, On, SlotOf;
    var bats, circuits := TurningTrio(base, c, x, y, z), Breaker(c, 15.0, [x, y, z]);
    TrioIsFormed(base, c, x, y, z, cfg, now);
    CellSlot(base, c, 2500.0, 2000.0, None, cfg, now, false);
    CellSlot(base, c, 2500.0, -1500.0, Some(-200.0), cfg, now, false);
    SumOfThree(x, y, z, Plugs(bats));
    SumOfThree(x, y, z, map[x := 2000.0, y := 2000.0, z := -1000.0]);
    assert x in Members(circuits[c]);
  }

  lemma TrioTargets(base: Battery, c: Id, x: Id, y: Id, z: Id, cfg: DispatcherConfig, now: Time)
    requires x != y && y != z && x != z && cfg.rateLimitWPerCycle == 500.0
    ensures var bats, circuits := TurningTrio(base, c, x, y, z), Breaker(c, 15.0, [x, y, z]);
            && WellFormed(bats, circuits)
            && TargetsFor(bats, circuits, cfg, 3510.0, now, CUTOFF) == map[x := 2000.0, y := 2000.0, z := -1000.0]
  {
    hide Cell, Shares, DesiredTotal, WellFormed, CapW, Eligible, SubMinimum, RateLimited, WorstCase, TargetsFor;
    hide RateLimit;
    var bats, circuits := TurningTrio(base, c, x, y, z), Breaker(c, 15.0, [x, y, z]);
    TrioIsFormed(base, c, x, y, z, cfg, now);
    TrioShares(base, c, x, y, z, cfg, now);
    TrioTurns(base, c, x, y, z, cfg, now);
    TrioFits(base, c, x, y, z, cfg, now);
    PlainTargets(bats, circuits, cfg, 3510.0, now, c, map[x := 2000.0, y := 2000.0, z := 2000.0],
                 map[x := 2000.0, y := 2000.0, z := -1000.0]);
  }

  lemma TrioCommands(base: Battery, c: Id)
    ensures var free, loaded := Cell(base, c, 2500.0, 2000.0, None), Cell(base, c, 2500.0, -1500.0, Some(-200.0));
            && CommandedW(free, 2000.0) == 2000.0 && OverheadFits(2000.0, OverheadOf(free))
            && CommandedW(loaded, -1000.0) == -800.0 && OverheadFits(-1000.0, OverheadOf(loaded))
  {
  }

  /** The targets are worth 3000 W, but the charge command is trimmed by the
      overhead of its plug: 3200 W of commands on a 3000 W circuit. */
  lemma OppositionOverrunsTheCap(base: Battery, c: Id, x: Id, y: Id, z: Id, cfg: DispatcherConfig, now: Time)
    requires x != y && y != z && x != z && cfg.rateLimitWPerCycle == 500.0
    ensures var bats, circuits := TurningTrio(base, c, x, y, z), Breaker(c, 15.0, [x, y, z]);
            && WellFormed(bats, circuits)
            && var t := TargetsFor(bats, circuits, cfg, 3510.0, now, CUTOFF);
               && (forall m :: m in bats ==> OverheadFits(t[m], OverheadOf(bats[m])))
               && CommandedOn(bats, t, c, Dispatched(bats, circuits, now)) == 3200.0
               && CapW(circuits[c].config) == 3000.0
               && c in OverCap(bats, circuits, t, Dispatched(bats, circuits, now))
  {
    hide TargetsFor, Sum, WellFormed, CapW, Dispatched, On, Cell, CommandedW, OverheadFits, OverheadOf;
    var bats, circuits := TurningTrio(base, c, x, y, z), Breaker(c, 15.0, [x, y, z]);
    TrioIsFormed(base, c, x, y, z, cfg, now);
    TrioTargets(base, c, x, y, z, cfg, now);
    TrioCommands(base, c);
    SumOfThree(x, y, z, Commands(bats, TargetsFor(bats, circuits, cfg, 3510.0, now, CUTOFF)));
    assert On(bats, c) * Dispatched(bats, circuits, now) == {x, y, z};
  }

  // ------------------------------------------------------------------
  // A panic
  // ------------------------------------------------------------------

  /** A charge-only battery, valid in every configuration, that is read at 600 W
      of discharge: with a rate limit of 500 W the tick panics. */
  lemma ChargeOnlyPanics(base: Battery, c: Id, x: Id, cfg: DispatcherConfig, gridW: real, now: Time)
    requires cfg.rateLimitWPerCycle == 500.0
    ensures var bats := map[x := Cell(base, c, 2500.0, 600.0, None).(maxDischargeW := 0.0)];
            var circuits := Breaker(c, 15.0, [x]);
            && WellFormed(bats, circuits)
            && !NoPanic(bats, TargetsFor(bats, circuits, cfg, gridW, now, CUTOFF), Dispatched(bats, circuits, now))
  {
    hide TargetsFor, NoPanic, WellFormed;
    var b := Cell(base, c, 2500.0, 600.0, None).(maxDischargeW := 0.0);
    assert IdSet([x]) == {x};
    BreakerIsFormed(map[x := b], c, 15.0, [x], 2500.0, now);
    ReadingPanics(map[x := b], Breaker(c, 15.0, [x]), cfg, gridW, now, x);
  }
}
