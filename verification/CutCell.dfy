/** A cut battery keeps the grid out of the band: two equal batteries, one of
    them cut, and the loop repeats one state for the whole cut. */
module CutCell {
  import opened Prelude
  import opened Sums
  import opened Config
  import opened State
  import opened WaterFill
  import opened Demand
  import opened Targets
  import opened ClosedLoop
  import opened Settling
  import opened CapOverruns
  import CapSafety

  /** Two 2500 W batteries on a 6000 W circuit. One discharges at 495 W, the
      other is cut until `back` and reads 0 W. */
  function HalfCut(base: Battery, c: Id, x: Id, y: Id, back: Time): Batteries {
    var b := base.(hasWriter := true);
    map[x := Cell(b, c, 2500.0, 495.0, None), y := Cell(b, c, 2500.0, 0.0, None).(plugCutUntil := Some(back))]
  }

  /** What matters of a cell survives the cut. */
  lemma CellCut(base: Battery, c: Id, plug: real, cut: Option<Time>, cfg: DispatcherConfig, now: Time)
    ensures var b := Cell(base, c, 2500.0, plug, None).(plugCutUntil := cut);
            && b.circuit == c && LimitsOk(b) && Max(b.maxChargeW, b.maxDischargeW) == 2500.0
            && b.lastPlugW == Some(plug) && b.hasWriter == base.hasWriter
            && SlotOf(b, cfg, now, false) == Slot(250000.0, -2500.0, 2500.0)
  {
  }

  lemma HalfCutBatteries(base: Battery, c: Id, x: Id, y: Id, back: Time, cfg: DispatcherConfig, now: Time)
    requires x != y && now < back
    ensures var bats, slot := HalfCut(base, c, x, y, back), Slot(250000.0, -2500.0, 2500.0);
            && (forall id :: id in bats ==>
                  && bats[id].circuit == c && LimitsOk(bats[id]) && bats[id].hasWriter
                  && Max(bats[id].maxChargeW, bats[id].maxDischargeW) == 2500.0
                  && SlotOf(bats[id], cfg, now, false) == slot)
            && bats[x].lastPlugW == Some(495.0) && bats[y].lastPlugW == Some(0.0)
            && !IsCut(bats[x], now) && IsCut(bats[y], now)
  {
    hide Cell, LimitsOk, SlotOf;
    var b := base.(hasWriter := true);
    CellCut(b, c, 495.0, None, cfg, now);
    CellCut(b, c, 0.0, Some(back), cfg, now);
    CellIsUncut(b, c);
  }

  lemma CellIsUncut(base: Battery, c: Id)
    ensures var b := Cell(base, c, 2500.0, 495.0, None); b == b.(plugCutUntil := None) && b.plugCutUntil == None
  {
  }

  lemma HalfCutIsFormed(base: Battery, c: Id, x: Id, y: Id, back: Time, cfg: DispatcherConfig, now: Time)
    requires x != y && now < back
    ensures var bats, circuits := HalfCut(base, c, x, y, back), Breaker(c, 30.0, [x, y]);
            && WellFormed(bats, circuits) && CapW(circuits[c].config) == 6000.0
            && Eligible(bats, circuits, now) == {x, y} == Members(circuits[c])
            && CapSafety.Dispatched(bats, circuits, now) == {x} == Heard(bats, circuits, now)
  {
    hide LimitsOk, Cell, SlotOf;
    var bats, circuits := HalfCut(base, c, x, y, back), Breaker(c, 30.0, [x, y]);
    HalfCutBatteries(base, c, x, y, back, cfg, now);
    assert circuits[c].memberIds == [x, y];
    forall id | id in bats
      ensures Homed(id, bats[id], circuits)
    {
      assert id == x || id == y;
    }
  }

  /** Each is asked for half of 990 W. */
  lemma Halves(p: map<Id, Slot>, x: Id, y: Id, slot: Slot)
    requires x != y && p == map[x := slot, y := slot] && slot.weight > 0.0 && slot.lo <= 495.0 <= slot.hi
    ensures Allocate(p, {x, y}, 990.0, CUTOFF) == map[x := 495.0, y := 495.0]
  {
    hide Sum, Run, Round, Proposal;
    var f := Start({x, y}, 990.0);
    SumOfTwo(x, y, Weights(p));
    RunStep(p, f, 990.0, CUTOFF, ROUNDS);
    Half(slot);
    RoundOfEquals(p, {x, y}, slot, 990.0, 495.0, 2.0 * slot.weight);
    assert f.targets.Keys == {x, y};
  }

  lemma Half(slot: Slot)
    requires slot.weight > 0.0
    ensures Proposal(slot, 0.0, 990.0, 2.0 * slot.weight) == 495.0
  {
    assert 990.0 * slot.weight == 495.0 * (2.0 * slot.weight);
  }

  lemma HalfCutShares(base: Battery, c: Id, x: Id, y: Id, back: Time, cfg: DispatcherConfig, now: Time)
    requires x != y && now < back
    ensures var bats, circuits := HalfCut(base, c, x, y, back), Breaker(c, 30.0, [x, y]);
            && FleetTotal(bats, circuits, now) == 495.0
            && DesiredTotal(bats, {x, y}, 505.0) == 990.0
            && Shares(bats, circuits, cfg, now, 990.0, CUTOFF) == map[x := 495.0, y := 495.0]
  {
    hide SlotOf, Sum, Allocate, Cell, WellFormed, CapW, Heard, CapSafety.Dispatched;
    var bats := HalfCut(base, c, x, y, back);
    HalfCutIsFormed(base, c, x, y, back, cfg, now);
    HalfCutSlots(base, c, x, y, back, cfg, now);
    SumOfTwo(x, y, Plugs(bats));
    assert |{x, y}| == 2;
    Halves(Slots(bats, cfg, now, false), x, y, Slot(250000.0, -2500.0, 2500.0));
  }

  lemma HalfCutSlots(base: Battery, c: Id, x: Id, y: Id, back: Time, cfg: DispatcherConfig, now: Time)
    requires x != y && now < back
    ensures var bats, slot := HalfCut(base, c, x, y, back), Slot(250000.0, -2500.0, 2500.0);
            && Slots(bats, cfg, now, false) == map[x := slot, y := slot]
            && Plugs(bats) == map[x := 495.0, y := 0.0]
  {
    hide Cell, LimitsOk, SlotOf;
    HalfCutBatteries(base, c, x, y, back, cfg, now);
  }

  /** The targets: 495 W for the one, as much as the ramp allows for the other. */
  lemma HalfCutTargets(base: Battery, c: Id, x: Id, y: Id, back: Time, cfg: DispatcherConfig, now: Time)
    requires x != y && now < back
    ensures var bats, circuits := HalfCut(base, c, x, y, back), Breaker(c, 30.0, [x, y]);
            && WellFormed(bats, circuits)
            && TargetsFor(bats, circuits, cfg, 505.0, now, CUTOFF)
                 == map[x := 495.0, y := Limited(0.0, 495.0, RateLimit(cfg))]
  {
    hide SlotOf, Sum, Cell, WellFormed, CapW, Heard, CapSafety.Dispatched, Shares, DesiredTotal, TargetsFor, RateLimit;
    var bats, circuits := HalfCut(base, c, x, y, back), Breaker(c, 30.0, [x, y]);
    var shares, limited := map[x := 495.0, y := 495.0], map[x := 495.0, y := Limited(0.0, 495.0, RateLimit(cfg))];
    HalfCutIsFormed(base, c, x, y, back, cfg, now);
    HalfCutSlots(base, c, x, y, back, cfg, now);
    HalfCutShares(base, c, x, y, back, cfg, now);
    SumOfTwo(x, y, Plugs(bats));
    SumOfTwo(x, y, limited);
    assert x in Members(circuits[c]);
    assert RateLimited(bats, {x, y}, shares, RateLimit(cfg)) == limited;
    PlainTargets(bats, circuits, cfg, 505.0, now, c, shares, limited);
  }

  lemma HalfCutStays(base: Battery, c: Id, x: Id, y: Id, back: Time, cfg: DispatcherConfig, now: Time)
    requires x != y && now < back
    ensures var bats, circuits := HalfCut(base, c, x, y, back), Breaker(c, 30.0, [x, y]);
            && WellFormed(bats, circuits) && GridReading(bats, circuits, now, 1000.0) == 505.0
            && Tick(bats, circuits, cfg, now, 1000.0, CUTOFF) == bats
  {
    hide Sum, WellFormed, CapW, CapSafety.Dispatched, TargetsFor, RateLimit, Eligible, Heard, HalfCut, Breaker;
    hide FleetTotal;
    hide Shares, DesiredTotal, LimitsOk, SlotOf;
    HalfCutIsFormed(base, c, x, y, back, cfg, now);
    HalfCutShares(base, c, x, y, back, cfg, now);
    HalfCutTargets(base, c, x, y, back, cfg, now);
    HalfCutBatteries(base, c, x, y, back, cfg, now);
  }

  /** Nothing changes, and 505 W come from the grid for as long as the cut lasts. */
  lemma {:induction false} CutCellIsMissed(base: Battery, c: Id, x: Id, y: Id, back: Time, cfg: DispatcherConfig,
                                           now: Time,
                                           k: nat)
    requires x != y && now < back
    ensures var bats, circuits := HalfCut(base, c, x, y, back), Breaker(c, 30.0, [x, y]);
            && WellFormed(bats, circuits)
            && After(bats, circuits, cfg, now, 1000.0, CUTOFF, k) == bats
            && GridReading(bats, circuits, now, 1000.0) == 505.0
  {
    hide WellFormed, HalfCut, Breaker, Tick, GridReading;
    HalfCutStays(base, c, x, y, back, cfg, now);
    if k > 0 {
      CutCellIsMissed(base, c, x, y, back, cfg, now, k - 1);
    }
  }
}
