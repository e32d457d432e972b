/** What the two dispatch modes share: who takes part, how many watts are
    wanted in total, and the weight of each battery. */
module Demand {
  import opened Prelude
  import opened Sums
  import opened Config
  import opened State
  import opened WaterFill

  // ------------------------------------------------------------------
  // Grid correction
  // ------------------------------------------------------------------

  /** Below this total the fleet counts as idle: half the firmware minimum per
      battery, so that stand-by losses are not read as dispatch. */
  function IdleThreshold(eligibleCount: nat): real {
    Max(MARSTEK_MIN_W * eligibleCount as real / 2.0, SAFETY_MARGIN_W)
  }

  function GridCorrection(gridW: real, currentTotal: real, eligibleCount: nat): real {
    var margin := SAFETY_MARGIN_W;
    var idle := IdleThreshold(eligibleCount);
    if currentTotal < -idle then gridW + margin
    else if currentTotal > idle then gridW - margin
    else if gridW > margin then gridW - margin
    else if gridW < -margin then gridW + margin
    else 0.0
  }

  // ------------------------------------------------------------------
  // Participants
  // ------------------------------------------------------------------

  function PlugOf(b: Battery): real {
    b.lastPlugW.GetOr(0.0)
  }

  function Plugs(bats: Batteries): (plugs: map<Id, real>)
    ensures plugs.Keys == bats.Keys
  {
    map id | id in bats :: PlugOf(bats[id])
  }

  /** Not on a muted circuit, and with a plug reading. */
  function Eligible(bats: Batteries, circuits: Circuits, now: Time): (eligible: set<Id>)
    ensures eligible <= bats.Keys
  {
    set id | id in bats && !Muted(circuits, bats[id].circuit, now) && bats[id].lastPlugW.Some?
  }

  function Product(priority: real, capacity: real, room: real): real {
    priority * capacity * room
  }

  /** priority * capacity * room left in the direction of dispatch; 0 when the
      direction is locked out, 50 points of room when the charge is unknown. */
  function WeightOf(b: Battery, cfg: DispatcherConfig, now: Time, charging: bool): real {
    if charging && IsChargeLocked(b, now) then 0.0
    else if !charging && IsDischargeLocked(b, now) then 0.0
    else
      var capacity := if b.capacityWh > 0.0 then b.capacityWh else b.maxChargeW + b.maxDischargeW;
      var room :=
        if b.socPct.None? then 50.0
        else if charging then Max(EffectiveSocFullPct(b, cfg.socFullPct) - b.socPct.value, 0.0)
        else Max(b.socPct.value - EffectiveSocEmptyPct(b, cfg.socEmptyPct), 0.0);
      Product(b.priorityWeight, capacity, room)
  }

  function SlotOf(b: Battery, cfg: DispatcherConfig, now: Time, charging: bool): Slot {
    Slot(WeightOf(b, cfg, now, charging), LowBound(b, cfg, now), HighBound(b, cfg, now))
  }

  function Slots(bats: Batteries, cfg: DispatcherConfig, now: Time, charging: bool): (p: map<Id, Slot>)
    ensures p.Keys == bats.Keys
  {
    map id | id in bats :: SlotOf(bats[id], cfg, now, charging)
  }

  lemma ProductNonNegative(a: real, b: real, c: real)
    requires a >= 0.0 && b >= 0.0 && c >= 0.0
    ensures Product(a, b, c) >= 0.0
  {
  }

  lemma SlotIsOk(b: Battery, cfg: DispatcherConfig, now: Time, charging: bool)
    requires LimitsOk(b)
    ensures SlotOf(b, cfg, now, charging).Ok()
  {
    hide Product;
    BoundsOrdered(b, cfg, now);
    var capacity := if b.capacityWh > 0.0 then b.capacityWh else b.maxChargeW + b.maxDischargeW;
    var room :=
      if b.socPct.None? then 50.0
      else if charging then Max(EffectiveSocFullPct(b, cfg.socFullPct) - b.socPct.value, 0.0)
      else Max(b.socPct.value - EffectiveSocEmptyPct(b, cfg.socEmptyPct), 0.0);
    ProductNonNegative(b.priorityWeight, capacity, room);
  }

  lemma SlotsAreValid(bats: Batteries, cfg: DispatcherConfig, now: Time, charging: bool)
    requires forall id :: id in bats ==> LimitsOk(bats[id])
    ensures Valid(Slots(bats, cfg, now, charging))
  {
    hide LimitsOk, SlotOf;
    forall id | id in bats
      ensures SlotOf(bats[id], cfg, now, charging).Ok()
    {
      SlotIsOk(bats[id], cfg, now, charging);
    }
  }

  /** The total the fleet should deliver next. */
  ghost function DesiredTotal(bats: Batteries, eligible: set<Id>, gridW: real): real
    requires eligible <= bats.Keys
  {
    var current := Sum(eligible, Plugs(bats));
    current + GridCorrection(gridW, current, |eligible|)
  }

  // ------------------------------------------------------------------
  // The grid loop on totals
  // ------------------------------------------------------------------

  /** One tick on totals: the house draws `load` net of PV, the fleet delivers
      `total`, the grid supplies the rest, and the fleet lands on the new total. */
  function NextTotal(load: real, total: real, eligibleCount: nat): real {
    total + GridCorrection(load - total, total, eligibleCount)
  }

  /** One tick brings the grid into the band, from any total. */
  lemma OneTickReachesTheBand(load: real, total: real, n: nat)
    ensures Abs(load - NextTotal(load, total, n)) <= SAFETY_MARGIN_W
  {
  }

  /** The total stops moving after two ticks: the idle threshold is no smaller
      than the margin, so the -10 W and +10 W targets never alternate. */
  lemma TotalStopsAfterTwoTicks(load: real, total: real, n: nat)
    ensures var second := NextTotal(load, NextTotal(load, total, n), n);
            NextTotal(load, second, n) == second
  {
  }
}
