/** What the weights are for: among otherwise equal batteries the emptier one
    charges more and the fuller one discharges more, and a share too small for
    the firmware never stays one when the circuit total is worth a command. */
module Preference {
  import opened Prelude
  import opened Sums
  import opened Config
  import opened State
  import opened WaterFill
  import opened Demand
  import opened Targets
  import opened TargetLaws
  import opened Limits

  /** Two batteries that differ, for the allocator, in their charge only. */
  predicate Twins(a: Battery, b: Battery, now: Time) {
    && LimitsOk(a) && a.socPct.Some? && b.socPct.Some?
    && a.maxChargeW == b.maxChargeW && a.maxDischargeW == b.maxDischargeW && a.capacityWh == b.capacityWh
    && a.priorityWeight == b.priorityWeight
    && a.socFullPct == b.socFullPct && a.socEmptyPct == b.socEmptyPct
    && a.bmsFullPct == b.bmsFullPct && a.bmsEmptyPct == b.bmsEmptyPct
    && a.chargeTaperSocPct == b.chargeTaperSocPct && a.chargeTaperW == b.chargeTaperW
    && a.dischargeTaperSocPct == b.dischargeTaperSocPct && a.dischargeTaperW == b.dischargeTaperW
    && IsChargeLocked(a, now) == IsChargeLocked(b, now) && IsDischargeLocked(a, now) == IsDischargeLocked(b, now)
  }

  lemma ProductMonotone(p: real, c: real, x: real, y: real)
    requires p >= 0.0 && c >= 0.0 && x <= y
    ensures Product(p, c, x) <= Product(p, c, y)
  {
    assert p * c >= 0.0;
    assert (p * c) * (y - x) >= 0.0;
  }

  lemma EmptierWeighsMore(a: Battery, b: Battery, cfg: DispatcherConfig, now: Time)
    requires Twins(a, b, now) && a.socPct.value <= b.socPct.value
    ensures WeightOf(a, cfg, now, true) >= WeightOf(b, cfg, now, true)
    ensures WeightOf(a, cfg, now, false) <= WeightOf(b, cfg, now, false)
    ensures LowBound(a, cfg, now) <= LowBound(b, cfg, now)
    ensures HighBound(a, cfg, now) <= HighBound(b, cfg, now)
  {
    hide Product;
    var capacity := if a.capacityWh > 0.0 then a.capacityWh else a.maxChargeW + a.maxDischargeW;
    var full, empty := EffectiveSocFullPct(a, cfg.socFullPct), EffectiveSocEmptyPct(a, cfg.socEmptyPct);
    ProductMonotone(a.priorityWeight, capacity, Max(full - b.socPct.value, 0.0), Max(full - a.socPct.value, 0.0));
    ProductMonotone(a.priorityWeight, capacity, Max(a.socPct.value - empty, 0.0), Max(b.socPct.value - empty, 0.0));
  }

  lemma LevelOrder(a: Slot, b: Slot, lambda: real)
    requires a.Ok() && b.Ok() && a.lo <= b.lo && a.hi <= b.hi
    requires lambda < 0.0 ==> a.weight >= b.weight
    requires lambda > 0.0 ==> a.weight <= b.weight
    requires lambda != 0.0
    ensures LevelOf(a, lambda) <= LevelOf(b, lambda)
  {
    hide Mul;
    LevelWeights(lambda, a.weight, b.weight);
  }

  lemma LevelWeights(lambda: real, v: real, w: real)
    requires if lambda < 0.0 then v >= w else v <= w
    ensures Mul(lambda, v) <= Mul(lambda, w)
  {
    assert lambda * (w - v) >= 0.0;
  }

  /** Main result: of two otherwise equal eligible batteries the emptier one is
      given no less charge and no more discharge than the fuller one. */
  lemma EmptierChargesMore(bats: Batteries, circuits: Circuits, cfg: DispatcherConfig, now: Time, desired: real,
                           eps: real,
                           a: Id, b: Id)
    requires WellFormed(bats, circuits) && eps >= 0.0
    requires a in Eligible(bats, circuits, now) && b in Eligible(bats, circuits, now)
    requires Twins(bats[a], bats[b], now) && bats[a].socPct.value <= bats[b].socPct.value
    ensures var t := Shares(bats, circuits, cfg, now, desired, eps);
            t[a] <= t[b]
  {
    hide Allocate, WeightOf, LowBound, HighBound, LimitsOk, WellFormed, Sum, LevelOf, Eligible, Twins;
    var charging := desired < 0.0;
    var p := Slots(bats, cfg, now, charging);
    var eligible := Eligible(bats, circuits, now);
    LimitsOfWellFormed(bats, circuits);
    SlotsAreValid(bats, cfg, now, charging);
    var level := AllocateHasLevel(p, eligible, desired, eps);
    EmptierWeighsMore(bats[a], bats[b], cfg, now);
    assert p[a].Ok() && p[b].Ok();
    if level == 0.0 {
      LevelZero(p[a]);
      LevelZero(p[b]);
    } else {
      LevelOrder(p[a], p[b], level);
    }
  }

  lemma LevelZero(slot: Slot)
    requires slot.Ok()
    ensures LevelOf(slot, 0.0) == 0.0
  {
  }

  // ------------------------------------------------------------------
  // Proportion
  // ------------------------------------------------------------------

  /** Main result: two eligible batteries that neither bound holds back share in
      proportion to their claims, the energy left in the direction of dispatch
      times the priority, and neither is locked out of that direction. */
  lemma SharesAreProportional(bats: Batteries, circuits: Circuits, cfg: DispatcherConfig, now: Time, desired: real,
                              eps: real, a: Id, b: Id)
    requires WellFormed(bats, circuits) && eps >= 0.0
    requires a in Eligible(bats, circuits, now) && b in Eligible(bats, circuits, now)
    requires var t := Shares(bats, circuits, cfg, now, desired, eps);
             && LowBound(bats[a], cfg, now) < t[a] < HighBound(bats[a], cfg, now)
             && LowBound(bats[b], cfg, now) < t[b] < HighBound(bats[b], cfg, now)
    ensures var t, charging := Shares(bats, circuits, cfg, now, desired, eps), desired < 0.0;
            && !Locked(bats[a], now, charging) && !Locked(bats[b], now, charging)
            && Mul(t[a], Claim(bats[b], cfg, charging)) == Mul(t[b], Claim(bats[a], cfg, charging))
  {
    hide Allocate, WeightOf, LimitsOk, WellFormed, Sum, Eligible, Claim, Mul;
    var charging := desired < 0.0;
    var p := Slots(bats, cfg, now, charging);
    LimitsOfWellFormed(bats, circuits);
    SlotsAreValid(bats, cfg, now, charging);
    var level := AllocateHasLevel(p, Eligible(bats, circuits, now), desired, eps);
    WeightIsEnergyLeft(bats[a], cfg, now, charging);
    WeightIsEnergyLeft(bats[b], cfg, now, charging);
    MulLaws(level, 0.0);
    CrossMultiplied(level, p[a].weight, p[b].weight);
  }

  lemma CrossMultiplied(level: real, v: real, w: real)
    ensures Mul(Mul(level, v), w) == Mul(Mul(level, w), v)
  {
  }

  // ------------------------------------------------------------------
  // Commands that fire
  // ------------------------------------------------------------------

  lemma {:induction false} SomeoneContributes(s: set<Id>, t: map<Id, real>)
    requires s <= t.Keys && Sum(s, t) != 0.0
    ensures exists m :: m in s && t[m] != 0.0
  {
    if forall m :: m in s ==> t[m] == 0.0 {
      SumZero(s, t);
    }
  }

  /** A circuit whose shares add up to something always has a battery that can
      take the whole of it on. */
  lemma ShareNeedsHeadroom(bats: Batteries, circuits: Circuits, cfg: DispatcherConfig, now: Time, desired: real,
                           eps: real,
                           c: Id)
    requires WellFormed(bats, circuits) && eps >= 0.0 && c in circuits
    requires SubMinimum(circuits[c], Shares(bats, circuits, cfg, now, desired, eps))
    ensures PrimaryOf(circuits[c], bats, Shares(bats, circuits, cfg, now, desired, eps), cfg, now).Some?
  {
    hide Allocate, LowBound, HighBound, Homed, Sum, Primary;
    var t := Shares(bats, circuits, cfg, now, desired, eps);
    var s := Members(circuits[c]);
    SharesAreAdmissible(bats, circuits, cfg, now, desired, eps);
    SumAlong(s, t, desired);
    SomeoneContributes(s, t);
    var m :| m in s && t[m] != 0.0;
    LimitsOfWellFormed(bats, circuits);
    BoundsOrdered(bats[m], cfg, now);
    var k := PrimaryIsBest(circuits[c].memberIds, bats, t, Signum(Sum(s, t)), cfg, now);
    assert Admissible(bats[m], cfg, now, t[m], desired);
    assert Eager(bats[m], Signum(Sum(s, t)), cfg, now);
    assert m in circuits[c].memberIds;
  }

  /** Main result: whenever the shares of a circuit add up to at least the
      firmware minimum, some member is asked for at least that much, unless the
      battery that should take it all on has no room for it. */
  lemma WorthyCommandFires(bats: Batteries, circuits: Circuits, cfg: DispatcherConfig, now: Time, desired: real,
                           eps: real,
                           c: Id)
    requires WellFormed(bats, circuits) && eps >= 0.0 && c in circuits
    requires var t := Shares(bats, circuits, cfg, now, desired, eps);
             && Abs(Sum(Members(circuits[c]), t)) >= MARSTEK_MIN_W
             && RoomForAll(circuits[c], bats, t, cfg, now)
    ensures exists m :: m in circuits[c].memberIds && m in bats
                        && Abs(Wanted(bats, circuits, cfg, now, desired, eps)[m]) >= MARSTEK_MIN_W
  {
    hide Shares, LowBound, HighBound, Homed, Sum, Primary;
    var t := Shares(bats, circuits, cfg, now, desired, eps);
    var u := Wanted(bats, circuits, cfg, now, desired, eps);
    if SubMinimum(circuits[c], t) {
      ShareNeedsHeadroom(bats, circuits, cfg, now, desired, eps, c);
      var p := PrimaryOf(circuits[c], bats, t, cfg, now).value;
      assert u[p] == ConsolidatedTarget(circuits[c], bats, t, cfg, now, p);
      assert Abs(u[p]) >= MARSTEK_MIN_W;
    } else {
      var m :| m in circuits[c].memberIds && Abs(t[m]) >= MARSTEK_MIN_W;
      assert u[m] == ConsolidatedTarget(circuits[c], bats, t, cfg, now, m);
    }
  }
}
