/** Properties of the stages of `compute_targets`: shares and consolidation
    respect bounds and direction and keep the circuit total, the primary is the
    best candidate, and exactly when a rate-limited target leaves its bounds or
    opposes the direction of dispatch. */
module TargetLaws {
  import opened Prelude
  import opened Sums
  import opened Config
  import opened State
  import opened WaterFill
  import opened Demand
  import opened Targets

  /** Inside the battery's bounds and on the side of the desired total. */
  predicate Admissible(b: Battery, cfg: DispatcherConfig, now: Time, watts: real, desired: real) {
    LowBound(b, cfg, now) <= watts <= HighBound(b, cfg, now) && Along(watts, desired)
  }

  ghost predicate AllAdmissible(bats: Batteries, cfg: DispatcherConfig, now: Time, t: map<Id, real>, desired: real) {
    bats.Keys <= t.Keys && forall id :: id in bats ==> Admissible(bats[id], cfg, now, t[id], desired)
  }

  lemma LimitsOfWellFormed(bats: Batteries, circuits: Circuits)
    requires WellFormed(bats, circuits)
    ensures forall id :: id in bats ==> LimitsOk(bats[id])
  {
    hide LimitsOk, CapW;
    forall id | id in bats
      ensures LimitsOk(bats[id])
    {
      assert Homed(id, bats[id], circuits);
    }
  }

  lemma SharesAreAdmissible(bats: Batteries, circuits: Circuits, cfg: DispatcherConfig, now: Time, desired: real,
                            eps: real)
    requires WellFormed(bats, circuits) && eps >= 0.0
    ensures AllAdmissible(bats, cfg, now, Shares(bats, circuits, cfg, now, desired, eps), desired)
  {
    hide Allocate, WeightOf, LowBound, HighBound, LimitsOk, WellFormed, Sum;
    LimitsOfWellFormed(bats, circuits);
    var p := Slots(bats, cfg, now, desired < 0.0);
    SlotsAreValid(bats, cfg, now, desired < 0.0);
    AllocateIsWaterFill(p, Eligible(bats, circuits, now), desired, eps);
    forall id | id in bats
      ensures Admissible(bats[id], cfg, now, Shares(bats, circuits, cfg, now, desired, eps)[id], desired)
    {
      BoundsOrdered(bats[id], cfg, now);
    }
  }

  // ------------------------------------------------------------------
  // Consolidation
  // ------------------------------------------------------------------

  /** Has been read, and is not shut in direction `dir`. */
  predicate Eager(b: Battery, dir: real, cfg: DispatcherConfig, now: Time) {
    b.lastPlugW.Some? && (if dir < 0.0 then LowBound(b, cfg, now) != 0.0 else HighBound(b, cfg, now) != 0.0)
  }

  /** Position k holds the best candidate: the largest share in size, then the
      largest priority, then the last in the list. */
  predicate BestAt(ids: seq<Id>, bats: Batteries, t: map<Id, real>, dir: real, cfg: DispatcherConfig, now: Time, k: int)
    requires forall m :: m in ids ==> m in bats && m in t
  {
    && 0 <= k < |ids| && Eager(bats[ids[k]], dir, cfg, now)
    && forall i :: 0 <= i < |ids| && Eager(bats[ids[i]], dir, cfg, now) ==>
         || Abs(t[ids[i]]) < Abs(t[ids[k]])
         || (&& Abs(t[ids[i]]) == Abs(t[ids[k]])
             && (|| bats[ids[i]].priorityWeight < bats[ids[k]].priorityWeight
                 || (bats[ids[i]].priorityWeight == bats[ids[k]].priorityWeight && i <= k)))
  }

  /** The primary is the best candidate, and there is one unless no member has
      headroom. */
  lemma {:induction false} PrimaryIsBest(ids: seq<Id>, bats: Batteries, t: map<Id, real>, dir: real,
                                         cfg: DispatcherConfig, now: Time) returns (k: int)
    requires forall m :: m in ids ==> m in bats && m in t && LimitsOk(bats[m])
    ensures var best := Primary(ids, bats, t, dir, cfg, now);
            && (best.None? <==> forall i :: 0 <= i < |ids| ==> !Eager(bats[ids[i]], dir, cfg, now))
            && (best.Some? ==> BestAt(ids, bats, t, dir, cfg, now, k) && best == Some(ids[k]))
    decreases |ids|
  {
    hide LowBound, HighBound, LimitsOk;
    k := 0;
    if ids != [] {
      var n := |ids| - 1;
      k := PrimaryIsBest(ids[..n], bats, t, dir, cfg, now);
      BoundsOrdered(bats[ids[n]], cfg, now);
      if Primary(ids, bats, t, dir, cfg, now) == Some(ids[n]) {
        k := n;
      }
    }
  }

  lemma SumAlong(s: set<Id>, t: map<Id, real>, desired: real)
    requires s <= t.Keys && forall id :: id in s ==> Along(t[id], desired)
    ensures Along(Sum(s, t), desired)
  {
    var zero := map id | id in s :: 0.0;
    SumZero(s, zero);
    if desired >= 0.0 {
      SumLe(s, zero, t);
    }
    if desired <= 0.0 {
      SumLe(s, t, zero);
    }
  }

  lemma ConsolidatedIsAdmissible(c: Circuit, bats: Batteries, t: map<Id, real>, cfg: DispatcherConfig, now: Time,
                                 desired: real, id: Id)
    requires Members(c) <= bats.Keys == t.Keys && id in bats && LimitsOk(bats[id])
    requires AllAdmissible(bats, cfg, now, t, desired)
    ensures Admissible(bats[id], cfg, now, ConsolidatedTarget(c, bats, t, cfg, now, id), desired)
  {
    hide LowBound, HighBound, LimitsOk, Sum;
    BoundsOrdered(bats[id], cfg, now);
    SumAlong(Members(c), t, desired);
  }

  /** The wanted power of every battery, consolidated or not, is within its
      bounds and on the side of the desired total. */
  lemma WantedIsAdmissible(bats: Batteries, circuits: Circuits, cfg: DispatcherConfig, now: Time, desired: real,
                           eps: real)
    requires WellFormed(bats, circuits) && eps >= 0.0
    ensures AllAdmissible(bats, cfg, now, Wanted(bats, circuits, cfg, now, desired, eps), desired)
  {
    hide Shares, ConsolidatedTarget, LimitsOk, Admissible, CapW;
    var t := Shares(bats, circuits, cfg, now, desired, eps);
    SharesAreAdmissible(bats, circuits, cfg, now, desired, eps);
    forall id | id in bats
      ensures Admissible(bats[id], cfg, now, Wanted(bats, circuits, cfg, now, desired, eps)[id], desired)
    {
      assert Homed(id, bats[id], circuits);
      ConsolidatedIsAdmissible(circuits[bats[id].circuit], bats, t, cfg, now, desired, id);
    }
  }

  /** The primary of a circuit has room for the whole circuit total, so that
      concentrating loses nothing. */
  ghost predicate RoomForAll(c: Circuit, bats: Batteries, t: map<Id, real>, cfg: DispatcherConfig, now: Time)
    requires Members(c) <= bats.Keys && Members(c) <= t.Keys
  {
    var primary := PrimaryOf(c, bats, t, cfg, now);
    primary.Some? ==>
      LowBound(bats[primary.value], cfg, now) <= Sum(Members(c), t) <= HighBound(bats[primary.value], cfg, now)
  }

  /** Consolidation never adds watts to a circuit and never turns it around; it
      loses watts exactly when the primary has no room for the circuit total, and
      then the primary gets all it has room for. */
  lemma ConsolidationKeepsCircuitTotal(c: Circuit, bats: Batteries, t: map<Id, real>, u: map<Id, real>,
                                       cfg: DispatcherConfig, now: Time)
    requires Members(c) <= bats.Keys == t.Keys == u.Keys
    requires forall m :: m in c.memberIds ==> u[m] == ConsolidatedTarget(c, bats, t, cfg, now, m)
    requires forall m :: m in c.memberIds ==> LimitsOk(bats[m])
    ensures Sum(Members(c), u) == Sum(Members(c), t) <==> RoomForAll(c, bats, t, cfg, now)
    ensures Abs(Sum(Members(c), u)) <= Abs(Sum(Members(c), t)) && Along(Sum(Members(c), u), Sum(Members(c), t))
    ensures !RoomForAll(c, bats, t, cfg, now) ==>
      var p := bats[PrimaryOf(c, bats, t, cfg, now).value];
      Sum(Members(c), u) == if Sum(Members(c), t) < 0.0 then LowBound(p, cfg, now) else HighBound(p, cfg, now)
  {
    hide LowBound, HighBound, LimitsOk, Sum, SubMinimum, Primary, CanDrive;
    var primary := PrimaryOf(c, bats, t, cfg, now);
    if primary.None? {
      SumEqual(Members(c), t, u);
    } else {
      var p := primary.value;
      SumPick(Members(c), u, p);
      SumZero(Members(c) - {p}, u);
      BoundsOrdered(bats[p], cfg, now);
    }
  }

  /** Nothing to concentrate: the circuit as a whole is asked for less than the
      firmware minimum, or somebody on it for at least that, or nobody can. */
  ghost predicate KeepsShares(c: Circuit, bats: Batteries, t: map<Id, real>, cfg: DispatcherConfig, now: Time)
    requires Members(c) <= bats.Keys && Members(c) <= t.Keys
  {
    var total := Sum(Members(c), t);
    || -MARSTEK_MIN_W < total < MARSTEK_MIN_W
    || (exists m :: m in c.memberIds && !(-MARSTEK_MIN_W < t[m] < MARSTEK_MIN_W))
    || forall i :: 0 <= i < |c.memberIds| ==> !Eager(bats[c.memberIds[i]], total, cfg, now)
  }

  /** Main result: consolidation leaves a circuit alone, or gives the best
      candidate as much of the circuit total as its bound lets it take, and
      everybody else 0 W. */
  lemma ConsolidationPicksTheBest(c: Circuit, bats: Batteries, t: map<Id, real>, cfg: DispatcherConfig, now: Time)
    returns (k: int)
    requires Members(c) <= bats.Keys == t.Keys
    requires forall m :: m in c.memberIds ==> LimitsOk(bats[m])
    ensures KeepsShares(c, bats, t, cfg, now) ==>
      forall m :: m in c.memberIds ==> ConsolidatedTarget(c, bats, t, cfg, now, m) == t[m]
    ensures !KeepsShares(c, bats, t, cfg, now) ==>
      var total := Sum(Members(c), t);
      && BestAt(c.memberIds, bats, t, total, cfg, now, k)
      && forall m :: m in c.memberIds ==>
           ConsolidatedTarget(c, bats, t, cfg, now, m)
             == if m != c.memberIds[k] then 0.0
                else if total < 0.0 then Max(total, LowBound(bats[m], cfg, now))
                else Min(total, HighBound(bats[m], cfg, now))
  {
    hide LowBound, HighBound, LimitsOk, Sum, Primary;
    var total := Sum(Members(c), t);
    k := PrimaryIsBest(c.memberIds, bats, t, Signum(total), cfg, now);
    assert forall b: Battery :: Eager(b, Signum(total), cfg, now) == Eager(b, total, cfg, now);
    forall m | m in c.memberIds
      ensures LowBound(bats[m], cfg, now) <= 0.0 <= HighBound(bats[m], cfg, now)
    {
      BoundsOrdered(bats[m], cfg, now);
    }
  }

  // ------------------------------------------------------------------
  // Rate limit
  // ------------------------------------------------------------------

  /** A step towards the target of exactly min(rate, distance). */
  lemma LimitedStep(plug: real, target: real, rate: real)
    requires rate >= 0.0
    ensures var l := Limited(plug, target, rate);
            && Min(plug, target) <= l <= Max(plug, target)
            && Abs(l - plug) == Min(rate, Abs(target - plug))
            && Abs(target - l) == Max(0.0, Abs(target - plug) - rate)
  {
  }

  /** A configured limit of less than 1 W counts as 1 W. */
  lemma StepPerTick(bats: Batteries, eligible: set<Id>, t: map<Id, real>, cfg: DispatcherConfig, id: Id)
    requires t.Keys == bats.Keys && id in eligible && id in bats && bats[id].lastPlugW.Some?
    ensures var plug, step := bats[id].lastPlugW.value, RateLimited(bats, eligible, t, RateLimit(cfg))[id];
            var limit := if cfg.rateLimitWPerCycle < 1.0 then 1.0 else cfg.rateLimitWPerCycle;
            if Abs(t[id] - plug) <= limit then step == t[id]
            else step == if t[id] > plug then plug + limit else plug - limit
  {
  }

  /** The rate limit can carry a battery outside its bounds, and turn it against
      the direction of dispatch; both happen exactly when the plug itself lies
      beyond by more than the limit. */
  lemma LimitedLeavesBounds(plug: real, target: real, rate: real, lo: real, hi: real)
    requires rate >= 0.0 && lo <= target <= hi
    ensures lo <= Limited(plug, target, rate) <= hi <==> lo - rate <= plug <= hi + rate
  {
  }

  /** Nor does it only ever make a target smaller: it does exactly when the
      reading exceeds the wanted power in size by at most the limit. */
  lemma LimitedShrinksIff(plug: real, target: real, rate: real)
    requires rate >= 0.0
    ensures Abs(Limited(plug, target, rate)) <= Abs(target) <==> Abs(plug) <= Abs(target) + rate
  {
  }

  /** A full battery that still discharges 1200 W while the fleet is asked to
      charge is let down to 700 W: neither inside [-2500, 0] nor charging, and
      larger in size than the 300 W wanted. */
  lemma RateLimitCanEnlarge()
    ensures Limited(1200.0, -300.0, 500.0) == 700.0
    ensures !(-2500.0 <= Limited(1200.0, -300.0, 500.0) <= 0.0)
  {
  }

  /** Which way a target may point once limited and capped, given the reading. */
  lemma TargetFollowsDispatch(bats: Batteries, circuits: Circuits, cfg: DispatcherConfig, gridW: real, now: Time,
                              eps: real,
                            id: Id)
    requires WellFormed(bats, circuits) && eps >= 0.0 && id in Eligible(bats, circuits, now)
    requires CapW(circuits[bats[id].circuit].config) > 0.0
    ensures var t := TargetsFor(bats, circuits, cfg, gridW, now, eps)[id];
            var desired := DesiredTotal(bats, Eligible(bats, circuits, now), gridW);
            && (desired >= 0.0 ==> (t < 0.0 <==> PlugOf(bats[id]) < -RateLimit(cfg)))
            && (desired <= 0.0 ==> (t > 0.0 <==> PlugOf(bats[id]) > RateLimit(cfg)))
  {
    hide Wanted, DesiredTotal, CapW, WorstCase, ScaleTo, Mul, RateLimit, LowBound, HighBound, Eligible;
    assert Homed(id, bats[id], circuits);
    var eligible := Eligible(bats, circuits, now);
    var desired := DesiredTotal(bats, eligible, gridW);
    var wanted := Wanted(bats, circuits, cfg, now, desired, eps);
    WantedIsAdmissible(bats, circuits, cfg, now, desired, eps);
    var limited := RateLimited(bats, eligible, wanted, RateLimit(cfg));
    var c := circuits[bats[id].circuit];
    PositiveScale(CapW(c.config), WorstCase(c, bats, limited), limited[id]);
  }

  lemma PositiveScale(cap: real, worst: real, x: real)
    requires cap > 0.0
    ensures var k := ScaleTo(cap, worst);
            k > 0.0 && (Mul(k, x) < 0.0 <==> x < 0.0) && (Mul(k, x) > 0.0 <==> x > 0.0)
  {
    var k := ScaleTo(cap, worst);
    if worst > cap {
      assert cap / worst > 0.0;
    }
    MulSign(k, x);
  }

  lemma MulSign(k: real, x: real)
    requires k > 0.0
    ensures (Mul(k, x) < 0.0 <==> x < 0.0) && (Mul(k, x) > 0.0 <==> x > 0.0)
  {
  }
}
