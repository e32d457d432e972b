/** The circuit cap, end to end: from the wanted shares through rate limit,
    cap scaling, overhead compensation and rounding to what is commanded. */
module CapSafety {
  import opened Prelude
  import opened Sums
  import opened Config
  import opened State
  import opened WaterFill
  import opened Demand
  import opened Targets
  import TargetLaws
  import opened Setpoints

  // ------------------------------------------------------------------
  // Scaling
  // ------------------------------------------------------------------

  lemma ScaleIsAFraction(cap: real, worst: real)
    requires cap >= 0.0 && worst >= 0.0
    ensures 0.0 <= ScaleTo(cap, worst) <= 1.0
    ensures worst > cap ==> Mul(ScaleTo(cap, worst), worst) == cap
    ensures worst <= cap ==> ScaleTo(cap, worst) == 1.0
  {
    if worst > cap {
      assert cap / worst * worst == cap;
    }
  }

  lemma ScalingShrinks(k: real, x: real)
    requires 0.0 <= k <= 1.0
    ensures Abs(Mul(k, x)) <= Abs(x) && Along(Mul(k, x), x) && Abs(Mul(k, x)) == Mul(k, Abs(x))
  {
    hide Mul;
    MulLaws(k, x);
    MulLaws(k, -x);
    MulLaws(1.0 - k, x);
    MulLaws(1.0 - k, -x);
  }

  lemma ScalingMonotone(k: real, x: real, y: real)
    requires 0.0 <= k && x <= y
    ensures Mul(k, x) <= Mul(k, y)
  {
    hide Mul;
    MulAdd(k, x, y - x);
    MulLaws(k, y - x);
  }

  /** After cap scaling every populated circuit adds up to at most its cap,
      whatever the wanted shares, readings and direction were. */
  lemma CapHolds(bats: Batteries, circuits: Circuits, cfg: DispatcherConfig, gridW: real, now: Time, eps: real, c: Id)
    requires WellFormed(bats, circuits) && eps >= 0.0 && c in circuits && circuits[c].memberIds != []
    ensures Members(circuits[c]) <= bats.Keys
    ensures Abs(Sum(Members(circuits[c]), TargetsFor(bats, circuits, cfg, gridW, now, eps))) <= CapW(circuits[c].config)
  {
    hide CapW, Wanted, DesiredTotal, Capped, Sum;
    var eligible := Eligible(bats, circuits, now);
    PopulatedCapIsNonNegative(bats, circuits, c);
    if eligible == {} {
      SumZero(Members(circuits[c]), TargetsFor(bats, circuits, cfg, gridW, now, eps));
    } else {
      var t := RateLimited(bats, eligible, Wanted(bats, circuits, cfg, now, DesiredTotal(bats, eligible, gridW), eps),
                           RateLimit(cfg));
      CappedCircuit(bats, circuits, t, c);
    }
  }

  lemma CappedCircuit(bats: Batteries, circuits: Circuits, t: map<Id, real>, c: Id)
    requires WellFormed(bats, circuits) && t.Keys == bats.Keys && c in circuits && CapW(circuits[c].config) >= 0.0
    ensures Abs(Sum(Members(circuits[c]), Capped(bats, circuits, t, circuits.Keys))) <= CapW(circuits[c].config)
  {
    hide CapW, Mul, Sum, ScaleTo;
    var m := Members(circuits[c]);
    var k := CapScale(circuits[c], bats, t);
    var u := Capped(bats, circuits, t, circuits.Keys);
    SumScaled(m, t, k, u);
    var cap, worst := CapW(circuits[c].config), WorstCase(circuits[c], bats, t);
    ScaleIsAFraction(cap, worst);
    ScalingShrinks(k, Sum(m, t));
    ScalingMonotone(k, Abs(Sum(m, t)), worst);
  }

  /** What the cap makes of `before`: it leaves a circuit alone whose targets and
      plugs both fit, and otherwise scales every target by cap over the larger of
      the two sums. Targets that are the larger land exactly on the cap; when the
      plugs read more than the targets ask for, so that the batteries
      over-deliver, the targets end up below the cap by just that ratio. */
  ghost predicate CappedTo(c: Circuit, bats: Batteries, before: map<Id, real>, after: map<Id, real>)
    requires Members(c) <= bats.Keys && Members(c) <= before.Keys && Members(c) <= after.Keys
  {
    var cap, left := CapW(c.config), Abs(Sum(Members(c), after));
    var asked, read := Abs(Sum(Members(c), before)), Abs(Sum(Members(c), Plugs(bats)));
    if asked <= cap && read <= cap then forall m :: m in c.memberIds ==> after[m] == before[m]
    else
      && (forall m :: m in c.memberIds ==> Mul(Max(asked, read), after[m]) == Mul(cap, before[m]))
      && (asked >= read ==> left == cap)
      && (asked < read ==> Mul(read, left) == Mul(cap, asked))
      && (asked < read && cap > 0.0 ==> left < cap)
      && (0.0 < asked <= cap ==> left < asked)
  }

  lemma CapIsTight(bats: Batteries, circuits: Circuits, t: map<Id, real>, c: Id)
    requires WellFormed(bats, circuits) && t.Keys == bats.Keys && c in circuits && circuits[c].memberIds != []
    ensures Members(circuits[c]) <= bats.Keys
    ensures CappedTo(circuits[c], bats, t, Capped(bats, circuits, t, circuits.Keys))
  {
    hide CapW, Sum, ScaleTo, Mul, LimitsOk;
    var m, u := Members(circuits[c]), Capped(bats, circuits, t, circuits.Keys);
    var k, cap, worst := CapScale(circuits[c], bats, t), CapW(circuits[c].config), WorstCase(circuits[c], bats, t);
    var asked := Abs(Sum(m, t));
    PopulatedCapIsNonNegative(bats, circuits, c);
    SumScaled(m, t, k, u);
    ScaleIsAFraction(cap, worst);
    ScalingShrinks(k, Sum(m, t));
    forall id | id in m
      ensures Mul(1.0, t[id]) == t[id] && Mul(worst, Mul(k, t[id])) == Mul(Mul(k, worst), t[id])
    {
      MulLaws(1.0, t[id]);
      MulSwap(worst, k, t[id]);
    }
    MulSwap(worst, k, asked);
    MulAdd(k, asked, worst - asked);
    StrictlyPositive(k, worst - asked);
    MulLaws(0.0, worst);
    MulLaws(1.0 - k, asked);
    StrictlyPositive(1.0 - k, asked);
    MulLaws(1.0, worst);
  }

  lemma MulSwap(w: real, k: real, x: real)
    ensures Mul(w, Mul(k, x)) == Mul(Mul(k, w), x)
  {
  }

  /** Main result, on a whole tick: the cap with its feedback from the plugs
      acts on the rate-limited targets just so. */
  lemma TargetsFitTheFuse(bats: Batteries, circuits: Circuits, cfg: DispatcherConfig, gridW: real, now: Time,
                          eps: real, c: Id)
    requires WellFormed(bats, circuits) && c in circuits && circuits[c].memberIds != []
    requires Eligible(bats, circuits, now) != {}
    ensures Members(circuits[c]) <= bats.Keys
    ensures var eligible := Eligible(bats, circuits, now);
            var wanted := Wanted(bats, circuits, cfg, now, DesiredTotal(bats, eligible, gridW), eps);
            CappedTo(circuits[c], bats, RateLimited(bats, eligible, wanted, RateLimit(cfg)),
                     TargetsFor(bats, circuits, cfg, gridW, now, eps))
  {
    hide Wanted, DesiredTotal, Capped, CappedTo, Eligible, LimitsOk, CapW;
    var eligible := Eligible(bats, circuits, now);
    var wanted := Wanted(bats, circuits, cfg, now, DesiredTotal(bats, eligible, gridW), eps);
    CapIsTight(bats, circuits, RateLimited(bats, eligible, wanted, RateLimit(cfg)), c);
  }

  lemma StrictlyPositive(k: real, x: real)
    ensures k > 0.0 && x > 0.0 ==> Mul(k, x) > 0.0
  {
  }

  // ------------------------------------------------------------------
  // From targets to commands
  // ------------------------------------------------------------------

  function OverheadOf(b: Battery): real {
    b.plugOverheadWSmoothed.GetOr(0.0)
  }

  /** The setpoint `step_modbus` builds for one battery; None is a panic. */
  function CommandFor(b: Battery, target: real): Option<Setpoint> {
    FromSignedWatts(Compensated(target, OverheadOf(b)), b.maxChargeW, b.maxDischargeW)
  }

  function CommandedW(b: Battery, target: real): real {
    match CommandFor(b, target)
    case None => 0.0
    case Some(sp) => ToSignedWatts(sp)
  }

  /** Neither cut off nor muted. */
  function Dispatched(bats: Batteries, circuits: Circuits, now: Time): (s: set<Id>)
    ensures s <= bats.Keys
  {
    set id | id in bats && !IsCut(bats[id], now) && !Muted(circuits, bats[id].circuit, now)
  }

  function Commands(bats: Batteries, t: map<Id, real>): (u: map<Id, real>)
    requires t.Keys == bats.Keys
    ensures u.Keys == bats.Keys
  {
    map id | id in bats :: CommandedW(bats[id], t[id])
  }

  /** No reading on the circuit opposes the dispatch by more than the rate limit. */
  ghost predicate NoOpposition(c: Circuit, bats: Batteries, eligible: set<Id>, desired: real, rate: real) {
    forall m :: m in c.memberIds && m in eligible && m in bats ==>
      && (desired >= 0.0 ==> PlugOf(bats[m]) >= -rate)
      && (desired <= 0.0 ==> PlugOf(bats[m]) <= rate)
  }

  /** All targets of the circuit point the way of the dispatch. */
  ghost predicate OneWay(c: Circuit, t: map<Id, real>, desired: real) {
    forall m :: m in c.memberIds ==> m in t && Along(t[m], desired)
  }

  /** They do exactly when no reading opposes it by more than the rate limit
      (a cap of 0 W silences everybody, whatever the readings). */
  lemma OneWayIffNoOpposition(bats: Batteries, circuits: Circuits, cfg: DispatcherConfig, gridW: real, now: Time,
                              eps: real, c: Id)
    requires WellFormed(bats, circuits) && eps >= 0.0 && c in circuits && circuits[c].memberIds != []
    ensures var eligible := Eligible(bats, circuits, now);
            var desired := DesiredTotal(bats, eligible, gridW);
            var oneWay := OneWay(circuits[c], TargetsFor(bats, circuits, cfg, gridW, now, eps), desired);
            var unopposed := NoOpposition(circuits[c], bats, eligible, desired, RateLimit(cfg));
            && (unopposed ==> oneWay)
            && (oneWay && CapW(circuits[c].config) > 0.0 ==> unopposed)
  {
    hide TargetsFor, DesiredTotal, CapW, RateLimit, Eligible, Homed;
    var eligible := Eligible(bats, circuits, now);
    var desired := DesiredTotal(bats, eligible, gridW);
    if NoOpposition(circuits[c], bats, eligible, desired, RateLimit(cfg)) {
      TargetsPointOneWay(bats, circuits, cfg, gridW, now, eps, c);
    }
    var t := TargetsFor(bats, circuits, cfg, gridW, now, eps);
    if CapW(circuits[c].config) > 0.0 && OneWay(circuits[c], t, desired) {
      forall m | m in circuits[c].memberIds && m in eligible
        ensures desired >= 0.0 ==> PlugOf(bats[m]) >= -RateLimit(cfg)
        ensures desired <= 0.0 ==> PlugOf(bats[m]) <= RateLimit(cfg)
      {
        TargetLaws.TargetFollowsDispatch(bats, circuits, cfg, gridW, now, eps, m);
      }
      assert NoOpposition(circuits[c], bats, eligible, desired, RateLimit(cfg));
    }
  }

  lemma TargetsPointOneWay(bats: Batteries, circuits: Circuits, cfg: DispatcherConfig, gridW: real, now: Time,
                           eps: real, c: Id)
    requires WellFormed(bats, circuits) && eps >= 0.0 && c in circuits && circuits[c].memberIds != []
    requires var eligible := Eligible(bats, circuits, now);
             NoOpposition(circuits[c], bats, eligible, DesiredTotal(bats, eligible, gridW), RateLimit(cfg))
    ensures OneWay(circuits[c], TargetsFor(bats, circuits, cfg, gridW, now, eps),
                   DesiredTotal(bats, Eligible(bats, circuits, now), gridW))
  {
    hide Wanted, DesiredTotal, CapW, Sum, ScaleTo, Mul, RateLimit, LowBound, HighBound, Eligible, Homed;
    var eligible := Eligible(bats, circuits, now);
    if eligible != {} {
      var desired := DesiredTotal(bats, eligible, gridW);
      var wanted := Wanted(bats, circuits, cfg, now, desired, eps);
      TargetLaws.WantedIsAdmissible(bats, circuits, cfg, now, desired, eps);
      var limited := RateLimited(bats, eligible, wanted, RateLimit(cfg));
      PopulatedCapIsNonNegative(bats, circuits, c);
      ScaleIsAFraction(CapW(circuits[c].config), WorstCase(circuits[c], bats, limited));
      forall m | m in circuits[c].memberIds
        ensures Along(Capped(bats, circuits, limited, circuits.Keys)[m], desired)
      {
        assert Along(limited[m], desired);
        ScalingShrinks(CapScale(circuits[c], bats, limited), limited[m]);
      }
    }
  }

  lemma CommandShrinks(b: Battery, target: real)
    ensures ShrinksTo(target, CommandedW(b, target))
       <==> OverheadFits(target, OverheadOf(b)) || CommandFor(b, target).None?
  {
    hide FromSignedWatts, Compensated, OverheadFits, OverheadOf;
    CommandShrinksIff(target, OverheadOf(b), b.maxChargeW, b.maxDischargeW);
  }

  /** A part of one-way targets, each shrunk, weighs no more than the whole. */
  lemma ShrunkPartOfTheWhole(s: set<Id>, all: set<Id>, u: map<Id, real>, t: map<Id, real>, desired: real)
    requires s <= all <= t.Keys && s <= u.Keys
    requires forall m :: m in all ==> Along(t[m], desired)
    requires forall m :: m in s ==> ShrinksTo(t[m], u[m])
    ensures Abs(Sum(s, u)) <= Abs(Sum(all, t))
  {
    hide Sum;
    SumSplit(all, s, t);
    TargetLaws.SumAlong(s, t, desired);
    TargetLaws.SumAlong(all - s, t, desired);
    TargetLaws.SumAlong(s, u, desired);
    if desired >= 0.0 {
      SumLe(s, u, t);
    } else {
      SumLe(s, t, u);
    }
  }

  /** End to end: what is commanded on a circuit weighs no more than its
      targets, and those no more than the fuse, provided no reading opposes the
      dispatch by more than the rate limit and no overhead exceeds its target by
      the firmware minimum. Battery by battery both provisos are exact
      (`OneWayIffNoOpposition`, `CommandShrinks`). */
  lemma CommandedUnderCap(bats: Batteries, circuits: Circuits, cfg: DispatcherConfig, gridW: real, now: Time,
                          eps: real, c: Id)
    requires WellFormed(bats, circuits) && eps >= 0.0 && c in circuits && circuits[c].memberIds != []
    requires var eligible := Eligible(bats, circuits, now);
             NoOpposition(circuits[c], bats, eligible, DesiredTotal(bats, eligible, gridW), RateLimit(cfg))
    requires var t := TargetsFor(bats, circuits, cfg, gridW, now, eps);
             forall m :: m in circuits[c].memberIds && m in bats ==> OverheadFits(t[m], OverheadOf(bats[m]))
    ensures var t := TargetsFor(bats, circuits, cfg, gridW, now, eps);
            var members := Members(circuits[c]);
            && members <= bats.Keys
            && Abs(Sum(members * Dispatched(bats, circuits, now), Commands(bats, t))) <= Abs(Sum(members, t))
            && Abs(Sum(members, t)) <= CapW(circuits[c].config)
  {
    hide TargetsFor, DesiredTotal, CapW, Sum, CommandedW, OverheadFits, OverheadOf, RateLimit, Eligible, NoOpposition;
    hide ShrinksTo;
    var t := TargetsFor(bats, circuits, cfg, gridW, now, eps);
    var members := Members(circuits[c]);
    CapHolds(bats, circuits, cfg, gridW, now, eps, c);
    TargetsPointOneWay(bats, circuits, cfg, gridW, now, eps, c);
    forall m | m in members
      ensures ShrinksTo(t[m], CommandedW(bats[m], t[m]))
    {
      CommandShrinks(bats[m], t[m]);
    }
    ShrunkPartOfTheWhole(members * Dispatched(bats, circuits, now), members, Commands(bats, t), t,
                         DesiredTotal(bats, Eligible(bats, circuits, now), gridW));
  }
}
