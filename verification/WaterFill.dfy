/** The redistribution loop that `compute_deltas` and `compute_targets` share:
    a desired total is split over the eligible batteries by weight, every share
    is clamped to the battery's bounds, and what clamping left over is handed
    to the batteries that still have room, for at most six rounds.

    The loop is proved to compute a weighted water-filling: one level lambda
    for all batteries, each target being lambda times its weight, clamped. */
module WaterFill {
  import opened Prelude
  import opened Sums

  /** What the loop sees of one battery. */
  datatype Slot = Slot(weight: real, lo: real, hi: real) {
    predicate Ok() {
      0.0 <= weight && lo <= 0.0 <= hi
    }
  }

  /** The six-round bound and the code's cut-off below which watts are noise. */
  const ROUNDS: nat := 6
  const CUTOFF: real := 0.001

  /** The loop state: targets of the eligible batteries, watts still to hand
      out, and the batteries that were not clamped yet. */
  datatype Fill = Fill(targets: map<Id, real>, remaining: real, active: set<Id>)

  function Weights(p: map<Id, Slot>): (w: map<Id, real>)
    ensures w.Keys == p.Keys
  {
    map id | id in p :: p[id].weight
  }

  function Proposal(slot: Slot, prev: real, remaining: real, totalWeight: real): real
    requires totalWeight > 0.0
  {
    prev + remaining * slot.weight / totalWeight
  }

  function Share(slot: Slot, prev: real, remaining: real, totalWeight: real): real
    requires totalWeight > 0.0
  {
    Clamp(Proposal(slot, prev, remaining, totalWeight), slot.lo, slot.hi)
  }

  /** Clamping moved the proposal by more than the cut-off. */
  predicate Clamped(slot: Slot, prev: real, remaining: real, totalWeight: real, eps: real)
    requires totalWeight > 0.0
  {
    Abs(Share(slot, prev, remaining, totalWeight) - Proposal(slot, prev, remaining, totalWeight)) > eps
  }

  /** The targets once the batteries in `visited` had their turn. */
  function Visited(p: map<Id, Slot>, visited: set<Id>, targets: map<Id, real>, remaining: real, totalWeight: real):
      map<Id, real>
    requires visited <= p.Keys && totalWeight > 0.0
  {
    map id | id in targets ::
      if id in visited then Share(p[id], targets[id], remaining, totalWeight) else targets[id]
  }

  function ClampedIds(p: map<Id, Slot>, visited: set<Id>, targets: map<Id, real>, remaining: real, totalWeight: real,
                      eps: real): (clamped: set<Id>)
    requires visited <= targets.Keys && visited <= p.Keys && totalWeight > 0.0
    ensures clamped <= visited
  {
    set id | id in visited && Clamped(p[id], targets[id], remaining, totalWeight, eps)
  }

  ghost function Round(p: map<Id, Slot>, f: Fill, desired: real, eps: real, totalWeight: real): Fill
    requires f.active <= f.targets.Keys <= p.Keys && totalWeight > 0.0
  {
    var targets := Visited(p, f.active, f.targets, f.remaining, totalWeight);
    var clamped := ClampedIds(p, f.active, f.targets, f.remaining, totalWeight, eps);
    Fill(targets, desired - Sum(targets.Keys, targets), f.active - clamped)
  }

  ghost function Run(p: map<Id, Slot>, f: Fill, desired: real, eps: real, rounds: nat): (g: Fill)
    requires f.active <= f.targets.Keys <= p.Keys
    ensures g.targets.Keys == f.targets.Keys && g.active <= f.active
    decreases rounds
  {
    if rounds == 0 || f.active == {} || Abs(f.remaining) < eps then f
    else
      var totalWeight := Sum(f.active, Weights(p));
      if totalWeight <= 0.0 then f
      else
        var g := Round(p, f, desired, eps, totalWeight);
        if g.active == f.active then g else Run(p, g, desired, eps, rounds - 1)
  }

  /** When the loop stops before a round, and what a round leads to. */
  lemma RunStep(p: map<Id, Slot>, f: Fill, desired: real, eps: real, rounds: nat)
    requires f.active <= f.targets.Keys <= p.Keys
    ensures rounds == 0 || f.active == {} || Abs(f.remaining) < eps || Sum(f.active, Weights(p)) <= 0.0
      ==> Run(p, f, desired, eps, rounds) == f
    ensures rounds > 0 && f.active != {} && Abs(f.remaining) >= eps && Sum(f.active, Weights(p)) > 0.0
      ==> var g := Round(p, f, desired, eps, Sum(f.active, Weights(p)));
          Run(p, f, desired, eps, rounds) == if g.active == f.active then g else Run(p, g, desired, eps, rounds - 1)
  {
  }

  function Start(eligible: set<Id>, desired: real): Fill {
    Fill(map id | id in eligible :: 0.0, desired, eligible)
  }

  /** What the loop computes, as a function of the set of eligible batteries. */
  ghost function Allocate(p: map<Id, Slot>, eligible: set<Id>, desired: real, eps: real): (t: map<Id, real>)
    requires eligible <= p.Keys
    ensures t.Keys == eligible
  {
    assert Start(eligible, desired).targets.Keys == eligible;
    Run(p, Start(eligible, desired), desired, eps, ROUNDS).targets
  }

  // ------------------------------------------------------------------
  // The specification: weighted water-filling
  // ------------------------------------------------------------------

  ghost predicate Valid(p: map<Id, Slot>) {
    forall id :: id in p ==> p[id].Ok()
  }

  /** What the common level `lambda` means for one battery. */
  function LevelOf(slot: Slot, lambda: real): real {
    Clamp(Mul(lambda, slot.weight), slot.lo, slot.hi)
  }

  /** Every target sits at the common level `lambda`, cut off by its bounds. */
  ghost predicate AtLevel(p: map<Id, Slot>, t: map<Id, real>, lambda: real)
    requires t.Keys <= p.Keys
  {
    forall id :: id in t ==> t[id] == LevelOf(p[id], lambda)
  }

  ghost predicate IsWaterFill(p: map<Id, Slot>, t: map<Id, real>)
    requires t.Keys <= p.Keys
  {
    exists lambda :: AtLevel(p, t, lambda)
  }

  /** The bound a battery hits when it is driven in the direction of `desired`. */
  function Edge(slot: Slot, desired: real): real {
    if desired < 0.0 then slot.lo else slot.hi
  }

  /** Same sign, zero siding with both. */
  predicate Along(x: real, desired: real) {
    (desired >= 0.0 ==> x >= 0.0) && (desired <= 0.0 ==> x <= 0.0)
  }

  /** The invariant of the loop. */
  ghost predicate Leveled(p: map<Id, Slot>, f: Fill, desired: real, lambda: real) {
    && f.active <= f.targets.Keys <= p.Keys
    && AtLevel(p, f.targets, lambda)
    && Along(lambda, desired) && Along(f.remaining, desired)
    && f.remaining == desired - Sum(f.targets.Keys, f.targets)
    && (forall id :: id in f.targets && id !in f.active ==> f.targets[id] == Edge(p[id], desired))
  }

  lemma StartIsLeveled(p: map<Id, Slot>, eligible: set<Id>, desired: real)
    requires Valid(p) && eligible <= p.Keys
    ensures Leveled(p, Start(eligible, desired), desired, 0.0)
  {
    var f := Start(eligible, desired);
    assert f.targets.Keys == eligible;
    SumZero(eligible, f.targets);
    forall id | id in f.targets
      ensures f.targets[id] == LevelOf(p[id], 0.0)
    {
      assert p[id].Ok();
    }
  }

  lemma MulAlong(k: real, w: real, desired: real)
    requires w >= 0.0 && Along(k, desired)
    ensures Along(Mul(k, w), desired)
  {
  }

  /** One battery, one round: raising the level by mu raises the clamped target
      to the new level, whether or not the old target was already cut off. */
  lemma ShareAtLevel(slot: Slot, lambda: real, mu: real, prev: real, desired: real)
    requires slot.Ok() && prev == LevelOf(slot, lambda)
    requires Along(lambda, desired) && Along(mu, desired)
    ensures Clamp(prev + Mul(mu, slot.weight), slot.lo, slot.hi) == LevelOf(slot, lambda + mu)
    ensures prev == Edge(slot, desired) ==> LevelOf(slot, lambda + mu) == prev
    ensures Along(prev + Mul(mu, slot.weight), desired)
  {
    hide Mul;
    MulAlong(lambda, slot.weight, desired);
    MulAlong(mu, slot.weight, desired);
    LevelAdds(lambda, mu, slot.weight);
  }

  lemma LevelAdds(lambda: real, mu: real, w: real)
    ensures Mul(lambda + mu, w) == Mul(lambda, w) + Mul(mu, w)
  {
  }

  lemma ProposalIsStep(slot: Slot, prev: real, remaining: real, totalWeight: real)
    requires totalWeight > 0.0
    ensures Proposal(slot, prev, remaining, totalWeight) == prev + Mul(remaining / totalWeight, slot.weight)
  {
    var mu := remaining / totalWeight;
    assert remaining == mu * totalWeight;
    assert remaining * slot.weight == mu * slot.weight * totalWeight;
  }

  /** The level after a round. */
  ghost function Raise(lambda: real, remaining: real, totalWeight: real): real
    requires totalWeight > 0.0
  {
    lambda + remaining / totalWeight
  }

  lemma RaiseMovesAway(lambda: real, remaining: real, totalWeight: real, desired: real)
    requires totalWeight > 0.0 && Along(lambda, desired) && Along(remaining, desired)
    ensures Along(remaining / totalWeight, desired)
    ensures Along(Raise(lambda, remaining, totalWeight), desired)
    ensures Abs(lambda) <= Abs(Raise(lambda, remaining, totalWeight))
    ensures Mul(remaining / totalWeight, totalWeight) == remaining
  {
  }

  /** One battery in one round: where it lands, and how far below its proposal. */
  lemma SlotRound(slot: Slot, active: bool, lambda: real, prev: real, remaining: real, totalWeight: real, desired: real)
    requires slot.Ok() && totalWeight > 0.0 && prev == LevelOf(slot, lambda)
    requires Along(lambda, desired) && Along(remaining, desired)
    requires !active ==> prev == Edge(slot, desired)
    ensures var t := if active then Share(slot, prev, remaining, totalWeight) else prev;
            && t == LevelOf(slot, Raise(lambda, remaining, totalWeight))
    ensures var share := Share(slot, prev, remaining, totalWeight);
            var proposal := Proposal(slot, prev, remaining, totalWeight);
            && Along(proposal - share, desired)
            && (share != proposal ==> share == Edge(slot, desired))
  {
    hide Mul, LevelOf, Proposal;
    RaiseMovesAway(lambda, remaining, totalWeight, desired);
    ProposalIsStep(slot, prev, remaining, totalWeight);
    ShareAtLevel(slot, lambda, remaining / totalWeight, prev, desired);
  }

  /** The targets before clamping. */
  ghost function Proposals(p: map<Id, Slot>, f: Fill, totalWeight: real): map<Id, real>
    requires f.active <= f.targets.Keys <= p.Keys && totalWeight > 0.0
  {
    map id | id in f.targets ::
      if id in f.active then Proposal(p[id], f.targets[id], f.remaining, totalWeight) else f.targets[id]
  }

  /** Proposals add up to the desired total exactly. */
  lemma ProposalSum(p: map<Id, Slot>, f: Fill, desired: real)
    requires f.active <= f.targets.Keys <= p.Keys && Sum(f.active, Weights(p)) > 0.0
    requires f.remaining == desired - Sum(f.targets.Keys, f.targets)
    ensures Sum(f.targets.Keys, Proposals(p, f, Sum(f.active, Weights(p)))) == desired
  {
    hide Mul, Proposal;
    var W := Sum(f.active, Weights(p));
    var mu := f.remaining / W;
    var all, raised := f.targets.Keys, Proposals(p, f, W);
    forall id | id in f.active
      ensures raised[id] == f.targets[id] + Mul(mu, Weights(p)[id])
    {
      ProposalIsStep(p[id], f.targets[id], f.remaining, W);
    }
    SumSplit(all, f.active, raised);
    SumSplit(all, f.active, f.targets);
    SumLinear(f.active, f.targets, Weights(p), mu, raised);
    SumEqual(all - f.active, f.targets, raised);
    RaiseMovesAway(0.0, f.remaining, W, f.remaining);
  }

  lemma RoundTarget(p: map<Id, Slot>, f: Fill, desired: real, eps: real, lambda: real, W: real, id: Id)
    requires Valid(p) && eps >= 0.0 && Leveled(p, f, desired, lambda)
    requires W > 0.0 && id in f.targets
    ensures var g := Round(p, f, desired, eps, W);
            var raised := Proposals(p, f, W);
            && g.targets[id] == LevelOf(p[id], Raise(lambda, f.remaining, W))
            && Along(raised[id] - g.targets[id], desired)
            && (id !in g.active ==> g.targets[id] == Edge(p[id], desired))
            && (g.active == f.active ==> Abs(raised[id] - g.targets[id]) <= eps)
  {
    hide Mul, LevelOf, Proposal;
    assert p[id].Ok();
    SlotRound(p[id], id in f.active, lambda, f.targets[id], f.remaining, W, desired);
  }

  /** Every round keeps the invariant, at a level that only moves away from 0,
      and leaves over at most the cut-off per battery when nobody was clamped. */
  lemma RoundKeepsLevel(p: map<Id, Slot>, f: Fill, desired: real, eps: real, lambda: real)
    requires Valid(p) && eps >= 0.0 && Leveled(p, f, desired, lambda)
    requires Sum(f.active, Weights(p)) > 0.0
    ensures var W := Sum(f.active, Weights(p));
            var g := Round(p, f, desired, eps, W);
            && g.targets.Keys == f.targets.Keys && g.active <= f.active
            && Leveled(p, g, desired, Raise(lambda, f.remaining, W))
            && Abs(lambda) <= Abs(Raise(lambda, f.remaining, W))
            && (g.active == f.active ==> Abs(g.remaining) <= Times(|f.targets.Keys|, eps))
  {
    hide Mul, LevelOf, Proposal, Share, Clamped, Raise, Edge, Round, Proposals;
    var W := Sum(f.active, Weights(p));
    var g, raised := Round(p, f, desired, eps, W), Proposals(p, f, W);
    RoundShape(p, f, desired, eps, W);
    forall id | id in f.targets
      ensures && g.targets[id] == LevelOf(p[id], Raise(lambda, f.remaining, W))
              && Along(raised[id] - g.targets[id], desired)
              && (id !in g.active ==> g.targets[id] == Edge(p[id], desired))
              && (g.active == f.active ==> Abs(raised[id] - g.targets[id]) <= eps)
    {
      RoundTarget(p, f, desired, eps, lambda, W, id);
    }
    RaiseMovesAway(lambda, f.remaining, W, desired);
    ProposalSum(p, f, desired);
    SumOrdered(g.targets, raised, desired);
    if g.active == f.active {
      SumClose(raised.Keys, raised, g.targets, eps);
    }
  }

  lemma RoundShape(p: map<Id, Slot>, f: Fill, desired: real, eps: real, W: real)
    requires f.active <= f.targets.Keys <= p.Keys && W > 0.0
    ensures var g := Round(p, f, desired, eps, W);
            && g.targets.Keys == f.targets.Keys == Proposals(p, f, W).Keys && g.active <= f.active
            && g.remaining == desired - Sum(g.targets.Keys, g.targets)
  {
    hide Share, Clamped, Proposal;
  }

  lemma SumOrdered(t: map<Id, real>, raised: map<Id, real>, desired: real)
    requires t.Keys == raised.Keys
    requires forall id :: id in t ==> Along(raised[id] - t[id], desired)
    ensures Along(Sum(raised.Keys, raised) - Sum(t.Keys, t), desired)
  {
    if desired >= 0.0 {
      SumLe(t.Keys, t, raised);
    }
    if desired <= 0.0 {
      SumLe(t.Keys, raised, t);
    }
  }

  // ------------------------------------------------------------------
  // What the whole loop achieves
  // ------------------------------------------------------------------

  /** Every battery that carries weight is at its bound in the dispatch
      direction: nothing more can be handed out. */
  ghost predicate Saturated(p: map<Id, Slot>, t: map<Id, real>, desired: real)
    requires t.Keys <= p.Keys
  {
    forall id :: id in t && p[id].weight > 0.0 ==> t[id] == Edge(p[id], desired)
  }

  /** How the loop can end. */
  ghost predicate Ended(p: map<Id, Slot>, g: Fill, desired: real, eps: real, budget: int) {
    && g.targets.Keys <= p.Keys
    && (|| Abs(g.remaining) <= Times(|g.targets.Keys|, eps)
        || Saturated(p, g.targets, desired)
        || |g.active| <= budget)
  }

  lemma {:induction false} RunLevels(p: map<Id, Slot>, f: Fill, desired: real, eps: real, rounds: nat, lambda: real)
    returns (level: real)
    requires Valid(p) && eps >= 0.0 && Leveled(p, f, desired, lambda)
    ensures var g := Run(p, f, desired, eps, rounds);
            && g.targets.Keys == f.targets.Keys
            && Leveled(p, g, desired, level) && Abs(lambda) <= Abs(level)
            && Ended(p, g, desired, eps, |f.active| - rounds)
    decreases rounds
  {
    hide Mul, LevelOf, Raise, Edge, Round;
    level := lambda;
    if rounds == 0 {
    } else if f.active == {} {
    } else if Abs(f.remaining) < eps {
      AtLeastOnce(|f.targets.Keys|, eps);
    } else if Sum(f.active, Weights(p)) <= 0.0 {
      WeightlessAreIdle(p, f.active);
    } else {
      var W := Sum(f.active, Weights(p));
      var g := Round(p, f, desired, eps, W);
      RoundKeepsLevel(p, f, desired, eps, lambda);
      level := Raise(lambda, f.remaining, W);
      if g.active != f.active {
        Shrinks(g.active, f.active);
        level := RunLevels(p, g, desired, eps, rounds - 1, level);
      }
    }
  }

  lemma AtLeastOnce(n: nat, eps: real)
    requires n > 0 && eps >= 0.0
    ensures Times(n, eps) >= eps
  {
    if n > 1 {
      AtLeastOnce(n - 1, eps);
    }
  }

  lemma Shrinks(a: set<Id>, b: set<Id>)
    requires a < b
    ensures |a| + 1 <= |b|
  {
    assert b - a != {};
    var x :| x in b - a;
    SubsetSize(a, b - {x});
  }

  lemma {:induction false} SubsetSize(a: set<Id>, b: set<Id>)
    requires a <= b
    ensures |a| <= |b|
    decreases a
  {
    if a != {} {
      var x :| x in a;
      SubsetSize(a - {x}, b - {x});
    }
  }

  lemma WeightlessAreIdle(p: map<Id, Slot>, s: set<Id>)
    requires Valid(p) && s <= p.Keys && Sum(s, Weights(p)) <= 0.0
    ensures forall id :: id in s ==> p[id].weight == 0.0
  {
    var zero := map id | id in s :: 0.0;
    SumZero(s, zero);
    SumLe(s, zero, Weights(p));
  }

  /** A level stays on its side of 0 and within the bounds. */
  lemma LevelIsBounded(slot: Slot, lambda: real, desired: real)
    requires slot.Ok() && Along(lambda, desired)
    ensures var t := LevelOf(slot, lambda);
            Along(t, desired) && slot.lo <= t <= slot.hi
  {
    MulAlong(lambda, slot.weight, desired);
  }

  /** Six rounds ran and each of them filled at least one battery to its bound. */
  ghost predicate Exhausted(p: map<Id, Slot>, t: map<Id, real>, desired: real)
    requires t.Keys <= p.Keys
  {
    exists full: set<Id> :: full < t.Keys && |full| >= ROUNDS
      && forall id :: id in full ==> t[id] == Edge(p[id], desired)
  }

  /** All targets point the way of the desired total, inside their bounds. */
  ghost predicate InBounds(p: map<Id, Slot>, t: map<Id, real>, desired: real)
    requires t.Keys <= p.Keys
  {
    forall id :: id in t ==> Along(t[id], desired) && p[id].lo <= t[id] <= p[id].hi
  }

  lemma LevelInBounds(p: map<Id, Slot>, t: map<Id, real>, lambda: real, desired: real)
    requires Valid(p) && t.Keys <= p.Keys && AtLevel(p, t, lambda) && Along(lambda, desired)
    ensures InBounds(p, t, desired)
  {
    hide LevelOf;
    forall id | id in t
      ensures Along(t[id], desired) && p[id].lo <= t[id] <= p[id].hi
    {
      assert p[id].Ok();
      LevelIsBounded(p[id], lambda, desired);
    }
  }

  /** The main result about the loop, for any number of batteries and any
      cut-off: it ends in a water-filling whose targets all point the way of
      the desired total and never overshoot it, and it stops short of the total
      by more than the cut-offs only when no battery has room left, or after
      six rounds that each filled at least one battery to its bound. */
  lemma AllocateIsWaterFill(p: map<Id, Slot>, eligible: set<Id>, desired: real, eps: real)
    requires Valid(p) && eps >= 0.0 && eligible <= p.Keys
    ensures var t := Allocate(p, eligible, desired, eps);
            && t.Keys == eligible
            && IsWaterFill(p, t)
            && InBounds(p, t, desired)
            && Along(desired - Sum(eligible, t), desired)
            && (|| Abs(desired - Sum(eligible, t)) <= Times(|eligible|, eps)
                || Saturated(p, t, desired)
                || Exhausted(p, t, desired))
  {
    hide Mul, LevelOf, Edge, Run, InBounds, Saturated, Exhausted, Valid;
    var f := Start(eligible, desired);
    var g := Run(p, f, desired, eps, ROUNDS);
    StartIsLeveled(p, eligible, desired);
    assert f.targets.Keys == eligible;
    var level := RunLevels(p, f, desired, eps, ROUNDS, 0.0);
    LevelInBounds(p, g.targets, level, desired);
    if |g.active| <= |eligible| - ROUNDS {
      SixAreFull(p, g, desired);
    }
  }

  /** The level of an allocation lies on the side of the desired total. */
  lemma AllocateHasLevel(p: map<Id, Slot>, eligible: set<Id>, desired: real, eps: real) returns (level: real)
    requires Valid(p) && eps >= 0.0 && eligible <= p.Keys
    ensures AtLevel(p, Allocate(p, eligible, desired, eps), level) && Along(level, desired)
  {
    hide Mul, LevelOf, Edge, Run, Ended;
    StartIsLeveled(p, eligible, desired);
    assert Start(eligible, desired).targets.Keys == eligible;
    level := RunLevels(p, Start(eligible, desired), desired, eps, ROUNDS, 0.0);
  }

  lemma SixAreFull(p: map<Id, Slot>, g: Fill, desired: real)
    requires g.active <= g.targets.Keys <= p.Keys && |g.active| <= |g.targets.Keys| - ROUNDS
    requires forall id :: id in g.targets && id !in g.active ==> g.targets[id] == Edge(p[id], desired)
    ensures Saturated(p, g.targets, desired) || Exhausted(p, g.targets, desired)
  {
    var full := g.targets.Keys - g.active;
    assert |full| == |g.targets.Keys| - |g.active|;
    if full == g.targets.Keys {
      assert Saturated(p, g.targets, desired);
    } else {
      assert full < g.targets.Keys;
    }
  }
}
