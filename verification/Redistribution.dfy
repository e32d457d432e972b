/** The two redistribution loops as the source writes them: hash maps updated
    in place, a shrinking list of active batteries, at most six rounds. They
    sum what is already assigned in two different ways and still compute the
    same function of their input. */
module Redistribution {
  import opened Prelude
  import opened Sums
  import opened WaterFill

  /** One pass over the active batteries, in whatever order the map yields them. */
  method ClampRound(p: map<Id, Slot>, active: set<Id>, targets: map<Id, real>, remaining: real, totalWeight: real)
    returns (next: map<Id, real>, clampedIds: set<Id>)
    requires active <= targets.Keys && active <= p.Keys && totalWeight > 0.0
    ensures next == Visited(p, active, targets, remaining, totalWeight)
    ensures clampedIds == ClampedIds(p, active, targets, remaining, totalWeight, CUTOFF)
  {
    hide Visited, ClampedIds;
    next, clampedIds := targets, {};
    var todo := active;
    VisitNone(p, targets, remaining, totalWeight);
    assert active - todo == {};
    while todo != {}
      invariant todo <= active
      invariant next == Visited(p, active - todo, targets, remaining, totalWeight)
      invariant clampedIds == ClampedIds(p, active - todo, targets, remaining, totalWeight, CUTOFF)
      decreases todo
    {
      var id :| id in todo;
      VisitOne(p, active - todo, id, targets, remaining, totalWeight);
      var slot, prev := p[id], next[id];
      var share := remaining * slot.weight / totalWeight;
      var proposed := prev + share;
      var clamped := Clamp(proposed, slot.lo, slot.hi);
      assert proposed == Proposal(slot, prev, remaining, totalWeight);
      next := next[id := clamped];
      if Abs(clamped - proposed) > CUTOFF {
        clampedIds := clampedIds + {id};
      }
      assert active - (todo - {id}) == (active - todo) + {id};
      todo := todo - {id};
    }
    assert active - todo == active;
  }

  lemma VisitNone(p: map<Id, Slot>, targets: map<Id, real>, remaining: real, totalWeight: real)
    requires totalWeight > 0.0
    ensures Visited(p, {}, targets, remaining, totalWeight) == targets
    ensures ClampedIds(p, {}, targets, remaining, totalWeight, CUTOFF) == {}
  {
  }

  lemma VisitOne(p: map<Id, Slot>, visited: set<Id>, id: Id, targets: map<Id, real>, remaining: real, totalWeight: real)
    requires visited + {id} <= targets.Keys && visited + {id} <= p.Keys && id !in visited && totalWeight > 0.0
    ensures id in Visited(p, visited, targets, remaining, totalWeight)
         && Visited(p, visited, targets, remaining, totalWeight)[id] == targets[id]
    ensures Visited(p, visited + {id}, targets, remaining, totalWeight)
         == Visited(p, visited, targets, remaining, totalWeight)
              [id := Share(p[id], targets[id], remaining, totalWeight)]
    ensures ClampedIds(p, visited + {id}, targets, remaining, totalWeight, CUTOFF)
         == ClampedIds(p, visited, targets, remaining, totalWeight, CUTOFF)
          + if Clamped(p[id], targets[id], remaining, totalWeight, CUTOFF) then {id} else {}
  {
    hide Share, Clamped;
  }

  /** The loop of `compute_deltas`: the map holds the eligible batteries only,
      and all of its values count as assigned. */
  method DistributeEligible(p: map<Id, Slot>, eligible: set<Id>, desired: real) returns (targets: map<Id, real>)
    requires eligible <= p.Keys
    ensures targets == Allocate(p, eligible, desired, CUTOFF)
  {
    targets := map id | id in eligible :: 0.0;
    hide Visited, ClampedIds, Weights, Run, Round;
    var active, remaining, rounds := eligible, desired, ROUNDS;
    assert active <= Start(eligible, desired).targets.Keys == eligible;
    while rounds > 0
      invariant active <= targets.Keys == eligible
      invariant Run(p, Fill(targets, remaining, active), desired, CUTOFF, rounds).targets
             == Allocate(p, eligible, desired, CUTOFF)
    {
      RunStep(p, Fill(targets, remaining, active), desired, CUTOFF, rounds);
      if active == {} || Abs(remaining) < CUTOFF {
        break;
      }
      var totalWeight := Total(active, Weights(p));
      if totalWeight <= 0.0 {
        break;
      }
      ghost var before := Fill(targets, remaining, active);
      var clampedIds;
      targets, clampedIds := ClampRound(p, active, targets, remaining, totalWeight);
      var handedOut := Total(targets.Keys, targets);
      remaining := desired - handedOut;
      RoundOf(p, before, desired, totalWeight);
      if clampedIds == {} {
        assert active - clampedIds == active;
        break;
      }
      NotAll(active, clampedIds);
      active := active - clampedIds;
      rounds := rounds - 1;
    }
    RunStep(p, Fill(targets, remaining, active), desired, CUTOFF, rounds);
  }

  lemma NotAll(active: set<Id>, gone: set<Id>)
    requires gone <= active && gone != {}
    ensures active - gone != active
  {
    var x :| x in gone;
    assert x in active && x !in active - gone;
  }

  lemma RoundOf(p: map<Id, Slot>, f: Fill, desired: real, totalWeight: real)
    requires f.active <= f.targets.Keys <= p.Keys && totalWeight > 0.0
    ensures var targets := Visited(p, f.active, f.targets, f.remaining, totalWeight);
            var clamped := ClampedIds(p, f.active, f.targets, f.remaining, totalWeight, CUTOFF);
            && targets.Keys == f.targets.Keys
            && Round(p, f, desired, CUTOFF, totalWeight)
                 == Fill(targets, desired - Sum(targets.Keys, targets), f.active - clamped)
  {
    hide Share, ClampedIds;
  }

  /** The loop of `compute_targets`: the map holds every battery, 0 W for the
      ones that are not eligible, and what is assigned is summed in two parts. */
  method DistributeAmongAll(p: map<Id, Slot>, all: set<Id>, eligible: set<Id>, desired: real)
    returns (targets: map<Id, real>)
    requires eligible <= p.Keys && eligible <= all
    ensures targets == map id | id in all ::
      if id in eligible then Allocate(p, eligible, desired, CUTOFF)[id] else 0.0
  {
    targets := map id | id in all :: 0.0;
    ghost var own := map id | id in eligible :: 0.0;
    hide Visited, ClampedIds, Weights, Run, Round;
    var active, remaining, rounds := eligible, desired, ROUNDS;
    while rounds > 0
      invariant active <= own.Keys == eligible && Extends(targets, own, all)
      invariant Run(p, Fill(own, remaining, active), desired, CUTOFF, rounds).targets
             == Allocate(p, eligible, desired, CUTOFF)
    {
      RunStep(p, Fill(own, remaining, active), desired, CUTOFF, rounds);
      if active == {} || Abs(remaining) < CUTOFF {
        break;
      }
      var totalWeight := Total(active, Weights(p));
      if totalWeight <= 0.0 {
        break;
      }
      ghost var before := Fill(own, remaining, active);
      RoundOfExtension(p, before, targets, all, desired, totalWeight);
      own := Round(p, before, desired, CUTOFF, totalWeight).targets;
      var clampedIds;
      targets, clampedIds := ClampRound(p, active, targets, remaining, totalWeight);
      var assignedActive := Total(active, targets);
      var assignedRest := Total(targets.Keys - active, targets);
      remaining := desired - (assignedActive + assignedRest);
      if clampedIds == {} {
        assert active - clampedIds == active;
        break;
      }
      NotAll(active, clampedIds);
      active := active - clampedIds;
      rounds := rounds - 1;
    }
    RunStep(p, Fill(own, remaining, active), desired, CUTOFF, rounds);
    ExtensionIsMap(targets, own, all);
  }

  /** `targets` is `own` on its keys and 0 elsewhere. */
  ghost predicate Extends(targets: map<Id, real>, own: map<Id, real>, all: set<Id>) {
    && own.Keys <= all == targets.Keys
    && forall id :: id in all ==> targets[id] == if id in own then own[id] else 0.0
  }

  lemma ExtensionIsMap(targets: map<Id, real>, own: map<Id, real>, all: set<Id>)
    requires Extends(targets, own, all)
    ensures targets == map id | id in all :: if id in own.Keys then own[id] else 0.0
  {
  }

  /** A pass over the active batteries does the same to both maps. */
  lemma VisitedExtension(p: map<Id, Slot>, f: Fill, whole: map<Id, real>, all: set<Id>, totalWeight: real)
    requires Extends(whole, f.targets, all) && f.active <= f.targets.Keys <= p.Keys && totalWeight > 0.0
    ensures Extends(Visited(p, f.active, whole, f.remaining, totalWeight),
                    Visited(p, f.active, f.targets, f.remaining, totalWeight), all)
    ensures Visited(p, f.active, f.targets, f.remaining, totalWeight).Keys == f.targets.Keys
    ensures ClampedIds(p, f.active, whole, f.remaining, totalWeight, CUTOFF)
         == ClampedIds(p, f.active, f.targets, f.remaining, totalWeight, CUTOFF)
  {
    hide Share, Clamped;
  }

  /** A whole round, summed in two parts, is the round of the eligible map. */
  lemma RoundOfExtension(p: map<Id, Slot>, f: Fill, whole: map<Id, real>, all: set<Id>, desired: real,
                         totalWeight: real)
    requires Extends(whole, f.targets, all) && f.active <= f.targets.Keys <= p.Keys && totalWeight > 0.0
    ensures var targets := Visited(p, f.active, whole, f.remaining, totalWeight);
            var clamped := ClampedIds(p, f.active, whole, f.remaining, totalWeight, CUTOFF);
            var g := Round(p, f, desired, CUTOFF, totalWeight);
            && targets.Keys == all && g.targets.Keys == f.targets.Keys
            && Extends(targets, g.targets, all)
            && g.remaining == desired - (Sum(f.active, targets) + Sum(targets.Keys - f.active, targets))
            && g.active == f.active - clamped
  {
    hide Visited, ClampedIds;
    VisitedExtension(p, f, whole, all, totalWeight);
    SumOfExtension(Visited(p, f.active, whole, f.remaining, totalWeight),
                   Visited(p, f.active, f.targets, f.remaining, totalWeight), all, f.active);
  }

  lemma SumOfExtension(targets: map<Id, real>, own: map<Id, real>, all: set<Id>, active: set<Id>)
    requires Extends(targets, own, all) && active <= own.Keys
    ensures Sum(active, targets) + Sum(all - active, targets) == Sum(own.Keys, own)
  {
    SumSplit(all, active, targets);
    SumSplit(all, own.Keys, targets);
    SumZero(all - own.Keys, targets);
    SumEqual(own.Keys, own, targets);
  }
}
