/** Consequences of the water-filling: it is the only one with its total, the
    loop hands out exactly what is reachable while six rounds suffice, and they
    suffice for six batteries but not for seven. */
module WaterFillLaws {
  import opened Prelude
  import opened Sums
  import opened WaterFill

  // ------------------------------------------------------------------
  // Uniqueness: the allocation is determined by weights, bounds and total
  // ------------------------------------------------------------------

  lemma LevelMonotone(slot: Slot, low: real, high: real)
    requires slot.Ok() && low <= high
    ensures LevelOf(slot, low) <= LevelOf(slot, high)
  {
    hide Mul;
    LevelAdds(low, high - low, slot.weight);
    MulAlong(high - low, slot.weight, 1.0);
  }

  /** Two water-fillings of the same batteries with the same total are the same
      map. Nothing else about a run can matter: not the order in which the
      batteries were visited, nor the rounds it took. */
  lemma WaterFillIsUnique(p: map<Id, Slot>, t: map<Id, real>, u: map<Id, real>)
    requires Valid(p) && t.Keys == u.Keys <= p.Keys
    requires IsWaterFill(p, t) && IsWaterFill(p, u)
    requires Sum(t.Keys, t) == Sum(u.Keys, u)
    ensures t == u
  {
    var a :| AtLevel(p, t, a);
    var b :| AtLevel(p, u, b);
    if a <= b {
      LowerLevelIsBelow(p, t, u, a, b);
      SumLe(t.Keys, t, u);
    } else {
      LowerLevelIsBelow(p, u, t, b, a);
      SumLe(t.Keys, u, t);
    }
  }

  lemma LowerLevelIsBelow(p: map<Id, Slot>, t: map<Id, real>, u: map<Id, real>, a: real, b: real)
    requires Valid(p) && t.Keys == u.Keys <= p.Keys && a <= b
    requires AtLevel(p, t, a) && AtLevel(p, u, b)
    ensures forall id :: id in t ==> t[id] <= u[id]
  {
    hide LevelOf;
    forall id | id in t
      ensures t[id] <= u[id]
    {
      LevelMonotone(p[id], a, b);
    }
  }

  /** Of two water-fillings the one with the larger total is nowhere below. */
  lemma WaterFillIsMonotone(p: map<Id, Slot>, t: map<Id, real>, u: map<Id, real>)
    requires Valid(p) && t.Keys == u.Keys <= p.Keys
    requires IsWaterFill(p, t) && IsWaterFill(p, u)
    requires Sum(t.Keys, t) <= Sum(u.Keys, u)
    ensures forall id :: id in t ==> t[id] <= u[id]
  {
    var a :| AtLevel(p, t, a);
    var b :| AtLevel(p, u, b);
    if a <= b {
      LowerLevelIsBelow(p, t, u, a, b);
    } else {
      LowerLevelIsBelow(p, u, t, b, a);
      SumLe(t.Keys, u, t);
    }
  }

  // ------------------------------------------------------------------
  // How much is handed out
  // ------------------------------------------------------------------

  /** The most each battery can contribute in the dispatch direction. */
  function Room(p: map<Id, Slot>, desired: real): map<Id, real> {
    map id | id in p :: if p[id].weight > 0.0 then Edge(p[id], desired) else 0.0
  }

  /** The desired total, cut off at what the batteries can contribute. */
  ghost function Reachable(p: map<Id, Slot>, eligible: set<Id>, desired: real): real
    requires eligible <= p.Keys
  {
    var room := Sum(eligible, Room(p, desired));
    if desired < 0.0 then Max(desired, room) else Min(desired, room)
  }

  /** The sign of `desired`, with 0 counting as discharge. */
  predicate Toward(x: real, desired: real) {
    if desired < 0.0 then x <= 0.0 else x >= 0.0
  }

  lemma WeightlessLevel(slot: Slot, lambda: real)
    requires slot.Ok() && slot.weight == 0.0
    ensures LevelOf(slot, lambda) == 0.0
  {
  }

  /** No water-filling goes beyond the room, and a saturated one uses all of it. */
  lemma AllocationWithinRoom(p: map<Id, Slot>, t: map<Id, real>, desired: real)
    requires Valid(p) && t.Keys <= p.Keys && IsWaterFill(p, t) && InBounds(p, t, desired)
    ensures Toward(Sum(t.Keys, Room(p, desired)) - Sum(t.Keys, t), desired)
    ensures Saturated(p, t, desired) ==> Sum(t.Keys, t) == Sum(t.Keys, Room(p, desired))
  {
    hide Mul, LevelOf;
    var lambda :| AtLevel(p, t, lambda);
    var room := Room(p, desired);
    forall id | id in t
      ensures Toward(room[id] - t[id], desired)
      ensures p[id].weight == 0.0 ==> t[id] == room[id]
    {
      assert p[id].Ok();
      if p[id].weight == 0.0 {
        WeightlessLevel(p[id], lambda);
      }
    }
    if desired < 0.0 {
      SumLe(t.Keys, room, t);
    } else {
      SumLe(t.Keys, t, room);
    }
    if Saturated(p, t, desired) {
      SumEqual(t.Keys, t, room);
    }
  }

  /** Conservation. With at most six eligible batteries the loop hands out the
      reachable part of the desired total, up to one cut-off per battery. */
  lemma AllocateConserves(p: map<Id, Slot>, eligible: set<Id>, desired: real, eps: real)
    requires Valid(p) && eps >= 0.0 && eligible <= p.Keys && |eligible| <= ROUNDS
    ensures Abs(Reachable(p, eligible, desired) - Sum(eligible, Allocate(p, eligible, desired, eps)))
              <= Times(|eligible|, eps)
  {
    var t := Allocate(p, eligible, desired, eps);
    AllocateIsWaterFill(p, eligible, desired, eps);
    assert !Exhausted(p, t, desired) by {
      forall full: set<Id> | full < t.Keys
        ensures |full| < ROUNDS
      {
        Shrinks(full, t.Keys);
      }
    }
    AllocationWithinRoom(p, t, desired);
    TimesNonNegative(|eligible|, eps);
  }

  lemma {:induction false} TimesNonNegative(n: nat, eps: real)
    requires eps >= 0.0
    ensures Times(n, eps) >= 0.0
  {
    if n > 0 {
      TimesNonNegative(n - 1, eps);
    }
  }

  lemma {:induction false} TimesZero(n: nat)
    ensures Times(n, 0.0) == 0.0
  {
    if n > 0 {
      TimesZero(n - 1);
    }
  }

  /** Without the cut-off the loop is exact: the reachable total, handed out at
      one level, and no other allocation does that. */
  lemma AllocateIsExact(p: map<Id, Slot>, eligible: set<Id>, desired: real, u: map<Id, real>)
    requires Valid(p) && eligible <= p.Keys && |eligible| <= ROUNDS
    ensures Sum(eligible, Allocate(p, eligible, desired, 0.0)) == Reachable(p, eligible, desired)
    ensures u == Allocate(p, eligible, desired, 0.0)
       <==> u.Keys == eligible && IsWaterFill(p, u) && Sum(eligible, u) == Reachable(p, eligible, desired)
  {
    AllocateConserves(p, eligible, desired, 0.0);
    TimesZero(|eligible|);
    AllocateIsWaterFill(p, eligible, desired, 0.0);
    if u.Keys == eligible && IsWaterFill(p, u) && Sum(eligible, u) == Reachable(p, eligible, desired) {
      WaterFillIsUnique(p, u, Allocate(p, eligible, desired, 0.0));
    }
  }
}
