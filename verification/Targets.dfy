/** `compute_targets`: absolute setpoints for Modbus mode. The stages are
    allocation, consolidation of sub-minimum shares, per-battery rate limit,
    and the circuit cap with plug feedback; each is a function on the whole
    target map, and the method at the end runs the loops of the source. */
module Targets {
  import opened Prelude
  import opened Sums
  import opened Config
  import opened State
  import opened WaterFill
  import opened Demand
  import opened Redistribution

  // ------------------------------------------------------------------
  // Stage 1: allocation
  // ------------------------------------------------------------------

  /** Shares of `desired` for the eligible batteries, 0 W for the others. */
  ghost function Shares(bats: Batteries, circuits: Circuits, cfg: DispatcherConfig, now: Time, desired: real,
                        eps: real):
      (t: map<Id, real>)
    ensures t.Keys == bats.Keys
  {
    var eligible := Eligible(bats, circuits, now);
    var own := Allocate(Slots(bats, cfg, now, desired < 0.0), eligible, desired, eps);
    map id | id in bats :: if id in eligible then own[id] else 0.0
  }

  // ------------------------------------------------------------------
  // Stage 2: consolidation
  // ------------------------------------------------------------------

  /** The circuit total is worth a command, but no single share is. */
  ghost predicate SubMinimum(c: Circuit, t: map<Id, real>)
    requires Members(c) <= t.Keys
  {
    && Abs(Sum(Members(c), t)) >= MARSTEK_MIN_W
    && forall m :: m in c.memberIds ==> Abs(t[m]) < MARSTEK_MIN_W
  }

  /** Has a reading, and headroom in direction `dir`. */
  predicate CanDrive(b: Battery, dir: real, cfg: DispatcherConfig, now: Time) {
    b.lastPlugW.Some? && if dir < 0.0 then LowBound(b, cfg, now) < 0.0 else HighBound(b, cfg, now) > 0.0
  }

  /** Larger existing share, then larger priority weight. */
  predicate Outranks(bats: Batteries, t: map<Id, real>, a: Id, b: Id)
    requires a in bats && b in bats && a in t && b in t
  {
    || Abs(t[a]) > Abs(t[b])
    || (Abs(t[a]) == Abs(t[b]) && bats[a].priorityWeight > bats[b].priorityWeight)
  }

  /** `filter(...).max_by(...)`: the last of the highest-ranking candidates. */
  function Primary(ids: seq<Id>, bats: Batteries, t: map<Id, real>, dir: real, cfg: DispatcherConfig, now: Time):
      (best: Option<Id>)
    requires forall m :: m in ids ==> m in bats && m in t
    ensures best.Some? ==> best.value in ids && CanDrive(bats[best.value], dir, cfg, now)
  {
    if ids == [] then None
    else
      var rest := Primary(ids[..|ids| - 1], bats, t, dir, cfg, now);
      var m := ids[|ids| - 1];
      if CanDrive(bats[m], dir, cfg, now) && (rest.Some? ==> !Outranks(bats, t, rest.value, m)) then Some(m) else rest
  }

  ghost function PrimaryOf(c: Circuit, bats: Batteries, t: map<Id, real>, cfg: DispatcherConfig, now: Time): Option<Id>
    requires Members(c) <= bats.Keys && Members(c) <= t.Keys
  {
    if SubMinimum(c, t) then
      Primary(c.memberIds, bats, t, Signum(Sum(Members(c), t)), cfg, now)
    else None
  }

  /** Where a member of circuit `c` ends up. */
  ghost function ConsolidatedTarget(c: Circuit, bats: Batteries, t: map<Id, real>, cfg: DispatcherConfig, now: Time,
                                    id: Id): real
    requires Members(c) <= bats.Keys && Members(c) <= t.Keys && id in t && id in bats
  {
    var primary := PrimaryOf(c, bats, t, cfg, now);
    if primary.None? then t[id]
    else if id == primary.value then
      Clamp(Sum(Members(c), t), LowBound(bats[id], cfg, now), HighBound(bats[id], cfg, now))
    else 0.0
  }

  /** Consolidation done on the circuits in `visited`. */
  ghost function Consolidated(bats: Batteries, circuits: Circuits, t: map<Id, real>, cfg: DispatcherConfig, now: Time,
                              visited: set<Id>): (u: map<Id, real>)
    requires WellFormed(bats, circuits) && t.Keys == bats.Keys
    ensures u.Keys == bats.Keys
  {
    map id | id in bats ::
      if bats[id].circuit in visited then
        ConsolidatedTarget(circuits[bats[id].circuit], bats, t, cfg, now, id)
      else t[id]
  }

  /** What the fleet is asked for before ramps and fuses have their say. */
  ghost function Wanted(bats: Batteries, circuits: Circuits, cfg: DispatcherConfig, now: Time, desired: real,
                        eps: real):
      (t: map<Id, real>)
    requires WellFormed(bats, circuits)
    ensures t.Keys == bats.Keys
  {
    Consolidated(bats, circuits, Shares(bats, circuits, cfg, now, desired, eps), cfg, now, circuits.Keys)
  }

  // ------------------------------------------------------------------
  // Stage 3: rate limit
  // ------------------------------------------------------------------

  function RateLimit(cfg: DispatcherConfig): (r: real)
    ensures r >= 1.0
  {
    Max(cfg.rateLimitWPerCycle, 1.0)
  }

  function Limited(plug: real, target: real, rate: real): real {
    plug + Clamp(target - plug, -rate, rate)
  }

  function RateLimited(bats: Batteries, eligible: set<Id>, t: map<Id, real>, rate: real): (u: map<Id, real>)
    requires t.Keys == bats.Keys
    ensures u.Keys == bats.Keys
  {
    map id | id in bats :: if id in eligible then Limited(PlugOf(bats[id]), t[id], rate) else t[id]
  }

  // ------------------------------------------------------------------
  // Stage 4: circuit cap with plug feedback
  // ------------------------------------------------------------------

  ghost function WorstCase(c: Circuit, bats: Batteries, t: map<Id, real>): real
    requires Members(c) <= bats.Keys && Members(c) <= t.Keys
  {
    Max(Abs(Sum(Members(c), t)), Abs(Sum(Members(c), Plugs(bats))))
  }

  /** Scale that brings `worst` down to `cap`. A worst case of 0 above the cap
      takes a negative cap, which no populated circuit has. */
  function ScaleTo(cap: real, worst: real): real {
    if worst > cap && worst != 0.0 then cap / worst else 1.0
  }

  ghost function CapScale(c: Circuit, bats: Batteries, t: map<Id, real>): real
    requires Members(c) <= bats.Keys && Members(c) <= t.Keys
  {
    ScaleTo(CapW(c.config), WorstCase(c, bats, t))
  }

  ghost function Capped(bats: Batteries, circuits: Circuits, t: map<Id, real>, visited: set<Id>): (u: map<Id, real>)
    requires WellFormed(bats, circuits) && t.Keys == bats.Keys
    ensures u.Keys == bats.Keys
  {
    map id | id in bats ::
      if bats[id].circuit in visited then Mul(CapScale(circuits[bats[id].circuit], bats, t), t[id]) else t[id]
  }

  // ------------------------------------------------------------------
  // The whole computation
  // ------------------------------------------------------------------

  /** The targets of one tick; the code's cut-off is `eps == CUTOFF`. */
  ghost function TargetsFor(bats: Batteries, circuits: Circuits, cfg: DispatcherConfig, gridW: real, now: Time,
                            eps: real):
      (t: map<Id, real>)
    requires WellFormed(bats, circuits)
    ensures t.Keys == bats.Keys
  {
    var eligible := Eligible(bats, circuits, now);
    if eligible == {} then map id | id in bats :: 0.0
    else
      var wanted := Wanted(bats, circuits, cfg, now, DesiredTotal(bats, eligible, gridW), eps);
      Capped(bats, circuits, RateLimited(bats, eligible, wanted, RateLimit(cfg)), circuits.Keys)
  }

  // ------------------------------------------------------------------
  // The loops of the source
  // ------------------------------------------------------------------

  lemma {:induction false} SumOverIds(ids: seq<Id>, f: map<Id, real>, k: nat)
    requires Distinct(ids) && k < |ids|
    requires forall m :: m in ids ==> m in f
    ensures IdSet(ids[..k]) <= f.Keys && IdSet(ids[..k + 1]) <= f.Keys
    ensures Sum(IdSet(ids[..k + 1]), f) == Sum(IdSet(ids[..k]), f) + f[ids[k]]
  {
    var before, after := IdSet(ids[..k]), IdSet(ids[..k + 1]);
    assert ids[..k + 1] == ids[..k] + [ids[k]];
    assert ids[k] !in before;
    SumPick(after, f, ids[k]);
    assert after - {ids[k]} == before;
  }

  /** `member_ids.iter().filter_map(...).sum()`. */
  method MemberSum(c: Circuit, f: map<Id, real>) returns (total: real)
    requires Distinct(c.memberIds) && Members(c) <= f.Keys
    ensures total == Sum(Members(c), f)
  {
    total := 0.0;
    var ids := c.memberIds;
    for k := 0 to |ids|
      invariant IdSet(ids[..k]) <= f.Keys && total == Sum(IdSet(ids[..k]), f)
    {
      SumOverIds(ids, f, k);
      total := total + f[ids[k]];
    }
    assert ids[..|ids|] == ids;
  }

  method FindPrimary(c: Circuit, bats: Batteries, t: map<Id, real>, dir: real, cfg: DispatcherConfig, now: Time)
    returns (best: Option<Id>)
    requires Members(c) <= bats.Keys && Members(c) <= t.Keys
    ensures best == Primary(c.memberIds, bats, t, dir, cfg, now)
  {
    best := None;
    var ids := c.memberIds;
    assert forall m :: m in ids ==> m in Members(c);
    for k := 0 to |ids|
      invariant best == Primary(ids[..k], bats, t, dir, cfg, now)
    {
      assert ids[..k + 1][..k] == ids[..k];
      if CanDrive(bats[ids[k]], dir, cfg, now) && (best.Some? ==> !Outranks(bats, t, best.value, ids[k])) {
        best := Some(ids[k]);
      }
    }
    assert ids[..|ids|] == ids;
  }

  function Concentrated(ids: seq<Id>, t: map<Id, real>, p: Id, watts: real): map<Id, real> {
    map id | id in t :: if id in ids then (if id == p then watts else 0.0) else t[id]
  }

  /** The primary gets everything, its siblings 0 W. */
  method Concentrate(ids: seq<Id>, t: map<Id, real>, p: Id, watts: real) returns (u: map<Id, real>)
    requires IdSet(ids) <= t.Keys
    ensures u == Concentrated(ids, t, p, watts)
  {
    u := t;
    for k := 0 to |ids|
      invariant u == Concentrated(ids[..k], t, p, watts)
    {
      assert ids[..k + 1] == ids[..k] + [ids[k]];
      u := u[ids[k] := if ids[k] == p then watts else 0.0];
    }
    assert ids[..|ids|] == ids;
  }

  /** One circuit of the consolidation loop. */
  method ConsolidateCircuit(c: Circuit, bats: Batteries, t: map<Id, real>, cfg: DispatcherConfig, now: Time)
    returns (u: map<Id, real>)
    requires Distinct(c.memberIds) && Members(c) <= bats.Keys == t.Keys
    ensures u.Keys == t.Keys
    ensures forall id :: id in t ==>
      u[id] == if id in c.memberIds then ConsolidatedTarget(c, bats, t, cfg, now, id) else t[id]
  {
    hide LowBound, HighBound, Primary, CanDrive, Sum;
    u := t;
    var targetSum := MemberSum(c, t);
    if Abs(targetSum) >= MARSTEK_MIN_W {
      var anyDispatches := exists m :: m in c.memberIds && Abs(t[m]) >= MARSTEK_MIN_W;
      if !anyDispatches {
        assert SubMinimum(c, t);
        var primary := FindPrimary(c, bats, t, Signum(targetSum), cfg, now);
        if primary.Some? {
          var p := primary.value;
          var concentrated := Clamp(targetSum, LowBound(bats[p], cfg, now), HighBound(bats[p], cfg, now));
          u := Concentrate(c.memberIds, t, p, concentrated);
        }
      }
    }
  }

  /** A circuit only reads and writes its own members, so the order in which
      the circuits are visited does not matter. */
  lemma ConsolidationIsLocal(c: Circuit, bats: Batteries, t: map<Id, real>, u: map<Id, real>, cfg: DispatcherConfig,
                             now: Time, id: Id)
    requires Distinct(c.memberIds) && Members(c) <= bats.Keys == t.Keys == u.Keys && id in c.memberIds
    requires forall m :: m in c.memberIds ==> t[m] == u[m]
    ensures ConsolidatedTarget(c, bats, t, cfg, now, id) == ConsolidatedTarget(c, bats, u, cfg, now, id)
  {
    hide LowBound, HighBound, Primary, CanDrive, Sum;
    SumEqual(Members(c), t, u);
    PrimaryIsLocal(c.memberIds, bats, t, u, Signum(Sum(Members(c), t)), cfg, now);
  }

  lemma {:induction false} PrimaryIsLocal(ids: seq<Id>, bats: Batteries, t: map<Id, real>, u: map<Id, real>, dir: real,
                                          cfg: DispatcherConfig, now: Time)
    requires forall m :: m in ids ==> m in bats && m in t && m in u && t[m] == u[m]
    ensures Primary(ids, bats, t, dir, cfg, now) == Primary(ids, bats, u, dir, cfg, now)
  {
    if ids != [] {
      PrimaryIsLocal(ids[..|ids| - 1], bats, t, u, dir, cfg, now);
    }
  }

  method ConsolidateAll(bats: Batteries, circuits: Circuits, t: map<Id, real>, cfg: DispatcherConfig, now: Time)
    returns (u: map<Id, real>)
    requires WellFormed(bats, circuits) && t.Keys == bats.Keys
    ensures u == Consolidated(bats, circuits, t, cfg, now, circuits.Keys)
  {
    hide ConsolidatedTarget, Homed;
    u := t;
    var todo := circuits.Keys;
    assert Consolidated(bats, circuits, t, cfg, now, {}) == t;
    assert circuits.Keys - todo == {};
    while todo != {}
      invariant todo <= circuits.Keys
      invariant u == Consolidated(bats, circuits, t, cfg, now, circuits.Keys - todo)
      decreases todo
    {
      var c :| c in todo;
      ghost var before := u;
      u := ConsolidateCircuit(circuits[c], bats, u, cfg, now);
      assert circuits.Keys - (todo - {c}) == (circuits.Keys - todo) + {c};
      VisitCircuit(bats, circuits, t, before, u, cfg, now, circuits.Keys - todo, c);
      todo := todo - {c};
    }
    assert circuits.Keys - todo == circuits.Keys;
  }

  lemma VisitCircuit(bats: Batteries, circuits: Circuits, t: map<Id, real>, before: map<Id, real>, after: map<Id, real>,
                     cfg: DispatcherConfig, now: Time, visited: set<Id>, c: Id)
    requires WellFormed(bats, circuits) && t.Keys == bats.Keys == after.Keys && c in circuits && c !in visited
    requires before == Consolidated(bats, circuits, t, cfg, now, visited)
    requires forall id :: id in bats ==>
      after[id] == if id in circuits[c].memberIds then ConsolidatedTarget(circuits[c], bats, before, cfg, now, id)
                   else before[id]
    ensures after == Consolidated(bats, circuits, t, cfg, now, visited + {c})
  {
    hide ConsolidatedTarget, CapW, LimitsOk;
    forall id | id in bats
      ensures after[id] == Consolidated(bats, circuits, t, cfg, now, visited + {c})[id]
    {
      assert Homed(id, bats[id], circuits);
      if bats[id].circuit == c {
        ConsolidationIsLocal(circuits[c], bats, t, before, cfg, now, id);
      }
    }
  }

  method RateLimitAll(bats: Batteries, eligible: set<Id>, t: map<Id, real>, rate: real) returns (u: map<Id, real>)
    requires eligible <= bats.Keys == t.Keys
    ensures u == RateLimited(bats, eligible, t, rate)
  {
    u := t;
    var todo := eligible;
    while todo != {}
      invariant todo <= eligible
      invariant u == RateLimited(bats, eligible - todo, t, rate)
      decreases todo
    {
      var id :| id in todo;
      var plug := PlugOf(bats[id]);
      var delta := u[id] - plug;
      var limited := Clamp(delta, -rate, rate);
      u := u[id := plug + limited];
      todo := todo - {id};
    }
    assert eligible - todo == eligible;
  }

  /** One circuit of the cap loop. */
  method CapCircuit(c: Circuit, bats: Batteries, t: map<Id, real>) returns (u: map<Id, real>)
    requires Distinct(c.memberIds) && Members(c) <= bats.Keys == t.Keys
    ensures u.Keys == t.Keys
    ensures forall id :: id in t ==> u[id] == if id in c.memberIds then Mul(CapScale(c, bats, t), t[id]) else t[id]
  {
    hide CapW, Sum, Mul;
    u := t;
    var targetSum := MemberSum(c, t);
    var plugSum := MemberSum(c, Plugs(bats));
    var cap := CapW(c.config);
    var worstCase := Max(Abs(targetSum), Abs(plugSum));
    var scale := ScaleTo(cap, worstCase);
    if worstCase > cap && worstCase != 0.0 {
      u := ScaleMembers(c.memberIds, t, scale);
    } else {
      forall id | id in t
        ensures Mul(1.0, t[id]) == t[id]
      {
        MulLaws(1.0, t[id]);
      }
    }
  }

  method ScaleMembers(ids: seq<Id>, t: map<Id, real>, scale: real) returns (u: map<Id, real>)
    requires Distinct(ids) && IdSet(ids) <= t.Keys
    ensures u.Keys == t.Keys
    ensures forall id :: id in t ==> u[id] == if id in ids then Mul(scale, t[id]) else t[id]
  {
    hide Mul;
    u := t;
    for k := 0 to |ids|
      invariant u.Keys == t.Keys
      invariant forall id :: id in t ==> u[id] == if id in ids[..k] then Mul(scale, t[id]) else t[id]
    {
      assert ids[..k + 1] == ids[..k] + [ids[k]];
      assert ids[k] !in ids[..k];
      u := u[ids[k] := Mul(scale, u[ids[k]])];
    }
    assert ids[..|ids|] == ids;
  }

  method CapAll(bats: Batteries, circuits: Circuits, t: map<Id, real>) returns (u: map<Id, real>)
    requires WellFormed(bats, circuits) && t.Keys == bats.Keys
    ensures u == Capped(bats, circuits, t, circuits.Keys)
  {
    hide CapScale, Mul, Homed;
    u := t;
    var todo := circuits.Keys;
    assert circuits.Keys - todo == {};
    while todo != {}
      invariant todo <= circuits.Keys
      invariant u == Capped(bats, circuits, t, circuits.Keys - todo)
      decreases todo
    {
      var c :| c in todo;
      ghost var before := u;
      u := CapCircuit(circuits[c], bats, u);
      assert circuits.Keys - (todo - {c}) == (circuits.Keys - todo) + {c};
      VisitCap(bats, circuits, t, before, u, circuits.Keys - todo, c);
      todo := todo - {c};
    }
    assert circuits.Keys - todo == circuits.Keys;
  }

  lemma VisitCap(bats: Batteries, circuits: Circuits, t: map<Id, real>, before: map<Id, real>, after: map<Id, real>,
                 visited: set<Id>, c: Id)
    requires WellFormed(bats, circuits) && t.Keys == bats.Keys == after.Keys && c in circuits && c !in visited
    requires before == Capped(bats, circuits, t, visited)
    requires forall id :: id in bats ==>
      after[id] == if id in circuits[c].memberIds then Mul(CapScale(circuits[c], bats, before), before[id])
                   else before[id]
    ensures after == Capped(bats, circuits, t, visited + {c})
  {
    hide CapW, Mul, Sum, ScaleTo;
    SumEqual(Members(circuits[c]), t, before);
    forall id | id in bats
      ensures after[id] == Capped(bats, circuits, t, visited + {c})[id]
    {
      assert Homed(id, bats[id], circuits);
    }
  }

  method ComputeShares(bats: Batteries, circuits: Circuits, cfg: DispatcherConfig, gridW: real, now: Time)
    returns (targets: map<Id, real>)
    ensures targets == Shares(bats, circuits, cfg, now, DesiredTotal(bats, Eligible(bats, circuits, now), gridW),
                              CUTOFF)
  {
    hide SlotOf, GridCorrection, Allocate, Sum, Eligible;
    var eligible := Eligible(bats, circuits, now);
    var currentTotal := Total(eligible, Plugs(bats));
    var desiredTotal := currentTotal + GridCorrection(gridW, currentTotal, |eligible|);
    targets := DistributeAmongAll(Slots(bats, cfg, now, desiredTotal < 0.0), bats.Keys, eligible, desiredTotal);
  }

  /** `compute_targets`. */
  method ComputeTargets(bats: Batteries, circuits: Circuits, cfg: DispatcherConfig, gridW: real, now: Time)
    returns (targets: map<Id, real>)
    requires WellFormed(bats, circuits)
    ensures targets == TargetsFor(bats, circuits, cfg, gridW, now, CUTOFF)
  {
    hide Eligible, Shares, DesiredTotal, Consolidated, Capped, RateLimited, WellFormed;
    targets := map id | id in bats :: 0.0;
    var eligible := Eligible(bats, circuits, now);
    if eligible != {} {
      targets := ComputeShares(bats, circuits, cfg, gridW, now);
      targets := ConsolidateAll(bats, circuits, targets, cfg, now);
      targets := RateLimitAll(bats, eligible, targets, RateLimit(cfg));
      targets := CapAll(bats, circuits, targets);
    }
  }
}
