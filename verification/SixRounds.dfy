/** Six rounds are enough for six batteries and for no larger fleet. Seven of
    the fleet below have equal weights and bounds inside the 2500 W firmware
    range, and whoever else takes part is full; every round fills exactly one
    battery, and 1 W of the 7000 W asked for is still unassigned when the loop
    gives up, although the last of the seven has 1347 W of room. */
module SixRounds {
  import opened Prelude
  import opened Sums
  import opened WaterFill
  import opened WaterFillLaws

  const ASKED := 7000.0

  /** The level after k rounds. */
  function Level(k: nat): real
    requires k < 7
  {
    if k == 0 then 0.0
    else if k == 1 then 1000.0
    else if k == 2 then 1120.0
    else if k == 3 then 1144.0
    else if k == 4 then 1150.0
    else if k == 5 then 1152.0
    else 1153.0
  }

  /** The discharge bound of battery k. */
  function Bound(k: nat): real
    requires k < 7
  {
    if k == 0 then 280.0
    else if k == 1 then 1000.0
    else if k == 2 then 1120.0
    else if k == 3 then 1144.0
    else if k == 4 then 1150.0
    else if k == 5 then 1152.0
    else 2500.0
  }

  /** Watts still unassigned after k rounds. */
  function Left(k: nat): real
    requires k < 7
  {
    if k == 0 then 7000.0
    else if k == 1 then 720.0
    else if k == 2 then 120.0
    else if k == 3 then 24.0
    else if k == 4 then 6.0
    else if k == 5 then 2.0
    else 1.0
  }

  function SlotOf(i: nat): Slot
    requires i < 7
  {
    Slot(1.0, -2500.0, Bound(i))
  }

  /** The battery numbered i is filled in round i. */
  function TargetAfter(k: nat, i: nat): real
    requires k < 7 && i < 7
  {
    if i < k then Bound(i) else Level(k)
  }

  /** The batteries from number k on. */
  function Tail(n: seq<Id>, k: nat): set<Id>
    requires |n| == 7 && k <= 7
  {
    set i | k <= i < 7 :: n[i]
  }

  /** Whoever else takes part carries no weight: full or empty batteries. */
  ghost predicate Fleet(n: seq<Id>, p: map<Id, Slot>) {
    && |n| == 7
    && (forall i, j :: 0 <= i < j < 7 ==> n[i] != n[j])
    && Tail(n, 0) <= p.Keys
    && (forall i :: 0 <= i < 7 ==> p[n[i]] == SlotOf(i))
    && forall id :: id in p && id !in Tail(n, 0) ==> p[id].Ok() && p[id].weight == 0.0
  }

  /** The batteries from number k on, and the weightless ones. */
  function Rest(n: seq<Id>, p: map<Id, Slot>, k: nat): set<Id>
    requires |n| == 7 && k <= 7
  {
    Tail(n, k) + (p.Keys - Tail(n, 0))
  }

  ghost predicate IdleAtZero(n: seq<Id>, p: map<Id, Slot>, f: map<Id, real>)
    requires |n| == 7 && p.Keys <= f.Keys
  {
    forall id :: id in p && id !in Tail(n, 0) ==> f[id] == 0.0
  }

  ghost predicate After(n: seq<Id>, p: map<Id, Slot>, f: Fill, k: nat)
    requires Fleet(n, p) && k < 7
  {
    && f.targets.Keys == p.Keys
    && f.remaining == Left(k)
    && f.active == Rest(n, p, k)
    && (forall i :: 0 <= i < 7 ==> f.targets[n[i]] == TargetAfter(k, i))
    && IdleAtZero(n, p, f.targets)
  }

  lemma Peel(n: seq<Id>, p: map<Id, Slot>, k: nat, f: map<Id, real>)
    requires Fleet(n, p) && k < 7 && f.Keys == p.Keys
    ensures n[k] in f && Rest(n, p, k) <= f.Keys && Rest(n, p, k + 1) <= f.Keys
    ensures Sum(Rest(n, p, k), f) == f[n[k]] + Sum(Rest(n, p, k + 1), f)
  {
    hide SlotOf, Sum;
    SumPick(Rest(n, p, k), f, n[k]);
    assert Tail(n, k) - {n[k]} == Tail(n, k + 1);
    assert Rest(n, p, k) - {n[k]} == Rest(n, p, k + 1);
  }

  lemma SumOfSeven(n: seq<Id>, p: map<Id, Slot>, f: map<Id, real>)
    requires Fleet(n, p) && f.Keys == p.Keys && IdleAtZero(n, p, f)
    ensures Rest(n, p, 0) == f.Keys
    ensures Sum(f.Keys, f) == f[n[0]] + f[n[1]] + f[n[2]] + f[n[3]] + f[n[4]] + f[n[5]] + f[n[6]]
  {
    hide Sum, SlotOf, Rest;
    Peel(n, p, 0, f);
    Peel(n, p, 1, f);
    Peel(n, p, 2, f);
    Peel(n, p, 3, f);
    Peel(n, p, 4, f);
    Peel(n, p, 5, f);
    Peel(n, p, 6, f);
    NobodyLeft(n, p, f);
  }

  lemma NobodyLeft(n: seq<Id>, p: map<Id, Slot>, f: map<Id, real>)
    requires Fleet(n, p) && f.Keys == p.Keys && IdleAtZero(n, p, f)
    ensures Rest(n, p, 0) == p.Keys && Rest(n, p, 7) <= f.Keys && Sum(Rest(n, p, 7), f) == 0.0
  {
    hide SlotOf;
    assert Tail(n, 7) == {};
    SumZero(Rest(n, p, 7), f);
  }

  lemma {:induction false} WeightLeft(n: seq<Id>, p: map<Id, Slot>, k: nat)
    requires Fleet(n, p) && k <= 7
    ensures Rest(n, p, k) <= p.Keys && Sum(Rest(n, p, k), Weights(p)) == (7 - k) as real
    decreases 7 - k
  {
    hide Rest, Sum;
    if k == 7 {
      NobodyLeft(n, p, Weights(p));
    } else {
      Peel(n, p, k, Weights(p));
      WeightLeft(n, p, k + 1);
    }
  }

  /** Battery i in round k: filled exactly when i == k. */
  lemma Turn(k: nat, i: nat, eps: real)
    requires k < 6 && k <= i < 7 && 0.0 <= eps < 1.0
    ensures Share(SlotOf(i), TargetAfter(k, i), Left(k), (7 - k) as real) == TargetAfter(k + 1, i)
    ensures Clamped(SlotOf(i), TargetAfter(k, i), Left(k), (7 - k) as real, eps) <==> i == k
  {
  }

  /** A weightless battery is given nothing, and stays in. */
  lemma IdleTurn(slot: Slot, remaining: real, totalWeight: real, eps: real)
    requires slot.Ok() && slot.weight == 0.0 && totalWeight > 0.0 && eps >= 0.0
    ensures Share(slot, 0.0, remaining, totalWeight) == 0.0 && !Clamped(slot, 0.0, remaining, totalWeight, eps)
  {
    assert remaining * slot.weight / totalWeight == 0.0;
  }

  lemma NextRound(n: seq<Id>, p: map<Id, Slot>, f: Fill, k: nat, eps: real)
    requires Fleet(n, p) && k < 6 && After(n, p, f, k) && 0.0 <= eps < 1.0
    ensures After(n, p, Round(p, f, ASKED, eps, (7 - k) as real), k + 1)
  {
    hide Share, Clamped, TargetAfter, Sum, SlotOf;
    var g := Round(p, f, ASKED, eps, (7 - k) as real);
    forall i | 0 <= i < 7
      ensures g.targets[n[i]] == TargetAfter(k + 1, i)
      ensures i >= k ==> (Clamped(p[n[i]], f.targets[n[i]], Left(k), (7 - k) as real, eps) <==> i == k)
      ensures n[i] in f.active <==> i >= k
    {
      if i >= k {
        Turn(k, i, eps);
      } else {
        Filled(k, i);
      }
    }
    forall id | id in p && id !in Tail(n, 0)
      ensures g.targets[id] == 0.0
      ensures !Clamped(p[id], f.targets[id], Left(k), (7 - k) as real, eps)
    {
      IdleTurn(p[id], Left(k), (7 - k) as real, eps);
    }
    assert g.active == Rest(n, p, k + 1);
    SumOfSeven(n, p, g.targets);
    Leftover(k + 1);
  }

  lemma Filled(k: nat, i: nat)
    requires i < k < 6
    ensures TargetAfter(k, i) == TargetAfter(k + 1, i)
  {
  }

  lemma Leftover(k: nat)
    requires k < 7
    ensures ASKED - (TargetAfter(k, 0) + TargetAfter(k, 1) + TargetAfter(k, 2) + TargetAfter(k, 3)
                   + TargetAfter(k, 4) + TargetAfter(k, 5) + TargetAfter(k, 6)) == Left(k)
  {
  }

  lemma {:induction false} RoundsFrom(n: seq<Id>, p: map<Id, Slot>, f: Fill, k: nat, eps: real)
    requires Fleet(n, p) && k < 7 && After(n, p, f, k) && 0.0 <= eps < 1.0
    ensures After(n, p, Run(p, f, ASKED, eps, 6 - k), 6)
    decreases 6 - k
  {
    hide Round, Run, SlotOf, TargetAfter;
    RunStep(p, f, ASKED, eps, 6 - k);
    if k < 6 {
      WeightLeft(n, p, k);
      assert n[k] in f.active;
      var g := Round(p, f, ASKED, eps, (7 - k) as real);
      NextRound(n, p, f, k, eps);
      assert n[k] !in g.active;
      RoundsFrom(n, p, g, k + 1, eps);
    }
  }

  lemma FleetIsValid(n: seq<Id>, p: map<Id, Slot>)
    requires Fleet(n, p)
    ensures Valid(p)
  {
    forall id | id in p
      ensures p[id].Ok()
    {
      if i :| 0 <= i < 7 && n[i] == id {
        assert p[n[i]] == SlotOf(i);
      }
    }
  }

  lemma AllOfItIsReachable(n: seq<Id>, p: map<Id, Slot>)
    requires Fleet(n, p)
    ensures Reachable(p, p.Keys, ASKED) == ASKED
  {
    hide Sum, SlotOf;
    SumOfSeven(n, p, Room(p, ASKED));
    forall i | 0 <= i < 7
      ensures Room(p, ASKED)[n[i]] == Bound(i)
    {
      RoomOf(i);
    }
  }

  lemma RoomOf(i: nat)
    requires i < 7
    ensures SlotOf(i).weight > 0.0 && Edge(SlotOf(i), ASKED) == Bound(i)
  {
  }

  /** All 7000 W are reachable, 6999 W are handed out. */
  lemma FleetFallsShort(n: seq<Id>, p: map<Id, Slot>, eps: real)
    requires Fleet(n, p) && 0.0 <= eps < 1.0
    ensures Valid(p) && Reachable(p, p.Keys, ASKED) == ASKED
    ensures Sum(p.Keys, Allocate(p, p.Keys, ASKED, eps)) == ASKED - 1.0
  {
    hide Run, Sum, SlotOf, TargetAfter, Tail;
    FleetIsValid(n, p);
    AllOfItIsReachable(n, p);
    StartIsAfter(n, p);
    RoundsFrom(n, p, Start(p.Keys, ASKED), 0, eps);
    SumOfSeven(n, p, Allocate(p, p.Keys, ASKED, eps));
    Leftover(6);
  }

  lemma StartIsAfter(n: seq<Id>, p: map<Id, Slot>)
    requires Fleet(n, p)
    ensures After(n, p, Start(p.Keys, ASKED), 0)
  {
    assert Tail(n, 0) <= p.Keys;
  }

  // ------------------------------------------------------------------
  // Any number of batteries from seven on
  // ------------------------------------------------------------------

  /** A name of its own for every number. */
  function Name(i: nat): (id: Id)
    ensures |id| == i
  {
    seq(i, _ => 'b')
  }

  function Names(count: nat): (ids: set<Id>)
    ensures forall id :: id in ids <==> exists i :: 0 <= i < count && id == Name(i)
  {
    set i | 0 <= i < count :: Name(i)
  }

  lemma {:induction false} NamesDiffer(count: nat)
    ensures |Names(count)| == count
  {
    if count == 0 {
      assert Names(0) == {};
    } else {
      NamesDiffer(count - 1);
      assert Names(count) == Names(count - 1) + {Name(count - 1)};
    }
  }

  /** The seven of the fleet, and as many full batteries as it takes. */
  function FleetOf(count: nat): map<Id, Slot>
  {
    map id | id in Names(count) :: if |id| < 7 then SlotOf(|id|) else Slot(0.0, 0.0, 2500.0)
  }

  lemma FleetOfAny(count: nat) returns (n: seq<Id>)
    requires count >= 7
    ensures Fleet(n, FleetOf(count)) && |FleetOf(count).Keys| == count
  {
    hide SlotOf;
    n := seq(7, i requires 0 <= i < 7 => Name(i));
    NamesDiffer(count);
    assert FleetOf(count).Keys == Names(count);
    forall i | 0 <= i < 7
      ensures n[i] in Names(count) && FleetOf(count)[n[i]] == SlotOf(i)
    {
      assert n[i] == Name(i);
    }
    forall id | id in FleetOf(count) && id !in Tail(n, 0)
      ensures |id| >= 7
    {
      var i :| 0 <= i < count && id == Name(i);
    }
  }

  /** Every fleet of that many batteries is handed what is reachable of any
      total, within one cut-off per battery. */
  ghost predicate Conserves(count: nat, eps: real) {
    forall p, desired :: Valid(p) && |p.Keys| == count ==>
      Abs(Reachable(p, p.Keys, desired) - Sum(p.Keys, Allocate(p, p.Keys, desired, eps))) <= Times(count, eps)
  }

  /** Main result: six rounds conserve the total of every fleet of `count`
      batteries exactly when there are at most six of them. Without cut-offs
      that settles it for every number; with the 1 mW cut-off of the code, for
      every fleet whose cut-offs do not add up to the watt that is lost. */
  lemma SixRoundsSufficeIff(count: nat, eps: real)
    requires 0.0 <= eps < 1.0 && Times(count, eps) < 1.0
    ensures Conserves(count, eps) <==> count <= ROUNDS
  {
    hide Allocate, Reachable, Sum, Valid, Fleet, FleetOf;
    if count <= ROUNDS {
      forall p, desired | Valid(p) && |p.Keys| == count
        ensures Abs(Reachable(p, p.Keys, desired) - Sum(p.Keys, Allocate(p, p.Keys, desired, eps))) <= Times(count, eps)
      {
        AllocateConserves(p, p.Keys, desired, eps);
      }
    } else {
      var n := FleetOfAny(count);
      FleetFallsShort(n, FleetOf(count), eps);
    }
  }
}
