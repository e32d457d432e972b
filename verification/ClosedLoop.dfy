/** The dispatcher in its loop: the house draws a constant load, the batteries
    that a command reaches land on the targets of each tick, and the grid meter
    reads the rest. */
module ClosedLoop {
  import opened Prelude
  import opened Sums
  import opened Config
  import opened State
  import opened WaterFill
  import opened WaterFillLaws
  import opened Demand
  import opened Targets
  import opened TargetLaws

  // ------------------------------------------------------------------
  // The plant
  // ------------------------------------------------------------------

  /** Who takes part and is told what to do: a battery with a writer, not cut.
      The others get a share of the total all the same. */
  function Heard(bats: Batteries, circuits: Circuits, now: Time): (heard: set<Id>)
    ensures heard <= Eligible(bats, circuits, now)
  {
    set id | id in Eligible(bats, circuits, now) && bats[id].hasWriter && !IsCut(bats[id], now)
  }

  function Unheard(bats: Batteries, circuits: Circuits, now: Time): (unheard: set<Id>)
    ensures unheard <= Eligible(bats, circuits, now) <= bats.Keys
  {
    Eligible(bats, circuits, now) - Heard(bats, circuits, now)
  }

  /** What a battery delivers that nobody tells anything: nothing through an
      open relay, otherwise what it did before. */
  function LeftAlone(b: Battery, now: Time): real {
    if IsCut(b, now) then 0.0 else PlugOf(b)
  }

  /** What every battery delivers when the targets are `t`. */
  function Delivered(bats: Batteries, circuits: Circuits, now: Time, t: map<Id, real>): (d: map<Id, real>)
    requires bats.Keys <= t.Keys
    ensures d.Keys == bats.Keys
  {
    map id | id in bats :: if id in Heard(bats, circuits, now) then t[id] else LeftAlone(bats[id], now)
  }

  /** Every eligible plug reads what its battery delivers; nothing else changes. */
  function Landed(bats: Batteries, circuits: Circuits, now: Time, t: map<Id, real>): (landed: Batteries)
    requires bats.Keys <= t.Keys
    ensures landed.Keys == bats.Keys
  {
    map id | id in bats ::
      if id in Eligible(bats, circuits, now) then
        bats[id].(lastPlugW := Some(Delivered(bats, circuits, now, t)[id]))
      else bats[id]
  }

  ghost function FleetTotal(bats: Batteries, circuits: Circuits, now: Time): real {
    Sum(Eligible(bats, circuits, now), Plugs(bats))
  }

  ghost function GridReading(bats: Batteries, circuits: Circuits, now: Time, load: real): real {
    load - FleetTotal(bats, circuits, now)
  }

  /** The total asked for by the tick that starts from `bats`. */
  ghost function Asked(bats: Batteries, circuits: Circuits, now: Time, load: real): real {
    DesiredTotal(bats, Eligible(bats, circuits, now), GridReading(bats, circuits, now, load))
  }

  ghost function Tick(bats: Batteries, circuits: Circuits, cfg: DispatcherConfig, now: Time, load: real, eps: real):
      (next: Batteries)
    requires WellFormed(bats, circuits)
    ensures next.Keys == bats.Keys
  {
    Landed(bats, circuits, now, TargetsFor(bats, circuits, cfg, GridReading(bats, circuits, now, load), now, eps))
  }

  // ------------------------------------------------------------------
  // What a tick leaves alone
  // ------------------------------------------------------------------

  /** The two states differ only in plug readings of batteries that have one. */
  ghost predicate SameButReadings(a: Batteries, b: Batteries) {
    && a.Keys == b.Keys
    && forall id :: id in a ==> OnlyReadingDiffers(a[id], b[id])
  }

  predicate OnlyReadingDiffers(a: Battery, b: Battery) {
    a.lastPlugW.Some? == b.lastPlugW.Some? && a == b.(lastPlugW := a.lastPlugW)
  }

  lemma LandedSameButReadings(bats: Batteries, circuits: Circuits, now: Time, t: map<Id, real>)
    requires bats.Keys <= t.Keys
    ensures SameButReadings(Landed(bats, circuits, now, t), bats)
  {
  }

  lemma ReadingsKeepStructure(a: Batteries, b: Batteries, circuits: Circuits, cfg: DispatcherConfig, now: Time,
                              charging: bool)
    requires SameButReadings(a, b)
    ensures WellFormed(b, circuits) ==> WellFormed(a, circuits)
    ensures Eligible(a, circuits, now) == Eligible(b, circuits, now)
    ensures Heard(a, circuits, now) == Heard(b, circuits, now)
    ensures Slots(a, cfg, now, charging) == Slots(b, cfg, now, charging)
  {
    hide CapW, LimitsOk, WeightOf, LowBound, HighBound, OnlyReadingDiffers, CanDrive;
    forall id | id in a
      ensures Muted(circuits, a[id].circuit, now) == Muted(circuits, b[id].circuit, now)
      ensures a[id].lastPlugW.Some? == b[id].lastPlugW.Some?
      ensures a[id].hasWriter == b[id].hasWriter && IsCut(a[id], now) == IsCut(b[id], now)
      ensures SlotOf(a[id], cfg, now, charging) == SlotOf(b[id], cfg, now, charging)
      ensures Homed(id, b[id], circuits) ==> Homed(id, a[id], circuits)
    {
      OneReading(a[id], b[id], cfg, now, charging);
    }
  }

  lemma OneReading(a: Battery, b: Battery, cfg: DispatcherConfig, now: Time, charging: bool)
    requires OnlyReadingDiffers(a, b)
    ensures a.circuit == b.circuit && a.priorityWeight == b.priorityWeight
    ensures Max(a.maxChargeW, a.maxDischargeW) == Max(b.maxChargeW, b.maxDischargeW)
    ensures forall dir :: CanDrive(a, dir, cfg, now) == CanDrive(b, dir, cfg, now)
    ensures WeightOf(a, cfg, now, charging) == WeightOf(b, cfg, now, charging)
    ensures LowBound(a, cfg, now) == LowBound(b, cfg, now) && HighBound(a, cfg, now) == HighBound(b, cfg, now)
    ensures LimitsOk(a) == LimitsOk(b) && a.lastPlugW.Some? == b.lastPlugW.Some?
    ensures a.hasWriter == b.hasWriter && IsCut(a, now) == IsCut(b, now)
  {
  }

  lemma {:induction false} ReadingsKeepPrimary(ids: seq<Id>, a: Batteries, b: Batteries, t: map<Id, real>, dir: real,
                                               cfg: DispatcherConfig, now: Time)
    requires SameButReadings(a, b) && forall m :: m in ids ==> m in a && m in t
    ensures Primary(ids, a, t, dir, cfg, now) == Primary(ids, b, t, dir, cfg, now)
  {
    hide CanDrive, OnlyReadingDiffers;
    if ids != [] {
      var m := ids[|ids| - 1];
      ReadingsKeepPrimary(ids[..|ids| - 1], a, b, t, dir, cfg, now);
      OneReading(a[m], b[m], cfg, now, false);
      var rest := Primary(ids[..|ids| - 1], b, t, dir, cfg, now);
      if rest.Some? {
        OneReading(a[rest.value], b[rest.value], cfg, now, false);
      }
    }
  }

  lemma ReadingsKeepConsolidation(c: Circuit, a: Batteries, b: Batteries, t: map<Id, real>, cfg: DispatcherConfig,
                                  now: Time, id: Id)
    requires SameButReadings(a, b) && Members(c) <= a.Keys == t.Keys && id in a
    ensures ConsolidatedTarget(c, a, t, cfg, now, id) == ConsolidatedTarget(c, b, t, cfg, now, id)
  {
    hide LowBound, HighBound, Primary, Sum, OnlyReadingDiffers;
    ReadingsKeepPrimary(c.memberIds, a, b, t, Signum(Sum(Members(c), t)), cfg, now);
    OneReading(a[id], b[id], cfg, now, false);
  }

  lemma ReadingsKeepShares(a: Batteries, b: Batteries, circuits: Circuits, cfg: DispatcherConfig, now: Time,
                           desired: real, eps: real)
    requires SameButReadings(a, b)
    ensures Shares(a, circuits, cfg, now, desired, eps) == Shares(b, circuits, cfg, now, desired, eps)
  {
    hide Allocate, Slots, Eligible;
    ReadingsKeepStructure(a, b, circuits, cfg, now, desired < 0.0);
  }

  lemma ReadingsKeepConsolidated(a: Batteries, b: Batteries, circuits: Circuits, cfg: DispatcherConfig, now: Time,
                                 t: map<Id, real>)
    requires SameButReadings(a, b) && WellFormed(a, circuits) && WellFormed(b, circuits) && t.Keys == a.Keys
    ensures Consolidated(a, circuits, t, cfg, now, circuits.Keys)
         == Consolidated(b, circuits, t, cfg, now, circuits.Keys)
  {
    hide ConsolidatedTarget, Homed, OnlyReadingDiffers;
    forall id | id in a
      ensures a[id].circuit == b[id].circuit
      ensures Consolidated(a, circuits, t, cfg, now, circuits.Keys)[id]
           == Consolidated(b, circuits, t, cfg, now, circuits.Keys)[id]
    {
      HomeOf(b, circuits, id);
      OneReading(a[id], b[id], cfg, now, false);
      ReadingsKeepConsolidation(circuits[b[id].circuit], a, b, t, cfg, now, id);
    }
  }

  /** The wanted powers depend on the desired total, not on the readings. */
  lemma ReadingsKeepWanted(a: Batteries, b: Batteries, circuits: Circuits, cfg: DispatcherConfig, now: Time,
                           desired: real, eps: real)
    requires SameButReadings(a, b) && WellFormed(b, circuits)
    ensures WellFormed(a, circuits)
    ensures Wanted(a, circuits, cfg, now, desired, eps) == Wanted(b, circuits, cfg, now, desired, eps)
  {
    hide Shares, Consolidated, WellFormed, SameButReadings, Eligible, Slots;
    ReadingsKeepStructure(a, b, circuits, cfg, now, desired < 0.0);
    ReadingsKeepShares(a, b, circuits, cfg, now, desired, eps);
    ReadingsKeepConsolidated(a, b, circuits, cfg, now, Shares(b, circuits, cfg, now, desired, eps));
  }

  // ------------------------------------------------------------------
  // Where the total goes
  // ------------------------------------------------------------------

  lemma HomeOf(bats: Batteries, circuits: Circuits, id: Id)
    requires WellFormed(bats, circuits) && id in bats
    ensures bats[id].circuit in circuits && id in circuits[bats[id].circuit].memberIds
  {
    assert Homed(id, bats[id], circuits);
  }

  /** Consolidation keeps every circuit total, hence the fleet total. */
  lemma {:induction false} CircuitTotalsAddUp(bats: Batteries, circuits: Circuits, visited: set<Id>, f: map<Id, real>,
                                              g: map<Id, real>)
    requires WellFormed(bats, circuits) && visited <= circuits.Keys && f.Keys == g.Keys == bats.Keys
    requires forall c :: c in visited ==> Sum(Members(circuits[c]), f) == Sum(Members(circuits[c]), g)
    ensures var on := set id | id in bats && bats[id].circuit in visited;
            Sum(on, f) == Sum(on, g)
    decreases visited
  {
    hide Homed, Sum;
    var on := set id | id in bats && bats[id].circuit in visited;
    if visited == {} {
      SumZero(on, f);
      SumZero(on, g);
    } else {
      var c :| c in visited;
      CircuitTotalsAddUp(bats, circuits, visited - {c}, f, g);
      var rest := set id | id in bats && bats[id].circuit in visited - {c};
      SumSplit(on, Members(circuits[c]), f);
      SumSplit(on, Members(circuits[c]), g);
      forall id | id in bats && bats[id].circuit == c
        ensures id in circuits[c].memberIds
      {
        HomeOf(bats, circuits, id);
      }
      assert on - Members(circuits[c]) == rest;
    }
  }

  /** A battery that does not take part is asked for 0 W at every stage. */
  lemma BystandersRest(bats: Batteries, circuits: Circuits, cfg: DispatcherConfig, now: Time, desired: real, eps: real,
                       id: Id)
    requires WellFormed(bats, circuits) && id in bats && id !in Eligible(bats, circuits, now)
    ensures Wanted(bats, circuits, cfg, now, desired, eps)[id] == 0.0
  {
    hide Allocate, LowBound, HighBound, Primary, Homed, Sum;
    HomeOf(bats, circuits, id);
    var c := circuits[bats[id].circuit];
    var t := Shares(bats, circuits, cfg, now, desired, eps);
    if Muted(circuits, bats[id].circuit, now) {
      SumZero(Members(c), t);
    }
  }

  /** Every circuit's primary, if any, has room for what it concentrates. */
  ghost predicate ConsolidationHasRoom(bats: Batteries, circuits: Circuits, cfg: DispatcherConfig, now: Time,
                                       desired: real, eps: real)
    requires WellFormed(bats, circuits)
  {
    forall c :: c in circuits ==>
      RoomForAll(circuits[c], bats, Shares(bats, circuits, cfg, now, desired, eps), cfg, now)
  }

  lemma WantedKeepsTotal(bats: Batteries, circuits: Circuits, cfg: DispatcherConfig, now: Time, desired: real,
                         eps: real)
    requires WellFormed(bats, circuits) && ConsolidationHasRoom(bats, circuits, cfg, now, desired, eps)
    ensures var eligible := Eligible(bats, circuits, now);
            Sum(eligible, Wanted(bats, circuits, cfg, now, desired, eps))
              == Sum(eligible, Shares(bats, circuits, cfg, now, desired, eps))
  {
    hide Allocate, LowBound, HighBound, ConsolidatedTarget, Homed, RoomForAll, Eligible, Sum, LimitsOk;
    var eligible := Eligible(bats, circuits, now);
    var t, u := Shares(bats, circuits, cfg, now, desired, eps), Wanted(bats, circuits, cfg, now, desired, eps);
    LimitsOfWellFormed(bats, circuits);
    forall c | c in circuits
      ensures Sum(Members(circuits[c]), u) == Sum(Members(circuits[c]), t)
    {
      ConsolidationKeepsCircuitTotal(circuits[c], bats, t, u, cfg, now);
    }
    CircuitTotalsAddUp(bats, circuits, circuits.Keys, u, t);
    forall id | id in bats
      ensures bats[id].circuit in circuits
      ensures id !in eligible ==> u[id] == 0.0
    {
      HomeOf(bats, circuits, id);
      if id !in eligible {
        BystandersRest(bats, circuits, cfg, now, desired, eps, id);
      }
    }
    assert (set id | id in bats && bats[id].circuit in circuits.Keys) == bats.Keys;
    SumSplit(bats.Keys, eligible, u);
    SumSplit(bats.Keys, eligible, t);
    SumZero(bats.Keys - eligible, u);
    SumZero(bats.Keys - eligible, t);
  }

  // ------------------------------------------------------------------
  // A tick that nothing holds back
  // ------------------------------------------------------------------

  /** No ramp: everything wanted of `s` is one step away. */
  ghost predicate RampIdle(bats: Batteries, s: set<Id>, wanted: map<Id, real>, rate: real) {
    forall id :: id in s && id in bats && id in wanted ==> Abs(wanted[id] - PlugOf(bats[id])) <= rate
  }

  /** No circuit reads or is to deliver more than its cap. */
  ghost predicate FusesIdle(bats: Batteries, circuits: Circuits, t: map<Id, real>)
    requires WellFormed(bats, circuits) && t.Keys == bats.Keys
  {
    forall c :: c in circuits ==> WorstCase(circuits[c], bats, t) <= CapW(circuits[c].config)
  }

  /** At most six batteries take part, and what is asked is in their reach. */
  ghost predicate InReach(bats: Batteries, circuits: Circuits, cfg: DispatcherConfig, now: Time, asked: real) {
    var eligible := Eligible(bats, circuits, now);
    0 < |eligible| <= ROUNDS && Reachable(Slots(bats, cfg, now, asked < 0.0), eligible, asked) == asked
  }

  /** The total asked for is within reach, and neither consolidation bounds nor
      fuses nor the ramp of a heard battery stand in its way: all read off
      before the tick. */
  ghost predicate Unimpeded(bats: Batteries, circuits: Circuits, cfg: DispatcherConfig, now: Time, load: real,
                            eps: real)
    requires WellFormed(bats, circuits)
  {
    var asked := Asked(bats, circuits, now, load);
    var wanted := Wanted(bats, circuits, cfg, now, asked, eps);
    && InReach(bats, circuits, cfg, now, asked)
    && ConsolidationHasRoom(bats, circuits, cfg, now, asked, eps)
    && RampIdle(bats, Heard(bats, circuits, now), wanted, RateLimit(cfg))
    && FusesIdle(bats, circuits, RateLimited(bats, Eligible(bats, circuits, now), wanted, RateLimit(cfg)))
  }

  /** Whoever is not told deserves it: it delivers what is wanted of it anyway. */
  ghost predicate NobodyMissed(bats: Batteries, circuits: Circuits, now: Time, wanted: map<Id, real>) {
    forall id :: id in Unheard(bats, circuits, now) && id in wanted ==> wanted[id] == LeftAlone(bats[id], now)
  }

  /** Nothing at all stands in the way. */
  ghost predicate Unhindered(bats: Batteries, circuits: Circuits, cfg: DispatcherConfig, now: Time, load: real,
                             eps: real)
    requires WellFormed(bats, circuits)
  {
    && Unimpeded(bats, circuits, cfg, now, load, eps)
    && NobodyMissed(bats, circuits, now, Wanted(bats, circuits, cfg, now, Asked(bats, circuits, now, load), eps))
  }

  lemma UnimpededTargets(bats: Batteries, circuits: Circuits, cfg: DispatcherConfig, now: Time, load: real, eps: real)
    requires WellFormed(bats, circuits) && Unimpeded(bats, circuits, cfg, now, load, eps)
    ensures var t := TargetsFor(bats, circuits, cfg, GridReading(bats, circuits, now, load), now, eps);
            forall id :: id in Heard(bats, circuits, now) ==>
              t[id] == Wanted(bats, circuits, cfg, now, Asked(bats, circuits, now, load), eps)[id]
  {
    hide Wanted, Homed, WorstCase, CapW, Eligible, ConsolidationHasRoom, Reachable, Slots, DesiredTotal, RateLimit, Mul;
    var wanted := Wanted(bats, circuits, cfg, now, Asked(bats, circuits, now, load), eps);
    forall id | id in Heard(bats, circuits, now)
      ensures Limited(PlugOf(bats[id]), wanted[id], RateLimit(cfg)) == wanted[id]
      ensures bats[id].circuit in circuits
      ensures Mul(1.0, wanted[id]) == wanted[id]
    {
      HomeOf(bats, circuits, id);
      MulLaws(1.0, wanted[id]);
    }
  }

  lemma SharesTotal(bats: Batteries, circuits: Circuits, cfg: DispatcherConfig, now: Time, asked: real, eps: real)
    requires WellFormed(bats, circuits) && eps >= 0.0 && InReach(bats, circuits, cfg, now, asked)
    ensures var eligible := Eligible(bats, circuits, now);
            Abs(asked - Sum(eligible, Shares(bats, circuits, cfg, now, asked, eps))) <= Times(|eligible|, eps)
  {
    hide Allocate, SlotOf, Homed, Reachable, Sum, LimitsOk, Eligible;
    var eligible := Eligible(bats, circuits, now);
    var p := Slots(bats, cfg, now, asked < 0.0);
    LimitsOfWellFormed(bats, circuits);
    SlotsAreValid(bats, cfg, now, asked < 0.0);
    AllocateConserves(p, eligible, asked, eps);
    SumEqual(eligible, Shares(bats, circuits, cfg, now, asked, eps), Allocate(p, eligible, asked, eps));
  }

  /** What is wanted of the unheard batteries beyond what they deliver. */
  ghost function Missed(bats: Batteries, circuits: Circuits, now: Time, wanted: map<Id, real>): real
    requires bats.Keys <= wanted.Keys
  {
    var unheard := Unheard(bats, circuits, now);
    Sum(unheard, wanted) - Sum(unheard, Delivered(bats, circuits, now, wanted))
  }

  /** An unimpeded tick delivers the total it asked for, less what is missed. */
  lemma UnimpededTotal(bats: Batteries, circuits: Circuits, cfg: DispatcherConfig, now: Time, load: real, eps: real)
    requires WellFormed(bats, circuits) && eps >= 0.0 && Unimpeded(bats, circuits, cfg, now, load, eps)
    ensures var asked := Asked(bats, circuits, now, load);
            var missed := Missed(bats, circuits, now, Wanted(bats, circuits, cfg, now, asked, eps));
            Abs(asked - missed - FleetTotal(Tick(bats, circuits, cfg, now, load, eps), circuits, now))
              <= Times(|Eligible(bats, circuits, now)|, eps)
  {
    hide Shares, Wanted, WellFormed, InReach, DesiredTotal, Sum, ConsolidationHasRoom, RampIdle, FusesIdle, TargetsFor;
    hide Eligible, Landed, Delivered, Heard;
    var asked := Asked(bats, circuits, now, load);
    var t := TargetsFor(bats, circuits, cfg, GridReading(bats, circuits, now, load), now, eps);
    SharesTotal(bats, circuits, cfg, now, asked, eps);
    WantedKeepsTotal(bats, circuits, cfg, now, asked, eps);
    UnimpededTargets(bats, circuits, cfg, now, load, eps);
    LandedTotal(bats, circuits, now, t, Wanted(bats, circuits, cfg, now, asked, eps));
  }

  /** With nobody missed it delivers all of it. */
  lemma UnhinderedTotal(bats: Batteries, circuits: Circuits, cfg: DispatcherConfig, now: Time, load: real, eps: real)
    requires WellFormed(bats, circuits) && eps >= 0.0 && Unhindered(bats, circuits, cfg, now, load, eps)
    ensures Abs(Asked(bats, circuits, now, load)
                - FleetTotal(Tick(bats, circuits, cfg, now, load, eps), circuits, now))
              <= Times(|Eligible(bats, circuits, now)|, eps)
  {
    hide Wanted, WellFormed, Unimpeded, Asked, Sum, Eligible, Tick, FleetTotal;
    var wanted := Wanted(bats, circuits, cfg, now, Asked(bats, circuits, now, load), eps);
    UnimpededTotal(bats, circuits, cfg, now, load, eps);
    SumEqual(Unheard(bats, circuits, now), wanted, Delivered(bats, circuits, now, wanted));
  }

  lemma LandedKeepsEligible(bats: Batteries, circuits: Circuits, now: Time, t: map<Id, real>)
    requires bats.Keys <= t.Keys
    ensures Eligible(Landed(bats, circuits, now, t), circuits, now) == Eligible(bats, circuits, now)
  {
    hide Delivered;
  }

  /** Landing makes the fleet total what was wanted, less what is missed. */
  lemma LandedTotal(bats: Batteries, circuits: Circuits, now: Time, t: map<Id, real>, wanted: map<Id, real>)
    requires bats.Keys <= t.Keys && bats.Keys <= wanted.Keys
    requires forall id :: id in Heard(bats, circuits, now) ==> t[id] == wanted[id]
    ensures FleetTotal(Landed(bats, circuits, now, t), circuits, now)
         == Sum(Eligible(bats, circuits, now), wanted) - Missed(bats, circuits, now, wanted)
  {
    hide Sum, Heard, Eligible;
    var eligible, heard := Eligible(bats, circuits, now), Heard(bats, circuits, now);
    var landed, d := Landed(bats, circuits, now, t), Delivered(bats, circuits, now, wanted);
    LandedKeepsEligible(bats, circuits, now, t);
    SumEqual(eligible, Plugs(landed), d);
    SumSplit(eligible, heard, d);
    SumSplit(eligible, heard, wanted);
    SumEqual(heard, d, wanted);
  }
}
