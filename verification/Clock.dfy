/** The settling results fix one reading of the clock. This is no restriction:
    ticks at different times compute the same as long as no deadline passes. */
module Clock {
  import opened Prelude
  import opened Sums
  import opened Config
  import opened State
  import opened WaterFill
  import opened Demand
  import opened Targets
  import opened ClosedLoop
  import opened Settling

  predicate SameSide(deadline: Option<Time>, a: Time, b: Time) {
    Pending(deadline, a) == Pending(deadline, b)
  }

  predicate SameLocks(x: Battery, a: Time, b: Time) {
    && SameSide(x.chargeLockedUntil, a, b) && SameSide(x.dischargeLockedUntil, a, b)
    && SameSide(x.plugCutUntil, a, b)
  }

  /** No lockout, no silence and no cut begins or ends between the two instants. */
  ghost predicate NoDeadline(bats: Batteries, circuits: Circuits, a: Time, b: Time) {
    && (forall id :: id in bats ==> SameLocks(bats[id], a, b))
    && forall c :: c in circuits ==> SameSide(circuits[c].silentUntil, a, b)
  }

  lemma SameBattery(x: Battery, cfg: DispatcherConfig, a: Time, b: Time, charging: bool)
    requires SameLocks(x, a, b)
    ensures LowBound(x, cfg, a) == LowBound(x, cfg, b) && HighBound(x, cfg, a) == HighBound(x, cfg, b)
    ensures SlotOf(x, cfg, a, charging) == SlotOf(x, cfg, b, charging)
    ensures forall dir :: CanDrive(x, dir, cfg, a) == CanDrive(x, dir, cfg, b)
  {
  }

  lemma {:induction false} SamePrimary(ids: seq<Id>, bats: Batteries, t: map<Id, real>, dir: real,
                                       cfg: DispatcherConfig,
                                       a: Time, b: Time)
    requires forall m :: m in ids ==> m in bats && m in t && SameLocks(bats[m], a, b)
    ensures Primary(ids, bats, t, dir, cfg, a) == Primary(ids, bats, t, dir, cfg, b)
  {
    hide CanDrive, SameLocks;
    if ids != [] {
      SamePrimary(ids[..|ids| - 1], bats, t, dir, cfg, a, b);
      SameBattery(bats[ids[|ids| - 1]], cfg, a, b, false);
    }
  }

  lemma SameConsolidation(c: Circuit, bats: Batteries, t: map<Id, real>, cfg: DispatcherConfig, a: Time, b: Time,
                          id: Id)
    requires Members(c) <= bats.Keys && Members(c) <= t.Keys && id in t && id in bats
    requires forall m :: m in bats ==> SameLocks(bats[m], a, b)
    ensures ConsolidatedTarget(c, bats, t, cfg, a, id) == ConsolidatedTarget(c, bats, t, cfg, b, id)
  {
    hide LowBound, HighBound, Primary, CanDrive, Sum, SameLocks;
    SamePrimary(c.memberIds, bats, t, Signum(Sum(Members(c), t)), cfg, a, b);
    SameBattery(bats[id], cfg, a, b, false);
  }

  lemma SameWanted(bats: Batteries, circuits: Circuits, cfg: DispatcherConfig, a: Time, b: Time, desired: real,
                   eps: real)
    requires WellFormed(bats, circuits) && NoDeadline(bats, circuits, a, b)
    ensures Eligible(bats, circuits, a) == Eligible(bats, circuits, b)
    ensures Wanted(bats, circuits, cfg, a, desired, eps) == Wanted(bats, circuits, cfg, b, desired, eps)
  {
    hide Allocate, SlotOf, ConsolidatedTarget, Homed, SameLocks;
    forall id | id in bats
      ensures SlotOf(bats[id], cfg, a, desired < 0.0) == SlotOf(bats[id], cfg, b, desired < 0.0)
      ensures Muted(circuits, bats[id].circuit, a) == Muted(circuits, bats[id].circuit, b)
    {
      SameBattery(bats[id], cfg, a, b, desired < 0.0);
    }
    assert Eligible(bats, circuits, a) == Eligible(bats, circuits, b);
    assert Slots(bats, cfg, a, desired < 0.0) == Slots(bats, cfg, b, desired < 0.0);
    var t := Shares(bats, circuits, cfg, a, desired, eps);
    assert t == Shares(bats, circuits, cfg, b, desired, eps);
    forall id | id in bats
      ensures Wanted(bats, circuits, cfg, a, desired, eps)[id] == Wanted(bats, circuits, cfg, b, desired, eps)[id]
    {
      HomeOf(bats, circuits, id);
      SameConsolidation(circuits[bats[id].circuit], bats, t, cfg, a, b, id);
    }
  }

  lemma SameTick(bats: Batteries, circuits: Circuits, cfg: DispatcherConfig, a: Time, b: Time, load: real, eps: real)
    requires WellFormed(bats, circuits) && NoDeadline(bats, circuits, a, b)
    ensures Tick(bats, circuits, cfg, a, load, eps) == Tick(bats, circuits, cfg, b, load, eps)
    ensures GridReading(bats, circuits, a, load) == GridReading(bats, circuits, b, load)
  {
    hide Wanted, WellFormed, Eligible, DesiredTotal, RateLimited, Capped, Sum, SameLocks;
    SameWanted(bats, circuits, cfg, a, b, DesiredTotal(bats, Eligible(bats, circuits, a),
                                                       GridReading(bats, circuits, a, load)), eps);
    SameWanted(bats, circuits, cfg, a, b, 0.0, eps);
    SameEars(bats, circuits, a, b);
  }

  lemma SameEars(bats: Batteries, circuits: Circuits, a: Time, b: Time)
    requires NoDeadline(bats, circuits, a, b) && Eligible(bats, circuits, a) == Eligible(bats, circuits, b)
    ensures Heard(bats, circuits, a) == Heard(bats, circuits, b)
    ensures forall id :: id in bats ==> LeftAlone(bats[id], a) == LeftAlone(bats[id], b)
  {
    hide Eligible;
    forall id | id in bats
      ensures IsCut(bats[id], a) == IsCut(bats[id], b)
    {
      assert SameLocks(bats[id], a, b);
    }
  }

  /** One tick at each of the given times. */
  ghost function AfterAt(bats: Batteries, circuits: Circuits, cfg: DispatcherConfig, times: seq<Time>, load: real,
                         eps: real): (later: Batteries)
    requires WellFormed(bats, circuits)
    ensures WellFormed(later, circuits)
    decreases |times|
  {
    if times == [] then bats
    else
      var n := |times| - 1;
      var before := AfterAt(bats, circuits, cfg, times[..n], load, eps);
      TickKeepsStructure(before, circuits, cfg, times[n], load, eps);
      Tick(before, circuits, cfg, times[n], load, eps)
  }

  /** Main result: a run of ticks at any times computes what the same number of
      ticks at `now` does, unless a deadline passes. */
  lemma {:induction false} ClockDoesNotMatter(bats: Batteries, circuits: Circuits, cfg: DispatcherConfig, now: Time,
                                              times: seq<Time>, load: real, eps: real)
    requires WellFormed(bats, circuits)
    requires forall i :: 0 <= i < |times| ==> NoDeadline(bats, circuits, now, times[i])
    ensures AfterAt(bats, circuits, cfg, times, load, eps) == After(bats, circuits, cfg, now, load, eps, |times|)
    ensures SameButReadings(AfterAt(bats, circuits, cfg, times, load, eps), bats)
    decreases |times|
  {
    hide Tick, WellFormed, NoDeadline, OnlyReadingDiffers;
    if times == [] {
      SameAsItself(bats);
    } else {
      var n := |times| - 1;
      ClockDoesNotMatter(bats, circuits, cfg, now, times[..n], load, eps);
      var before := AfterAt(bats, circuits, cfg, times[..n], load, eps);
      ReadingsKeepDeadlines(before, bats, circuits, now, times[n]);
      SameTick(before, circuits, cfg, now, times[n], load, eps);
      TickKeepsStructure(before, circuits, cfg, now, load, eps);
      SameButReadingsTrans(Tick(before, circuits, cfg, now, load, eps), before, bats);
    }
  }

  lemma ReadingsKeepDeadlines(x: Batteries, y: Batteries, circuits: Circuits, a: Time, b: Time)
    requires SameButReadings(x, y) && NoDeadline(y, circuits, a, b)
    ensures NoDeadline(x, circuits, a, b)
  {
    forall id | id in x
      ensures SameLocks(x[id], a, b)
    {
      assert OnlyReadingDiffers(x[id], y[id]);
    }
  }
}
