/** `enforce_circuit_safety`: a circuit over its cap by more than the margin is
    first put on standby and then, if that does not help, loses one plug relay
    per tick, worst offender first. */
module Escalation {
  import opened Prelude
  import opened Sums
  import opened Config
  import opened State
  import opened Demand

  // ------------------------------------------------------------------
  // The two timers of a circuit
  // ------------------------------------------------------------------

  datatype Tracker = Tracker(overload: Option<Time>, soft: Option<Time>)

  function TrackerOf(c: Circuit): Tracker {
    Tracker(c.overloadStartedAt, c.softRemediationStartedAt)
  }

  /** One tick of the timers. */
  function Track(tr: Tracker, overloaded: bool, now: Time): Tracker {
    if !overloaded then Tracker(None, None)
    else
      var started := tr.overload.GetOr(now);
      if now - started < EMERGENCY_CUTOFF_GRACE_S then Tracker(Some(started), tr.soft)
      else Tracker(Some(started), Some(tr.soft.GetOr(now)))
  }

  /** The overload outlasted the first grace period. */
  predicate SoftDue(tr: Tracker, now: Time) {
    tr.overload.Some? && now - tr.overload.value >= EMERGENCY_CUTOFF_GRACE_S
  }

  /** Standby was in effect for the second grace period as well. */
  predicate TripDue(tr: Tracker, now: Time) {
    SoftDue(tr, now) && tr.soft.Some? && now - tr.soft.value >= EMERGENCY_SOFT_REMEDIATION_GRACE_S
  }

  // ------------------------------------------------------------------
  // One circuit
  // ------------------------------------------------------------------

  /** The relay is closed, or assumed to be. */
  predicate RelayClosed(b: Battery) {
    b.plugRelayState.GetOr(true)
  }

  function Closed(c: Circuit, bats: Batteries): (s: set<Id>)
    ensures s <= bats.Keys
  {
    set m | m in c.memberIds && m in bats && RelayClosed(bats[m])
  }

  ghost function SignedSum(c: Circuit, bats: Batteries): real {
    Sum(Closed(c, bats), Plugs(bats))
  }

  ghost predicate Overloaded(c: Circuit, bats: Batteries, margin: real) {
    Closed(c, bats) != {} && Abs(SignedSum(c, bats)) > CapW(c.config) + margin
  }

  /** Not already cut, and pushing in direction `dir`. */
  predicate Offends(b: Battery, dir: real, now: Time) {
    && !IsCut(b, now)
    && b.lastPlugW.Some? && Signum(b.lastPlugW.value) == dir && Abs(b.lastPlugW.value) > 0.0
  }

  /** The last of the strongest offenders among the closed members. */
  function Worst(ids: seq<Id>, bats: Batteries, dir: real, now: Time): (worst: Option<Id>)
    ensures worst.Some? ==> worst.value in ids && worst.value in bats && RelayClosed(bats[worst.value])
                            && Offends(bats[worst.value], dir, now)
  {
    if ids == [] then None
    else
      var rest := Worst(ids[..|ids| - 1], bats, dir, now);
      var m := ids[|ids| - 1];
      if m in bats && RelayClosed(bats[m]) && Offends(bats[m], dir, now)
         && (rest.Some? ==> Abs(PlugOf(bats[rest.value])) <= Abs(PlugOf(bats[m]))) then Some(m)
      else rest
  }

  ghost function NextTracker(c: Circuit, bats: Batteries, margin: real, now: Time): Tracker {
    Track(TrackerOf(c), Overloaded(c, bats, margin), now)
  }

  /** Members told to stand by. */
  ghost function ToSoften(c: Circuit, bats: Batteries, margin: real, now: Time): set<Id> {
    if SoftDue(NextTracker(c, bats, margin, now), now) then
      set m | m in Closed(c, bats) && !IsCut(bats[m], now)
    else {}
  }

  /** The member whose relay is opened. */
  ghost function ToTrip(c: Circuit, bats: Batteries, margin: real, now: Time): Option<Id> {
    if TripDue(NextTracker(c, bats, margin, now), now) then
      Worst(c.memberIds, bats, Signum(SignedSum(c, bats)), now)
    else None
  }

  function WithTracker(c: Circuit, tr: Tracker): Circuit {
    c.(overloadStartedAt := tr.overload, softRemediationStartedAt := tr.soft)
  }

  function Cut(b: Battery, now: Time): Battery {
    b.(plugCutUntil := Some(now + EMERGENCY_CUTOFF_RECOVERY_S), plugRelayState := Some(false))
  }

  // ------------------------------------------------------------------
  // All circuits
  // ------------------------------------------------------------------

  ghost function TrackAll(circuits: Circuits, bats: Batteries, margin: real, now: Time): (next: Circuits)
    ensures next.Keys == circuits.Keys
  {
    map c | c in circuits :: WithTracker(circuits[c], NextTracker(circuits[c], bats, margin, now))
  }

  /** Everyone tripped on the circuits in `visited`. */
  ghost function TrippedOn(circuits: Circuits, bats: Batteries, margin: real, now: Time, visited: set<Id>): set<Id>
    requires visited <= circuits.Keys
  {
    set c | c in visited && ToTrip(circuits[c], bats, margin, now).Some? :: ToTrip(circuits[c], bats, margin, now).value
  }

  ghost function SoftenedOn(circuits: Circuits, bats: Batteries, margin: real, now: Time, visited: set<Id>): set<Id>
    requires visited <= circuits.Keys
  {
    set c, id | c in visited && id in ToSoften(circuits[c], bats, margin, now) :: id
  }

  function CutAll(bats: Batteries, tripped: set<Id>, now: Time): (next: Batteries)
    ensures next.Keys == bats.Keys
  {
    map id | id in bats :: if id in tripped then Cut(bats[id], now) else bats[id]
  }

  /** Cut, and the cut has run out. */
  function Recovered(bats: Batteries, now: Time): set<Id> {
    set id | id in bats && bats[id].plugCutUntil.Some? && bats[id].plugCutUntil.value <= now
  }

  // ------------------------------------------------------------------
  // The loops of the source
  // ------------------------------------------------------------------

  method ClosedSum(c: Circuit, bats: Batteries) returns (members: set<Id>, total: real)
    requires Distinct(c.memberIds)
    ensures members == Closed(c, bats) && total == SignedSum(c, bats)
  {
    members := set m | m in c.memberIds && m in bats && RelayClosed(bats[m]);
    total := Total(members, Plugs(bats));
  }

  method FindWorst(c: Circuit, bats: Batteries, dir: real, now: Time) returns (worst: Option<Id>)
    ensures worst == Worst(c.memberIds, bats, dir, now)
  {
    worst := None;
    var ids := c.memberIds;
    for k := 0 to |ids|
      invariant worst == Worst(ids[..k], bats, dir, now)
    {
      assert ids[..k + 1][..k] == ids[..k];
      var m := ids[k];
      if m in bats && RelayClosed(bats[m]) && Offends(bats[m], dir, now)
         && (worst.Some? ==> Abs(PlugOf(bats[worst.value])) <= Abs(PlugOf(bats[m]))) {
        worst := Some(m);
      }
    }
    assert ids[..|ids|] == ids;
  }

  /** The body of the loop over circuits. */
  method CheckCircuit(c: Circuit, bats: Batteries, margin: real, now: Time)
    returns (next: Circuit, soften: set<Id>, trip: Option<Id>)
    requires Distinct(c.memberIds)
    ensures next == WithTracker(c, NextTracker(c, bats, margin, now))
    ensures soften == ToSoften(c, bats, margin, now)
    ensures trip == ToTrip(c, bats, margin, now)
  {
    hide CapW, Sum, Worst, RelayClosed;
    soften, trip := {}, None;
    var members, signedSum := ClosedSum(c, bats);
    next := c.(overloadStartedAt := None, softRemediationStartedAt := None);
    if members == {} {
      return;
    }
    if !(Abs(signedSum) > CapW(c.config) + margin) {
      return;
    }
    var started := c.overloadStartedAt.GetOr(now);
    next := c.(overloadStartedAt := Some(started));
    var overFor := now - started;
    if overFor < EMERGENCY_CUTOFF_GRACE_S {
      return;
    }
    var softStarted := c.softRemediationStartedAt.GetOr(now);
    next := next.(softRemediationStartedAt := Some(softStarted));
    soften := set m | m in members && !IsCut(bats[m], now);
    if now - softStarted >= EMERGENCY_SOFT_REMEDIATION_GRACE_S {
      trip := FindWorst(c, bats, Signum(signedSum), now);
    }
  }

  method CheckAllCircuits(circuits: Circuits, bats: Batteries, margin: real, now: Time)
    returns (next: Circuits, soften: set<Id>, trips: set<Id>)
    requires forall c :: c in circuits ==> Distinct(circuits[c].memberIds)
    ensures next == TrackAll(circuits, bats, margin, now)
    ensures soften == SoftenedOn(circuits, bats, margin, now, circuits.Keys)
    ensures trips == TrippedOn(circuits, bats, margin, now, circuits.Keys)
  {
    hide ToTrip, ToSoften, NextTracker, WithTracker;
    next, soften, trips := circuits, {}, {};
    var todo := circuits.Keys;
    assert circuits.Keys - todo == {};
    while todo != {}
      invariant todo <= circuits.Keys == next.Keys
      invariant forall c :: c in circuits ==>
        next[c] == if c in todo then circuits[c]
                   else WithTracker(circuits[c], NextTracker(circuits[c], bats, margin, now))
      invariant trips == TrippedOn(circuits, bats, margin, now, circuits.Keys - todo)
      invariant soften == SoftenedOn(circuits, bats, margin, now, circuits.Keys - todo)
      decreases todo
    {
      var c :| c in todo;
      var checked, quiet, trip := CheckCircuit(circuits[c], bats, margin, now);
      next := next[c := checked];
      soften := soften + quiet;
      if trip.Some? {
        trips := trips + {trip.value};
      }
      assert circuits.Keys - (todo - {c}) == (circuits.Keys - todo) + {c};
      todo := todo - {c};
    }
    assert circuits.Keys - todo == circuits.Keys;
  }

  /** `enforce_circuit_safety`: check every circuit, stamp the trips, and report
      who is put on standby, who is tripped, and whose cut has expired. */
  method EnforceCircuitSafety(state: AppState, cfg: DispatcherConfig, now: Time)
    returns (soften: set<Id>, trips: set<Id>, reenable: set<Id>)
    requires WellFormed(state.batteries, state.circuits)
    modifies state`batteries, state`circuits
    ensures cfg.emergencyCutoffMarginW <= 0.0 ==>
      && state.batteries == old(state.batteries) && state.circuits == old(state.circuits)
      && soften == trips == reenable == {}
    ensures var bats, circuits, margin := old(state.batteries), old(state.circuits), cfg.emergencyCutoffMarginW;
            margin > 0.0 ==>
              && state.circuits == TrackAll(circuits, bats, margin, now)
              && trips == TrippedOn(circuits, bats, margin, now, circuits.Keys)
              && state.batteries == CutAll(bats, trips, now)
              && soften == SoftenedOn(circuits, bats, margin, now, circuits.Keys)
              && reenable == Recovered(bats, now)
  {
    hide ToTrip, ToSoften, NextTracker, TrackAll, TrippedOn, SoftenedOn, Homed;
    soften, trips, reenable := {}, {}, {};
    var bats, margin := state.batteries, cfg.emergencyCutoffMarginW;
    if margin > 0.0 {
      var circuits;
      circuits, soften, trips := CheckAllCircuits(state.circuits, bats, margin, now);
      state.circuits := circuits;
      reenable := Recovered(bats, now);
      state.batteries := CutAll(bats, trips, now);
    }
  }
}
