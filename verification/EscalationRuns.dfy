/** The escalation over whole runs: a trip has an unbroken history behind it,
    and once trips start the overload is gone within one tick per member. */
module EscalationRuns {
  import opened Prelude
  import opened Sums
  import opened Config
  import opened State
  import opened Demand
  import opened Escalation

  // ------------------------------------------------------------------
  // History behind a trip
  // ------------------------------------------------------------------

  /** What one tick saw of a circuit. */
  datatype Seen = Seen(now: Time, overloaded: bool)

  /** The timers after a sequence of ticks, from start-up. */
  function After(obs: seq<Seen>): Tracker {
    if obs == [] then Tracker(None, None)
    else
      var last := obs[|obs| - 1];
      Track(After(obs[..|obs| - 1]), last.overloaded, last.now)
  }

  predicate Monotone(obs: seq<Seen>) {
    forall i, j :: 0 <= i < j < |obs| ==> obs[i].now <= obs[j].now
  }

  /** Every tick from number j on saw the circuit overloaded. */
  predicate OverloadedSince(obs: seq<Seen>, j: int) {
    0 <= j < |obs| && forall i :: j <= i < |obs| ==> obs[i].overloaded
  }

  /** Tick j opened the current overload. */
  predicate Opens(obs: seq<Seen>, j: int) {
    OverloadedSince(obs, j) && (j == 0 || !obs[j - 1].overloaded)
  }

  /** Tick m is the first of the overload opened by j at which the grace period is over. */
  predicate Softens(obs: seq<Seen>, j: int, m: int) {
    && 0 <= j <= m < |obs|
    && obs[m].now - obs[j].now >= EMERGENCY_CUTOFF_GRACE_S
    && forall i :: j <= i < m ==> obs[i].now - obs[j].now < EMERGENCY_CUTOFF_GRACE_S
  }

  /** The stamps are the times of two ticks of the current overload: the one
      that opened it and the first past the grace period. */
  lemma {:induction false} StampsMeanTicks(obs: seq<Seen>) returns (j: int, m: int)
    requires Monotone(obs)
    ensures After(obs).overload.None? <==> obs == [] || !obs[|obs| - 1].overloaded
    ensures After(obs).overload.None? ==> After(obs).soft.None?
    ensures After(obs).overload.Some? ==> Opens(obs, j) && After(obs).overload.value == obs[j].now
    ensures After(obs).soft.Some? ==> Softens(obs, j, m) && After(obs).soft.value == obs[m].now
    ensures After(obs).overload.Some? && After(obs).soft.None? ==>
      forall i :: j <= i < |obs| ==> obs[i].now - obs[j].now < EMERGENCY_CUTOFF_GRACE_S
    decreases |obs|
  {
    j, m := 0, 0;
    if obs != [] {
      var n := |obs| - 1;
      var before := obs[..n];
      var j0, m0 := StampsMeanTicks(before);
      if obs[n].overloaded {
        j := if After(before).overload.Some? then j0 else n;
        m := if After(before).soft.Some? then m0 else n;
      }
    }
  }

  lemma OpeningIsUnique(obs: seq<Seen>, j: int, k: int)
    requires Opens(obs, j) && OverloadedSince(obs, k)
    ensures j <= k
  {
  }

  /** The ticks that a trip needs behind it: an overload that has lasted since
      tick j, a tick m of it past the grace period, and now past the second. */
  predicate TripHistory(obs: seq<Seen>, j: int, m: int) {
    && OverloadedSince(obs, j) && j <= m < |obs|
    && obs[m].now - obs[j].now >= EMERGENCY_CUTOFF_GRACE_S
    && obs[|obs| - 1].now - obs[m].now >= EMERGENCY_SOFT_REMEDIATION_GRACE_S
  }

  /** A trip is due exactly when there is such a history. */
  lemma TripDueIffHistory(obs: seq<Seen>)
    requires Monotone(obs) && obs != []
    ensures TripDue(After(obs), obs[|obs| - 1].now) <==> exists j, m :: TripHistory(obs, j, m)
  {
    var j, m := StampsMeanTicks(obs);
    if TripDue(After(obs), obs[|obs| - 1].now) {
      assert TripHistory(obs, j, m);
    }
    if a, b :| TripHistory(obs, a, b) {
      OpeningIsUnique(obs, j, a);
      assert obs[b].now - obs[j].now >= EMERGENCY_CUTOFF_GRACE_S;
      assert After(obs).soft.Some?;
      assert m <= b;
    }
  }

  /** Standby is pushed exactly when the overload has lasted the first grace period. */
  lemma SoftDueIffHistory(obs: seq<Seen>)
    requires Monotone(obs) && obs != []
    ensures SoftDue(After(obs), obs[|obs| - 1].now)
       <==> exists j :: OverloadedSince(obs, j) && obs[|obs| - 1].now - obs[j].now >= EMERGENCY_CUTOFF_GRACE_S
  {
    var j, m := StampsMeanTicks(obs);
    if a :| OverloadedSince(obs, a) && obs[|obs| - 1].now - obs[a].now >= EMERGENCY_CUTOFF_GRACE_S {
      OpeningIsUnique(obs, j, a);
    }
  }

  /** One tick of the environment and the safety check: what the batteries look
      like is arbitrary, and so is the margin of the configuration in force. */
  datatype Input = Input(now: Time, bats: Batteries, margin: real)

  predicate Enabled(i: Input) {
    i.margin > 0.0
  }

  /** Members whose relay is not reported open. */
  function Connected(c: Circuit, bats: Batteries): set<Id> {
    set m | m in c.memberIds && m in bats && bats[m].plugRelayState != Some(false)
  }

  /** What the plugs that were read at all read last. */
  function LastReadings(bats: Batteries): map<Id, real> {
    map m | m in bats && bats[m].lastPlugW.Some? :: bats[m].lastPlugW.value
  }

  /** What flows through the fuse: discharge counts against charge. */
  ghost function FuseLoad(c: Circuit, bats: Batteries): real {
    Sum(Connected(c, bats) * LastReadings(bats).Keys, LastReadings(bats))
  }

  /** At the tick the fuse carries more than it is rated for plus the margin. */
  ghost predicate OverFuse(c: Circuit, i: Input) {
    && Connected(c, i.bats) != {}
    && Abs(FuseLoad(c, i.bats)) > c.config.fuseAmps * c.config.voltage * c.config.phases as real + i.margin
  }

  /** Whether `Sum` runs over all closed members or those that were read. */
  lemma LoadIsSignedSum(c: Circuit, bats: Batteries)
    ensures Connected(c, bats) == Closed(c, bats) && FuseLoad(c, bats) == SignedSum(c, bats)
  {
    hide Sum;
    var closed, read := Closed(c, bats), LastReadings(bats).Keys;
    assert Connected(c, bats) == closed;
    SumSplit(closed, closed * read, Plugs(bats));
    SumZero(closed - closed * read, Plugs(bats));
    SumEqual(closed * read, Plugs(bats), LastReadings(bats));
  }

  lemma OverFuseIsOverload(c: Circuit, i: Input)
    ensures OverFuse(c, i) <==> Overloaded(c, i.bats, i.margin)
  {
    hide Closed, SignedSum, Connected, FuseLoad;
    LoadIsSignedSum(c, i.bats);
  }

  ghost function NextCircuit(c: Circuit, i: Input): Circuit {
    if Enabled(i) then WithTracker(c, NextTracker(c, i.bats, i.margin, i.now)) else c
  }

  /** Whom the tick trips on the circuit. */
  ghost function Trip(c: Circuit, i: Input): Option<Id> {
    if Enabled(i) then ToTrip(c, i.bats, i.margin, i.now) else None
  }

  ghost function CircuitAfter(c: Circuit, inputs: seq<Input>): Circuit {
    if inputs == [] then c else NextCircuit(CircuitAfter(c, inputs[..|inputs| - 1]), inputs[|inputs| - 1])
  }

  /** The ticks that look at the circuit at all. */
  function Looks(inputs: seq<Input>): (seen: seq<Input>)
    ensures forall i :: 0 <= i < |seen| ==> Enabled(seen[i]) && seen[i] in inputs
    ensures (forall i :: i in inputs ==> Enabled(i)) ==> seen == inputs
  {
    if inputs == [] then []
    else
      var last := inputs[|inputs| - 1];
      Looks(inputs[..|inputs| - 1]) + if Enabled(last) then [last] else []
  }

  predicate InOrder(inputs: seq<Input>) {
    forall i, j :: 0 <= i < j < |inputs| ==> inputs[i].now <= inputs[j].now
  }

  lemma {:induction false} LooksInOrder(inputs: seq<Input>)
    requires InOrder(inputs)
    ensures InOrder(Looks(inputs))
  {
    if inputs != [] {
      LooksInOrder(inputs[..|inputs| - 1]);
    }
  }

  ghost function Observed(c: Circuit, inputs: seq<Input>): (obs: seq<Seen>)
    ensures |obs| == |inputs|
    ensures forall i :: 0 <= i < |obs| ==>
      obs[i] == Seen(inputs[i].now, OverFuse(c, inputs[i]))
  {
    seq(|inputs|, i requires 0 <= i < |inputs| => Seen(inputs[i].now, OverFuse(c, inputs[i])))
  }

  lemma ObservedSnoc(c: Circuit, seen: seq<Input>, i: Input)
    ensures After(Observed(c, seen + [i]))
         == Track(After(Observed(c, seen)), Overloaded(c, i.bats, i.margin), i.now)
  {
    hide Overloaded, OverFuse, Track;
    OverFuseIsOverload(c, i);
    var all := Observed(c, seen + [i]);
    assert all[..|seen|] == Observed(c, seen);
  }

  lemma {:induction false} TrackerFollowsObservations(c: Circuit, inputs: seq<Input>)
    requires TrackerOf(c) == Tracker(None, None)
    ensures var d := CircuitAfter(c, inputs);
            && TrackerOf(d) == After(Observed(c, Looks(inputs)))
            && d.memberIds == c.memberIds && d.config == c.config
    decreases |inputs|
  {
    hide CapW, Track, Closed, SignedSum, Overloaded;
    if inputs != [] {
      var n := |inputs| - 1;
      TrackerFollowsObservations(c, inputs[..n]);
      if Enabled(inputs[n]) {
        ObservedSnoc(c, Looks(inputs[..n]), inputs[n]);
        SameOverload(c, CircuitAfter(c, inputs[..n]), inputs[n].bats, inputs[n].margin);
      } else {
        assert Looks(inputs) == Looks(inputs[..n]);
      }
    }
  }

  lemma SameOverload(c: Circuit, d: Circuit, bats: Batteries, margin: real)
    requires d.memberIds == c.memberIds && d.config == c.config
    ensures Overloaded(c, bats, margin) == Overloaded(d, bats, margin)
    ensures Closed(c, bats) == Closed(d, bats) && SignedSum(c, bats) == SignedSum(d, bats)
  {
    hide CapW, Sum, RelayClosed;
    assert Closed(c, bats) == Closed(d, bats);
  }

  /** The member is connected and not under a pending cut, and its plug reads
      the way the fuse is loaded. */
  ghost predicate Offender(c: Circuit, bats: Batteries, now: Time, m: Id) {
    && m in Connected(c, bats) && bats[m].lastPlugW.Some?
    && (bats[m].plugCutUntil.None? || bats[m].plugCutUntil.value <= now)
    && if FuseLoad(c, bats) < 0.0 then bats[m].lastPlugW.value < 0.0 else bats[m].lastPlugW.value > 0.0
  }

  /** Someone on the circuit is worth tripping. */
  ghost predicate HasOffender(c: Circuit, bats: Batteries, now: Time) {
    exists m :: Offender(c, bats, now, m)
  }

  lemma OffenderIsOffending(c: Circuit, bats: Batteries, now: Time)
    ensures forall m :: Offender(c, bats, now, m)
                   <==> m in Closed(c, bats) && Offends(bats[m], Signum(SignedSum(c, bats)), now)
  {
    hide SignedSum, FuseLoad;
    LoadIsSignedSum(c, bats);
  }

  /** Over any run from start-up and any reconfiguration on the way a tick trips
      a relay of the circuit exactly when the check is enabled, somebody offends,
      and the ticks that had it enabled show an overload unbroken since tick j of
      them, a later one m past the first grace period of j, and now past the
      second of m. */
  lemma TripIffHistory(c: Circuit, inputs: seq<Input>, last: Input)
    requires TrackerOf(c) == Tracker(None, None) && InOrder(inputs + [last])
    ensures Trip(CircuitAfter(c, inputs), last).Some?
       <==> && Enabled(last) && HasOffender(c, last.bats, last.now)
            && exists j, m :: TripHistory(Observed(c, Looks(inputs + [last])), j, m)
  {
    hide CapW, Track, Closed, SignedSum, Worst, Overloaded, OverFuse, Looks, TripHistory, Offender, Connected;
    var all := inputs + [last];
    var before := CircuitAfter(c, inputs);
    assert all[..|inputs|] == inputs;
    TrackerFollowsObservations(c, inputs);
    TrackerFollowsObservations(c, all);
    if Enabled(last) {
      var seen := Looks(all);
      LastLook(inputs, last);
      LooksInOrder(all);
      SameOverload(c, before, last.bats, last.margin);
      TripDueIffHistory(Observed(c, seen));
      if TripDue(NextTracker(before, last.bats, last.margin, last.now), last.now) {
        TripIffOffender(before, last.bats, last.margin, last.now);
        OffenderIsOffending(c, last.bats, last.now);
      }
    }
  }

  lemma LastLook(inputs: seq<Input>, last: Input)
    requires Enabled(last)
    ensures var seen := Looks(inputs + [last]);
            seen != [] && seen[|seen| - 1] == last
  {
    assert (inputs + [last])[..|inputs|] == inputs;
  }

  /** While the check stays enabled no tick is left out: each one since the
      overload began saw the circuit over its cap plus the margin of the time,
      and it began at least both grace periods ago. */
  lemma TripNeedsUnbrokenHistory(c: Circuit, inputs: seq<Input>, last: Input)
    requires TrackerOf(c) == Tracker(None, None) && InOrder(inputs + [last])
    requires forall i :: i in inputs ==> Enabled(i)
    requires Trip(CircuitAfter(c, inputs), last).Some?
    ensures var all := inputs + [last];
            exists j :: && 0 <= j < |all|
                        && last.now - all[j].now >= EMERGENCY_CUTOFF_GRACE_S + EMERGENCY_SOFT_REMEDIATION_GRACE_S
                        && forall i :: j <= i < |all| ==> OverFuse(c, all[i])
  {
    hide OverFuse, HasOffender, Trip, CircuitAfter;
    var all := inputs + [last];
    TripIffHistory(c, inputs, last);
    assert forall i :: i in all ==> Enabled(i);
    var obs := Observed(c, all);
    var j, m :| TripHistory(obs, j, m);
    forall i | j <= i < |all|
      ensures OverFuse(c, all[i])
    {
      assert obs[i].overloaded;
    }
  }

  lemma {:induction false} OutageIsInvisible(inputs: seq<Input>, outage: seq<Input>)
    requires forall i :: 0 <= i < |outage| ==> !Enabled(outage[i])
    ensures Looks(inputs + outage) == Looks(inputs)
    decreases |outage|
  {
    if outage == [] {
      assert inputs + outage == inputs;
    } else {
      var n := |outage| - 1;
      OutageIsInvisible(inputs, outage[..n]);
      assert (inputs + outage)[..|inputs + outage| - 1] == inputs + outage[..n];
    }
  }

  /** Without that proviso it fails: switching the check off freezes the timers
      instead of clearing them. An overload is seen twice, one grace period
      apart, and the check is off from then on, however long and however calm the
      circuit is meanwhile: the first overloaded tick after that trips. */
  lemma FrozenTimersTrip(c: Circuit, a: Input, b: Input, outage: seq<Input>, last: Input)
    requires TrackerOf(c) == Tracker(None, None) && InOrder([a, b] + outage + [last])
    requires Enabled(a) && Enabled(b) && Enabled(last) && forall i :: 0 <= i < |outage| ==> !Enabled(outage[i])
    requires OverFuse(c, a) && OverFuse(c, b) && OverFuse(c, last)
    requires b.now - a.now >= EMERGENCY_CUTOFF_GRACE_S && last.now - b.now >= EMERGENCY_SOFT_REMEDIATION_GRACE_S
    requires HasOffender(c, last.bats, last.now)
    ensures Trip(CircuitAfter(c, [a, b] + outage), last).Some?
  {
    hide OverFuse, HasOffender, Trip, CircuitAfter, TripHistory, Observed;
    var inputs := [a, b] + outage;
    OutageIsInvisible([a, b], outage);
    LooksOfPair(a, b);
    assert (inputs + [last])[..|inputs|] == inputs;
    assert Looks(inputs + [last]) == [a, b, last];
    TripIffHistory(c, inputs, last);
    ThreeLooks(c, a, b, last);
  }

  lemma ThreeLooks(c: Circuit, a: Input, b: Input, last: Input)
    requires OverFuse(c, a) && OverFuse(c, b) && OverFuse(c, last)
    requires b.now - a.now >= EMERGENCY_CUTOFF_GRACE_S && last.now - b.now >= EMERGENCY_SOFT_REMEDIATION_GRACE_S
    ensures TripHistory(Observed(c, [a, b, last]), 0, 1)
  {
    hide OverFuse;
    var obs := Observed(c, [a, b, last]);
    assert obs[0].overloaded && obs[1].overloaded && obs[2].overloaded;
  }

  lemma LooksOfPair(a: Input, b: Input)
    requires Enabled(a) && Enabled(b)
    ensures Looks([a, b]) == [a, b]
  {
    assert [a, b][..1] == [a];
  }

  /** At most one member of a circuit is tripped per tick. */
  lemma OneTripPerCircuit(circuits: Circuits, bats: Batteries, margin: real, now: Time, a: Id, b: Id)
    requires WellFormed(bats, circuits) && a in bats && b in bats && bats[a].circuit == bats[b].circuit
    requires a in TrippedOn(circuits, bats, margin, now, circuits.Keys)
    requires b in TrippedOn(circuits, bats, margin, now, circuits.Keys)
    ensures a == b
  {
    hide CapW, SignedSum, NextTracker, LimitsOk;
    var c :| c in circuits && ToTrip(circuits[c], bats, margin, now) == Some(a);
    var d :| d in circuits && ToTrip(circuits[d], bats, margin, now) == Some(b);
    assert a in circuits[c].memberIds && b in circuits[d].memberIds;
  }

  // ------------------------------------------------------------------
  // Termination
  // ------------------------------------------------------------------

  /** Relays report truthfully: who is closed is not under a pending cut. */
  ghost predicate Honest(c: Circuit, bats: Batteries, now: Time) {
    forall m :: m in Closed(c, bats) ==> !IsCut(bats[m], now)
  }

  lemma {:induction false} SomeoneSameSign(s: set<Id>, bats: Batteries)
    requires s <= bats.Keys && Sum(s, Plugs(bats)) != 0.0
    ensures exists m :: m in s && PlugOf(bats[m]) != 0.0
                        && Signum(PlugOf(bats[m])) == Signum(Sum(s, Plugs(bats)))
    decreases s
  {
    if s != {} {
      var x :| x in s;
      SumPick(s, Plugs(bats), x);
      var rest := Sum(s - {x}, Plugs(bats));
      if PlugOf(bats[x]) == 0.0 || Signum(PlugOf(bats[x])) != Signum(Sum(s, Plugs(bats))) {
        assert rest != 0.0 && Signum(rest) == Signum(Sum(s, Plugs(bats)));
        SomeoneSameSign(s - {x}, bats);
      }
    }
  }

  lemma {:induction false} WorstExists(ids: seq<Id>, bats: Batteries, dir: real, now: Time, m: Id)
    requires m in ids && m in bats && RelayClosed(bats[m]) && Offends(bats[m], dir, now)
    ensures Worst(ids, bats, dir, now).Some?
    ensures Abs(PlugOf(bats[Worst(ids, bats, dir, now).value])) >= Abs(PlugOf(bats[m]))
  {
    hide Offends, RelayClosed;
    var last := ids[|ids| - 1];
    if m != last {
      WorstExists(ids[..|ids| - 1], bats, dir, now, m);
    } else if Worst(ids[..|ids| - 1], bats, dir, now).Some? {
    }
  }

  /** When a trip is due, someone is tripped exactly when a closed member that is
      not already cut pushes in the direction of the sum. */
  lemma TripIffOffender(c: Circuit, bats: Batteries, margin: real, now: Time)
    requires TripDue(NextTracker(c, bats, margin, now), now)
    ensures ToTrip(c, bats, margin, now).Some?
       <==> exists m :: m in Closed(c, bats) && Offends(bats[m], Signum(SignedSum(c, bats)), now)
  {
    hide SignedSum, NextTracker, Offends, Worst;
    var dir := Signum(SignedSum(c, bats));
    if m :| m in Closed(c, bats) && Offends(bats[m], dir, now) {
      WorstExists(c.memberIds, bats, dir, now, m);
    }
  }

  /** An overload with honest relays always has someone to trip. */
  lemma TripFindsSomeone(c: Circuit, bats: Batteries, margin: real, now: Time)
    requires Overloaded(c, bats, margin) && Honest(c, bats, now) && CapW(c.config) + margin >= 0.0
    requires TripDue(NextTracker(c, bats, margin, now), now)
    ensures ToTrip(c, bats, margin, now).Some? && ToTrip(c, bats, margin, now).value in Closed(c, bats)
  {
    hide CapW, Sum, Worst, NextTracker, RelayClosed;
    SomeoneSameSign(Closed(c, bats), bats);
    var m :| m in Closed(c, bats) && PlugOf(bats[m]) != 0.0 && Signum(PlugOf(bats[m])) == Signum(SignedSum(c, bats));
    WorstExists(c.memberIds, bats, Signum(SignedSum(c, bats)), now, m);
  }

  /** The state the safety check leaves behind, nothing else happening. */
  datatype World = World(bats: Batteries, circuits: Circuits)

  ghost function SafetyTick(w: World, margin: real, now: Time): World {
    World(CutAll(w.bats, TrippedOn(w.circuits, w.bats, margin, now, w.circuits.Keys), now),
          TrackAll(w.circuits, w.bats, margin, now))
  }

  /** Ticks at the given times, readings fixed, trips succeeding, nobody
      recovering. */
  ghost function Later(w: World, margin: real, times: seq<Time>): World
    decreases |times|
  {
    if times == [] then w else Later(SafetyTick(w, margin, times[0]), margin, times[1..])
  }

  /** What the argument carries from tick to tick: circuit `c` keeps its members
      and cap, its relays are honest, and its trip stays due while overloaded. */
  ghost predicate Escalating(w: World, c: Id, margin: real, now: Time) {
    && WellFormed(w.bats, w.circuits) && c in w.circuits
    && CapW(w.circuits[c].config) + margin >= 0.0
    && Honest(w.circuits[c], w.bats, now)
    && TripDue(TrackerOf(w.circuits[c]), now)
  }

  lemma CutKeepsLimits(b: Battery, now: Time)
    ensures var r := Cut(b, now);
            && r.circuit == b.circuit && LimitsOk(r) == LimitsOk(b) && !RelayClosed(r)
            && r.maxChargeW == b.maxChargeW && r.maxDischargeW == b.maxDischargeW && r.lastPlugW == b.lastPlugW
  {
  }

  lemma TickIsWellFormed(w: World, margin: real, now: Time)
    requires WellFormed(w.bats, w.circuits)
    ensures var t := SafetyTick(w, margin, now); WellFormed(t.bats, t.circuits)
  {
    hide CapW, LimitsOk, Cut, TrippedOn, NextTracker;
    var t := SafetyTick(w, margin, now);
    forall id | id in w.bats
      ensures Homed(id, t.bats[id], t.circuits)
    {
      assert Homed(id, w.bats[id], w.circuits);
      CutKeepsLimits(w.bats[id], now);
    }
  }

  /** A tick on an escalating, overloaded circuit opens exactly one relay of it. */
  lemma TickOpensOne(w: World, c: Id, margin: real, now: Time)
    requires Escalating(w, c, margin, now) && Overloaded(w.circuits[c], w.bats, margin)
    ensures var t := SafetyTick(w, margin, now);
            var trip := ToTrip(w.circuits[c], w.bats, margin, now);
            && trip.Some? && trip.value in Closed(w.circuits[c], w.bats)
            && c in t.circuits
            && Closed(t.circuits[c], t.bats) == Closed(w.circuits[c], w.bats) - {trip.value}
  {
    hide CapW, Worst, SignedSum, Homed, RelayClosed, Pending;
    var t := SafetyTick(w, margin, now);
    TripFindsSomeone(w.circuits[c], w.bats, margin, now);
    var trip := ToTrip(w.circuits[c], w.bats, margin, now).value;
    forall m | m in w.circuits[c].memberIds && m in w.bats
      ensures m in TrippedOn(w.circuits, w.bats, margin, now, w.circuits.Keys) <==> m == trip
      ensures RelayClosed(t.bats[m]) <==> RelayClosed(w.bats[m]) && m != trip
    {
      CutKeepsLimits(w.bats[m], now);
      TripsStayHome(w, margin, now, c, m);
    }
  }

  /** A circuit trips its own members only. */
  lemma TripsStayHome(w: World, margin: real, now: Time, c: Id, m: Id)
    requires WellFormed(w.bats, w.circuits) && c in w.circuits && m in w.circuits[c].memberIds
    ensures m in TrippedOn(w.circuits, w.bats, margin, now, w.circuits.Keys)
       <==> ToTrip(w.circuits[c], w.bats, margin, now) == Some(m)
  {
    hide CapW, SignedSum, NextTracker, Homed;
    if m in TrippedOn(w.circuits, w.bats, margin, now, w.circuits.Keys) {
      var d :| d in w.circuits && ToTrip(w.circuits[d], w.bats, margin, now) == Some(m);
      assert m in w.circuits[d].memberIds;
    }
  }

  lemma TickKeepsEscalating(w: World, c: Id, margin: real, now: Time, later: Time)
    requires Escalating(w, c, margin, now) && Overloaded(w.circuits[c], w.bats, margin) && now <= later
    ensures Escalating(SafetyTick(w, margin, now), c, margin, later)
  {
    hide CapW, Worst, SignedSum, Homed, RelayClosed, LimitsOk, Overloaded;
    var t := SafetyTick(w, margin, now);
    TickIsWellFormed(w, margin, now);
    TickOpensOne(w, c, margin, now);
    forall m | m in Closed(t.circuits[c], t.bats)
      ensures !IsCut(t.bats[m], later)
    {
      CutKeepsLimits(w.bats[m], now);
    }
  }

  lemma {:induction false} OverloadClearsFrom(w: World, c: Id, margin: real, times: seq<Time>) returns (k: nat)
    requires times != [] ==> Escalating(w, c, margin, times[0])
    requires WellFormed(w.bats, w.circuits) && c in w.circuits
    requires forall i, j :: 0 <= i < j < |times| ==> times[i] <= times[j]
    requires |times| >= |Closed(w.circuits[c], w.bats)|
    ensures k <= |Closed(w.circuits[c], w.bats)|
    ensures var t := Later(w, margin, times[..k]);
            c in t.circuits && !Overloaded(t.circuits[c], t.bats, margin)
    decreases |times|
  {
    hide SafetyTick, Escalating, SignedSum, WellFormed;
    if !Overloaded(w.circuits[c], w.bats, margin) {
      k := 0;
    } else {
      assert |Closed(w.circuits[c], w.bats)| > 0;
      var t := SafetyTick(w, margin, times[0]);
      OverloadClearsStep(w, c, margin, times);
      k := OverloadClearsFrom(t, c, margin, times[1..]);
      assert times[..k + 1][1..] == times[1..][..k];
      k := k + 1;
    }
  }

  lemma OverloadClearsStep(w: World, c: Id, margin: real, times: seq<Time>)
    requires times != [] && Escalating(w, c, margin, times[0]) && Overloaded(w.circuits[c], w.bats, margin)
    requires forall i, j :: 0 <= i < j < |times| ==> times[i] <= times[j]
    ensures var t := SafetyTick(w, margin, times[0]);
            && WellFormed(t.bats, t.circuits) && c in t.circuits
            && |Closed(t.circuits[c], t.bats)| == |Closed(w.circuits[c], w.bats)| - 1
            && (|times| > 1 ==> Escalating(t, c, margin, times[1]))
  {
    hide Honest, TripDue, Overloaded, Closed, WellFormed, SafetyTick;
    TickOpensOne(w, c, margin, times[0]);
    TickIsWellFormed(w, margin, times[0]);
    if |times| > 1 {
      TickKeepsEscalating(w, c, margin, times[0], times[1]);
    }
  }

  /** Main result: with fixed readings, honest relays and trips that succeed,
      an escalating overload is gone after at most one tick per closed member,
      whatever the sign of the sum does on the way. */
  lemma OverloadClears(w: World, c: Id, margin: real, times: seq<Time>)
    requires c in w.circuits && |times| == |Closed(w.circuits[c], w.bats)| && times != []
    requires Escalating(w, c, margin, times[0])
    requires forall i, j :: 0 <= i < j < |times| ==> times[i] <= times[j]
    ensures exists k :: && 0 <= k <= |times|
                        && var t := Later(w, margin, times[..k]);
                           c in t.circuits && !Overloaded(t.circuits[c], t.bats, margin)
  {
    hide Later, Overloaded, Closed;
    var k := OverloadClearsFrom(w, c, margin, times);
  }
}
