/** Whom the safety check acts on, over whole runs: who is told to stand by, who
    is tripped, and when a tripped battery is due back. */
module Remediation {
  import opened Prelude
  import opened Config
  import opened State
  import opened Demand
  import opened Escalation
  import opened EscalationRuns

  /** All circuits after a series of ticks. */
  ghost function CircuitsAfter(circuits: Circuits, inputs: seq<Input>): (after: Circuits)
    ensures after.Keys == circuits.Keys
  {
    map c | c in circuits :: CircuitAfter(circuits[c], inputs)
  }

  /** Whom the tick tells to stand by, and whom it trips. */
  ghost function Softened(circuits: Circuits, i: Input): set<Id> {
    if Enabled(i) then SoftenedOn(circuits, i.bats, i.margin, i.now, circuits.Keys) else {}
  }

  ghost function Tripped(circuits: Circuits, i: Input): set<Id> {
    if Enabled(i) then TrippedOn(circuits, i.bats, i.margin, i.now, circuits.Keys) else {}
  }

  ghost predicate AtStartUp(circuits: Circuits) {
    forall c :: c in circuits ==> TrackerOf(circuits[c]) == Tracker(None, None)
  }

  // ------------------------------------------------------------------
  // Standby
  // ------------------------------------------------------------------

  /** The last of the ticks and every one since some tick at least the grace
      period before it saw the fuse overloaded. */
  ghost predicate OverloadedForLong(c: Circuit, seen: seq<Input>) {
    exists j :: 0 <= j < |seen| && seen[|seen| - 1].now - seen[j].now >= EMERGENCY_CUTOFF_GRACE_S
                && forall i :: j <= i < |seen| ==> OverFuse(c, seen[i])
  }

  /** Connected, and no cut of it is pending. */
  predicate Reachable(c: Circuit, i: Input, m: Id) {
    && m in Connected(c, i.bats)
    && (i.bats[m].plugCutUntil.None? || i.bats[m].plugCutUntil.value <= i.now)
  }

  lemma LongIsObserved(c: Circuit, seen: seq<Input>)
    requires seen != []
    ensures OverloadedForLong(c, seen)
       <==> var obs := Observed(c, seen);
            exists j :: OverloadedSince(obs, j) && obs[|obs| - 1].now - obs[j].now >= EMERGENCY_CUTOFF_GRACE_S
  {
    hide OverFuse;
    var obs := Observed(c, seen);
    assert forall i :: 0 <= i < |obs| ==> obs[i].overloaded == OverFuse(c, seen[i]);
    if j :| && 0 <= j < |seen| && seen[|seen| - 1].now - seen[j].now >= EMERGENCY_CUTOFF_GRACE_S
            && forall i :: j <= i < |seen| ==> OverFuse(c, seen[i]) {
      assert OverloadedSince(obs, j);
    }
  }

  lemma SoftenedOnCircuit(c: Circuit, inputs: seq<Input>, last: Input, id: Id)
    requires TrackerOf(c) == Tracker(None, None) && InOrder(inputs + [last]) && Enabled(last)
    ensures id in ToSoften(CircuitAfter(c, inputs), last.bats, last.margin, last.now)
       <==> Reachable(c, last, id) && OverloadedForLong(c, Looks(inputs + [last]))
  {
    hide CapW, Track, SignedSum, Overloaded, OverFuse, Looks, OverloadedForLong, SoftDue, OverloadedSince, Closed;
    hide Connected;
    var all := inputs + [last];
    assert all[..|inputs|] == inputs;
    TrackerFollowsObservations(c, inputs);
    TrackerFollowsObservations(c, all);
    LastLook(inputs, last);
    LooksInOrder(all);
    SameOverload(c, CircuitAfter(c, inputs), last.bats, last.margin);
    LoadIsSignedSum(c, last.bats);
    SoftDueIffHistory(Observed(c, Looks(all)));
    LongIsObserved(c, Looks(all));
  }

  /** Main result, over any run from start-up: a tick tells a battery to stand
      by exactly when the check is enabled, the battery is connected to some
      circuit and not cut, and the ticks that had the check enabled show the fuse
      of that circuit overloaded without a break for the grace period. */
  lemma SoftenedIffHistory(circuits: Circuits, inputs: seq<Input>, last: Input, id: Id)
    requires AtStartUp(circuits) && InOrder(inputs + [last])
    ensures id in Softened(CircuitsAfter(circuits, inputs), last)
       <==> && Enabled(last)
            && exists c :: (&& c in circuits && Reachable(circuits[c], last, id)
                            && OverloadedForLong(circuits[c], Looks(inputs + [last])))
  {
    hide Looks, ToSoften, CircuitAfter, OverloadedForLong, Reachable;
    var after := CircuitsAfter(circuits, inputs);
    if Enabled(last) {
      forall c | c in circuits
        ensures id in ToSoften(after[c], last.bats, last.margin, last.now)
           <==> Reachable(circuits[c], last, id) && OverloadedForLong(circuits[c], Looks(inputs + [last]))
      {
        SoftenedOnCircuit(circuits[c], inputs, last, id);
      }
    }
  }

  // ------------------------------------------------------------------
  // Trips
  // ------------------------------------------------------------------

  /** Position k of the member list holds the last of the offenders whose
      reading is the largest in size. */
  ghost predicate LastStrongest(c: Circuit, bats: Batteries, now: Time, k: int) {
    && 0 <= k < |c.memberIds| && Offender(c, bats, now, c.memberIds[k])
    && forall i :: 0 <= i < |c.memberIds| && Offender(c, bats, now, c.memberIds[i]) ==>
         var a, b := Abs(bats[c.memberIds[i]].lastPlugW.value), Abs(bats[c.memberIds[k]].lastPlugW.value);
         a < b || (a == b && i <= k)
  }

  ghost predicate Victim(c: Circuit, i: Input, id: Id) {
    exists k :: LastStrongest(c, i.bats, i.now, k) && c.memberIds[k] == id
  }

  ghost predicate TripIsDue(c: Circuit, seen: seq<Input>) {
    exists j, m :: TripHistory(Observed(c, seen), j, m)
  }

  /** What the search looks for among the members. */
  predicate Candidate(m: Id, bats: Batteries, dir: real, now: Time) {
    m in bats && RelayClosed(bats[m]) && Offends(bats[m], dir, now)
  }

  lemma {:induction false} WorstIsLast(ids: seq<Id>, bats: Batteries, dir: real, now: Time) returns (k: int)
    ensures var worst := Worst(ids, bats, dir, now);
            if worst.None? then forall i :: 0 <= i < |ids| ==> !Candidate(ids[i], bats, dir, now)
            else && 0 <= k < |ids| && worst == Some(ids[k]) && Candidate(ids[k], bats, dir, now)
                 && forall i :: 0 <= i < |ids| && Candidate(ids[i], bats, dir, now) ==>
                      var a, b := Abs(PlugOf(bats[ids[i]])), Abs(PlugOf(bats[ids[k]]));
                      a < b || (a == b && i <= k)
    decreases |ids|
  {
    hide Offends, RelayClosed;
    k := 0;
    if ids != [] {
      var n := |ids| - 1;
      k := WorstIsLast(ids[..n], bats, dir, now);
      if Candidate(ids[n], bats, dir, now)
         && (Worst(ids[..n], bats, dir, now).Some? ==> Abs(PlugOf(bats[ids[k]])) <= Abs(PlugOf(bats[ids[n]]))) {
        k := n;
      }
    }
  }

  lemma WorstIsVictim(c: Circuit, i: Input, id: Id)
    ensures Worst(c.memberIds, i.bats, Signum(SignedSum(c, i.bats)), i.now) == Some(id) <==> Victim(c, i, id)
  {
    hide SignedSum, FuseLoad, Worst;
    var ids, dir := c.memberIds, Signum(SignedSum(c, i.bats));
    LoadIsSignedSum(c, i.bats);
    forall m | m in ids
      ensures Offender(c, i.bats, i.now, m) <==> Candidate(m, i.bats, dir, i.now)
    {
    }
    assert forall k :: 0 <= k < |ids| ==> ids[k] in ids;
    var k := WorstIsLast(ids, i.bats, dir, i.now);
    if Worst(ids, i.bats, dir, i.now).Some? {
      assert LastStrongest(c, i.bats, i.now, k);
    }
  }

  lemma TrippedOnCircuit(c: Circuit, inputs: seq<Input>, last: Input, id: Id)
    requires TrackerOf(c) == Tracker(None, None) && InOrder(inputs + [last]) && Enabled(last)
    ensures ToTrip(CircuitAfter(c, inputs), last.bats, last.margin, last.now) == Some(id)
       <==> Victim(c, last, id) && TripIsDue(c, Looks(inputs + [last]))
  {
    hide CapW, Track, SignedSum, Overloaded, OverFuse, Looks, TripDue, TripHistory, Closed, Worst, Victim;
    var all := inputs + [last];
    assert all[..|inputs|] == inputs;
    TrackerFollowsObservations(c, inputs);
    TrackerFollowsObservations(c, all);
    LastLook(inputs, last);
    LooksInOrder(all);
    SameOverload(c, CircuitAfter(c, inputs), last.bats, last.margin);
    TripDueIffHistory(Observed(c, Looks(all)));
    WorstIsVictim(c, last, id);
  }

  /** Main result, over any run from start-up: a battery is tripped exactly when
      the check is enabled and it is the last of the strongest offenders on a
      circuit whose enabled ticks show an overload unbroken since tick j, a later
      one m past the first grace period of j, and now past the second of m. */
  lemma TrippedIffHistory(circuits: Circuits, inputs: seq<Input>, last: Input, id: Id)
    requires AtStartUp(circuits) && InOrder(inputs + [last])
    ensures id in Tripped(CircuitsAfter(circuits, inputs), last)
       <==> && Enabled(last)
            && exists c :: (&& c in circuits && Victim(circuits[c], last, id)
                            && TripIsDue(circuits[c], Looks(inputs + [last])))
  {
    hide Looks, ToTrip, CircuitAfter, TripIsDue, Victim;
    var after := CircuitsAfter(circuits, inputs);
    if Enabled(last) {
      forall c | c in circuits
        ensures ToTrip(after[c], last.bats, last.margin, last.now) == Some(id)
           <==> Victim(circuits[c], last, id) && TripIsDue(circuits[c], Looks(inputs + [last]))
      {
        TrippedOnCircuit(circuits[c], inputs, last, id);
      }
    }
  }

  // ------------------------------------------------------------------
  // Recovery
  // ------------------------------------------------------------------

  /** A battery tripped at `at` counts as cut for ten minutes and is due to be
      switched on again from then on; nobody else's cut is touched. */
  lemma DueBackAfterTenMinutes(bats: Batteries, tripped: set<Id>, at: Time, now: Time, id: Id)
    requires id in bats
    ensures var b, after := bats[id], CutAll(bats, tripped, at);
            && (id in tripped ==>
                  && after[id].plugRelayState == Some(false)
                  && (id in Recovered(after, now) <==> now - at >= EMERGENCY_CUTOFF_RECOVERY_S)
                  && (IsCut(after[id], now) <==> now - at < EMERGENCY_CUTOFF_RECOVERY_S))
            && (id !in tripped ==>
                  && after[id] == b
                  && (id in Recovered(after, now) <==> b.plugCutUntil.Some? && b.plugCutUntil.value <= now))
  {
  }
}
