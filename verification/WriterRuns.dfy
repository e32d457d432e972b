/** Belief and inverter over whole runs of the writer: after any channel events
    and connection troubles, exactly when the registers do what the writer
    believes it wrote last. */
module WriterRuns {
  import opened Prelude
  import opened Config
  import opened Setpoints
  import opened Registers
  import opened Writer

  datatype Changed = Changed(desired: Setpoint, links: seq<Link>)

  predicate AllPlausible(events: seq<Changed>) {
    forall i :: 0 <= i < |events| ==> Plausible(events[i].links)
  }

  function RunWriter(w: WriterState, events: seq<Changed>): WriterState
    requires AllPlausible(events)
    decreases |events|
  {
    if events == [] then w
    else
      var e := events[|events| - 1];
      OnChanged(RunWriter(w, events[..|events| - 1]), e.desired, e.links)
  }

  // ------------------------------------------------------------------
  // A streak without success
  // ------------------------------------------------------------------

  /** The event makes the writer try, while it believes in `belief`. */
  predicate Tries(belief: Setpoint, e: Changed) {
    ShouldWrite(Some(belief), e.desired)
  }

  /** No write of the streak succeeds, so that the belief stays. */
  predicate Hapless(belief: Setpoint, streak: seq<Changed>) {
    forall i :: 0 <= i < |streak| && Tries(belief, streak[i]) ==> !Succeeds(streak[i].links)
  }

  /** No failed write of the streak got further than `watts` can take. */
  ghost predicate AllSpared(belief: Setpoint, streak: seq<Changed>, watts: real)
    requires AllPlausible(streak)
  {
    forall i :: 0 <= i < |streak| && Tries(belief, streak[i]) ==>
      Reached(streak[i].links) <= Spared(watts, streak[i].desired)
  }

  /** Write i was reported as failed, but its setpoint took effect, and no later
      write disturbed it. */
  ghost predicate Phantom(belief: Setpoint, streak: seq<Changed>, i: int)
    requires AllPlausible(streak)
  {
    && 0 <= i < |streak| && Tries(belief, streak[i]) && Reached(streak[i].links) == 4
    && ToSignedWatts(streak[i].desired) != 0.0
    && AllSpared(belief, streak[i + 1..], ToSignedWatts(streak[i].desired))
  }

  /** What has to be true of the failures for the belief to be right. */
  ghost predicate Holds(belief: Setpoint, streak: seq<Changed>)
    requires AllPlausible(streak)
  {
    if ToSignedWatts(belief) != 0.0 then AllSpared(belief, streak, ToSignedWatts(belief))
    else forall i :: !Phantom(belief, streak, i)
  }

  lemma StreakStep(w: WriterState, e: Changed)
    requires w.lastWritten.Some? && Parked(w.device) && Plausible(e.links)
    requires Tries(w.lastWritten.value, e) ==> !Succeeds(e.links)
    ensures var after := OnChanged(w, e.desired, e.links);
            && after.lastWritten == w.lastWritten && Parked(after.device)
            && EffectiveW(after.device) == if Tries(w.lastWritten.value, e)
                                           then Through(EffectiveW(w.device), e.desired, Reached(e.links))
                                           else EffectiveW(w.device)
  {
    hide EffectiveW, Parked, Through, Spared, Tried, Reached;
    if Tries(w.lastWritten.value, e) {
      WriteAgreesIff(w, e.desired, e.links);
    }
  }

  /** Power in use is never restored by a failed write: what would restore it is
      not written at all. */
  lemma {:induction false} StreakOfPower(w: WriterState, streak: seq<Changed>)
    requires AllPlausible(streak) && Agrees(w) && Parked(w.device) && Hapless(w.lastWritten.value, streak)
    requires ToSignedWatts(w.lastWritten.value) != 0.0
    ensures var after := RunWriter(w, streak);
            && after.lastWritten == w.lastWritten && Parked(after.device)
            && (Agrees(after) <==> AllSpared(w.lastWritten.value, streak, ToSignedWatts(w.lastWritten.value)))
    decreases |streak|
  {
    hide EffectiveW, Parked, Reached, OnChanged;
    if streak != [] {
      var n := |streak| - 1;
      var belief := w.lastWritten.value;
      StreakOfPower(w, streak[..n]);
      StreakStep(RunWriter(w, streak[..n]), streak[n]);
      assert AllSpared(belief, streak, ToSignedWatts(belief))
        <==> AllSpared(belief, streak[..n], ToSignedWatts(belief))
             && (Tries(belief, streak[n]) ==>
                   Reached(streak[n].links) <= Spared(ToSignedWatts(belief), streak[n].desired));
    }
  }

  lemma PhantomStep(belief: Setpoint, streak: seq<Changed>, i: int)
    requires AllPlausible(streak) && streak != []
    ensures Phantom(belief, streak, i) ==> 0 <= i < |streak| && ToSignedWatts(streak[i].desired) != 0.0
    ensures var n := |streak| - 1;
            Phantom(belief, streak, i) <==>
              if i == n then
                Tries(belief, streak[n]) && Reached(streak[n].links) == 4 && ToSignedWatts(streak[n].desired) != 0.0
              else
                && Phantom(belief, streak[..n], i)
                && (Tries(belief, streak[n]) ==>
                      Reached(streak[n].links) <= Spared(ToSignedWatts(streak[i].desired), streak[n].desired))
  {
    hide Reached, Spared, Tries;
    var n := |streak| - 1;
    if 0 <= i < n {
      var tail, short := streak[i + 1..], streak[..n][i + 1..];
      assert tail == short + [streak[n]];
      assert forall k :: 0 <= k < |short| ==> short[k] == tail[k];
      assert tail[|short|] == streak[n];
    }
  }

  /** After standby, what is delivered is the last phantom, if there is one. */
  lemma {:induction false} StreakOfRest(w: WriterState, streak: seq<Changed>)
    requires AllPlausible(streak) && Agrees(w) && Parked(w.device) && Hapless(w.lastWritten.value, streak)
    requires ToSignedWatts(w.lastWritten.value) == 0.0
    ensures var after := RunWriter(w, streak);
            && after.lastWritten == w.lastWritten && Parked(after.device)
            && (EffectiveW(after.device) != 0.0 ==> exists i :: Phantom(w.lastWritten.value, streak, i))
            && (forall i :: Phantom(w.lastWritten.value, streak, i) ==>
                  EffectiveW(after.device) == ToSignedWatts(streak[i].desired) != 0.0)
    decreases |streak|
  {
    hide EffectiveW, Parked, Reached, OnChanged, Phantom, Tries, Through, Spared;
    var belief := w.lastWritten.value;
    if streak == [] {
      NoPhantoms(belief);
    } else {
      var n := |streak| - 1;
      var before := RunWriter(w, streak[..n]);
      StreakOfRest(w, streak[..n]);
      StreakStep(before, streak[n]);
      ThroughCases(EffectiveW(before.device), streak[n].desired, Reached(streak[n].links));
      forall i | Phantom(belief, streak, i)
        ensures 0 <= i < |streak|
        ensures EffectiveW(RunWriter(w, streak).device) == ToSignedWatts(streak[i].desired) != 0.0
      {
        PhantomStep(belief, streak, i);
      }
      PhantomStep(belief, streak, n);
      if i :| Phantom(belief, streak[..n], i) {
        if n > 0 {
          PhantomStep(belief, streak[..n], i);
          assert streak[..n][i] == streak[i];
        } else {
          NoPhantoms(belief);
        }
        PhantomStep(belief, streak, i);
      }
    }
  }

  lemma NoPhantoms(belief: Setpoint)
    ensures forall i :: !Phantom(belief, [], i)
  {
  }

  lemma ThroughCases(watts: real, sp: Setpoint, n: nat)
    requires n <= 4
    ensures n <= Spared(watts, sp) ==> Through(watts, sp, n) == watts
    ensures n > Spared(watts, sp) ==> Through(watts, sp, n) == if n == 4 then ToSignedWatts(sp) else 0.0
    ensures Spared(watts, sp) == 4 <==> watts == ToSignedWatts(sp)
    ensures Spared(0.0, sp) >= 3 && Spared(watts, sp) <= 4
  {
  }

  // ------------------------------------------------------------------
  // Whole runs
  // ------------------------------------------------------------------

  /** How many events there were up to the last write that succeeded. */
  function LastSuccess(w: WriterState, events: seq<Changed>): (s: nat)
    requires AllPlausible(events)
    ensures s <= |events|
    decreases |events|
  {
    if events == [] then 0
    else
      var n := |events| - 1;
      if ShouldWrite(RunWriter(w, events[..n]).lastWritten, events[n].desired) && Succeeds(events[n].links) then n + 1
      else LastSuccess(w, events[..n])
  }

  /** What follows it is a streak of failures under one belief. */
  lemma {:induction false} SinceLastSuccess(w: WriterState, events: seq<Changed>)
    requires AllPlausible(events) && w.lastWritten.Some?
    ensures var s := LastSuccess(w, events);
            var last := RunWriter(w, events[..s]);
            && last.lastWritten.Some?
            && Hapless(last.lastWritten.value, events[s..])
            && RunWriter(w, events) == RunWriter(last, events[s..])
            && RunWriter(w, events).lastWritten == last.lastWritten
            && (s == 0 ==> last == w) && (s > 0 ==> Agrees(last) && Parked(last.device))
    decreases |events|
  {
    hide EffectiveW, Parked, OnChanged, Agrees, RunWriter, Hapless;
    if events == [] {
      RunSnoc(w, [], Changed(Standby, []), w.lastWritten.value);
    } else {
      var n := |events| - 1;
      var before, e := RunWriter(w, events[..n]), events[n];
      SinceLastSuccess(w, events[..n]);
      assert events == events[..n] + [e];
      RunSnoc(w, events[..n], e, w.lastWritten.value);
      EventOutcome(before, e);
      var s := LastSuccess(w, events);
      var last := RunWriter(w, events[..s]);
      if s <= n {
        assert events[..n][..s] == events[..s];
        assert events[s..] == events[..n][s..] + [e];
        RunSnoc(last, events[..n][s..], e, last.lastWritten.value);
      } else {
        assert events[..s] == events && events[s..] == [];
        RunSnoc(last, [], e, last.lastWritten.value);
      }
    }
  }

  lemma EventOutcome(w: WriterState, e: Changed)
    requires Plausible(e.links) && w.lastWritten.Some?
    ensures var after := OnChanged(w, e.desired, e.links);
            if ShouldWrite(w.lastWritten, e.desired) && Succeeds(e.links) then
              after.lastWritten == Some(e.desired) && Agrees(after) && Parked(after.device)
            else after.lastWritten == w.lastWritten
  {
    hide EffectiveW, Parked, Tried, Reached, Spared;
    if ShouldWrite(w.lastWritten, e.desired) {
      WriteAgreesIff(w, e.desired, e.links);
    }
  }

  lemma RunSnoc(w: WriterState, events: seq<Changed>, e: Changed, belief: Setpoint)
    requires AllPlausible(events)
    ensures RunWriter(w, []) == w && Hapless(belief, [])
    ensures Plausible(e.links) ==>
      && AllPlausible(events + [e])
      && RunWriter(w, events + [e]) == OnChanged(RunWriter(w, events), e.desired, e.links)
    ensures Hapless(belief, events + [e]) <==> Hapless(belief, events) && (Tries(belief, e) ==> !Succeeds(e.links))
  {
    hide OnChanged, Tries, Succeeds;
    var all := events + [e];
    assert all[..|all| - 1] == events;
    assert forall i :: 0 <= i < |events| ==> all[i] == events[i];
    assert all[|events|] == e;
  }

  predicate NeverTries(belief: Setpoint, streak: seq<Changed>) {
    forall i :: 0 <= i < |streak| ==> !Tries(belief, streak[i])
  }

  /** With no failed write since the last success they agree whatever the
      registers held at start-up. */
  lemma {:induction false} UntriedStreakAgrees(w: WriterState, streak: seq<Changed>)
    requires AllPlausible(streak) && Agrees(w)
    requires NeverTries(w.lastWritten.value, streak)
    ensures RunWriter(w, streak) == w
    decreases |streak|
  {
    if streak != [] {
      UntriedStreakAgrees(w, streak[..|streak| - 1]);
    }
  }

  /** A streak of failures leaves belief and inverter agreeing exactly when the
      failures have been harmless. */
  lemma StreakAgreesIff(w: WriterState, streak: seq<Changed>)
    requires AllPlausible(streak) && Agrees(w) && Parked(w.device) && Hapless(w.lastWritten.value, streak)
    ensures var after := RunWriter(w, streak);
            && after.lastWritten == w.lastWritten
            && (Agrees(after) <==> Holds(w.lastWritten.value, streak))
  {
    hide EffectiveW, Parked, RunWriter, AllSpared, Phantom, Hapless;
    if ToSignedWatts(w.lastWritten.value) != 0.0 {
      StreakOfPower(w, streak);
    } else {
      StreakOfRest(w, streak);
    }
  }

  /** Main result: over any sequence of channel events and connection troubles
      the inverter does what the writer believes it wrote last exactly when the
      failed writes since the last success have been harmless. Parked registers
      to start from matter only until the first success. Whenever
      they agree and the last request is not waiting to be written, the inverter
      serves that request up to the write deadband. */
  lemma WriterAgreement(found: Registers, events: seq<Changed>)
    requires AllPlausible(events)
    ensures var start := WriterState(Some(Standby), AfterInit(found));
            var s, w := LastSuccess(start, events), RunWriter(start, events);
            && w.lastWritten.Some?
            && (s > 0 || Parked(AfterInit(found)) ==> (Agrees(w) <==> Holds(w.lastWritten.value, events[s..])))
            && (NeverTries(w.lastWritten.value, events[s..]) ==> Agrees(w))
            && (Agrees(w) && events != [] ==>
                  var desired := events[|events| - 1].desired;
                  ShouldWrite(w.lastWritten, desired)
                  || (SameKind(desired, w.lastWritten.value)
                      && Abs(ToSignedWatts(desired) - EffectiveW(w.device)) < WRITE_DEADBAND_W))
  {
    hide EffectiveW, Parked, OnChanged, RunWriter, LastSuccess, Holds, Hapless, NeverTries;
    var start := WriterState(Some(Standby), AfterInit(found));
    var s := LastSuccess(start, events);
    var last := RunWriter(start, events[..s]);
    SinceLastSuccess(start, events);
    InitParksIff(found);
    if NeverTries(last.lastWritten.value, events[s..]) {
      UntriedStreakAgrees(last, events[s..]);
    }
    if s > 0 || Parked(AfterInit(found)) {
      StreakAgreesIff(last, events[s..]);
    }
  }

  /** After a failed write the belief can be wrong for ever. Discharging at
      1000 W, a charge command dies after the discharge register was zeroed; if
      the dispatcher then returns to within the deadband of 1000 W, nothing is
      ever written again and the battery stays at 0 W. */
  lemma {:induction false} FailedWriteIsForgotten(w: WriterState, watts: nat, events: seq<Changed>)
    requires w.lastWritten == Some(Discharge(1000)) && w.device.forceMode == 2 && w.device.discharge == 1000
    requires AllPlausible(events) && forall i :: 0 <= i < |events| ==> events[i].desired == Discharge(1010)
    ensures var broken := [Broken(2), Unreachable, Unreachable];
            var failed := OnChanged(w, Charge(watts), broken);
            && Plausible(broken) && EffectiveW(failed.device) == 0.0 && failed.lastWritten == Some(Discharge(1000))
            && RunWriter(failed, events) == failed
    decreases |events|
  {
    var broken := [Broken(2), Unreachable, Unreachable];
    PrefixStates(w.device, Charge(watts), 2);
    assert Tried(w.device, Charge(watts), broken, 1) == (AfterPrefix(w.device, Charge(watts), 2), false);
    assert Tried(w.device, Charge(watts), broken, 2) == (AfterPrefix(w.device, Charge(watts), 2), false);
    assert Tried(w.device, Charge(watts), broken, 3) == (AfterPrefix(w.device, Charge(watts), 2), false);
    if events != [] {
      FailedWriteIsForgotten(w, watts, events[..|events| - 1]);
    }
  }
}
