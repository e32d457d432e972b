/** The life of a burst on one battery: a tick arms it, polls carry its samples
    away, plug readings come in between, and a later tick decides whether the
    battery honoured or refused it. */
module Bursts {
  import opened Prelude
  import opened Config
  import opened State
  import opened Pulses
  import opened PlugReadings
  import Demand

  // ------------------------------------------------------------------
  // Between two ticks
  // ------------------------------------------------------------------

  /** What reaches a battery between two ticks, in the order of arrival. */
  datatype Arrival = Polled(at: Time) | Measured(reading: Reading)

  function Through(b: Battery, arrivals: seq<Arrival>): Battery
    decreases |arrivals|
  {
    if arrivals == [] then b
    else
      var before := Through(b, arrivals[..|arrivals| - 1]);
      match arrivals[|arrivals| - 1]
      case Polled(at) => DrainOne(before, at)
      case Measured(r) => IngestOne(before, r.apower, r.relayOn, r.at)
  }

  /** The times of the polls. */
  function Polls(arrivals: seq<Arrival>): (times: seq<Time>)
    ensures |times| <= |arrivals|
  {
    if arrivals == [] then []
    else
      var last := arrivals[|arrivals| - 1];
      Polls(arrivals[..|arrivals| - 1]) + if last.Polled? then [last.at] else []
  }

  function ReadingsIn(arrivals: seq<Arrival>): seq<Reading> {
    if arrivals == [] then []
    else
      var last := arrivals[|arrivals| - 1];
      ReadingsIn(arrivals[..|arrivals| - 1]) + if last.Measured? then [last.reading] else []
  }

  /** What the plug reads in the end. */
  function PlugAfter(b: Battery, arrivals: seq<Arrival>): Option<real> {
    var rs := ReadingsIn(arrivals);
    if rs == [] then b.lastPlugW else Some(-rs[|rs| - 1].apower)
  }

  // ------------------------------------------------------------------
  // The samples
  // ------------------------------------------------------------------

  /** The battery was just told to change its power by `delta`. */
  predicate JustArmed(b: Battery, before: Battery, delta: real) {
    && b.pulseRemaining == PULSE_COUNT && b.pendingPulseW == delta && b.lastPulseDeltaW == Some(delta)
    && b.lastPulseCompletedAt.None? && b.plugWAtPulseSend == before.lastPlugW
    && b.lastPlugW == before.lastPlugW && b.lastPlugMovementAt == before.lastPlugMovementAt
    && b.chargeLockedUntil == before.chargeLockedUntil && b.dischargeLockedUntil == before.dischargeLockedUntil
  }

  /** Nothing left of any burst: no samples, nothing to judge, nothing to wait for. */
  predicate Quiet(b: Battery) {
    && b.pulseRemaining == 0 && b.pendingPulseW == 0.0
    && b.lastPulseDeltaW.None? && b.lastPulseCompletedAt.None? && b.plugWAtPulseSend.None?
  }

  /** A tick arms a battery on an audible circuit exactly for corrections of at
      least the deadband, and takes everything away on a muted one. */
  lemma QueueArms(bats: Batteries, circuits: Circuits, deltas: map<Id, real>, now: Time, id: Id)
    requires id in bats
    ensures var b, after := bats[id], QueueAll(bats, circuits, deltas, now)[id];
            if b.circuit in circuits && circuits[b.circuit].silentUntil.Some?
               && circuits[b.circuit].silentUntil.value > now then Quiet(after)
            else if id in deltas && (deltas[id] >= WRITE_DEADBAND_W || deltas[id] <= -WRITE_DEADBAND_W) then
              JustArmed(after, b, deltas[id])
            else after == b
  {
  }

  /** The battery in the course of a burst that was armed in state `b`, after
      the polls `polls` and the readings `rs`. */
  predicate InCourse(after: Battery, b: Battery, armed: Battery, delta: real, polls: seq<Time>, rs: seq<Reading>) {
    && after.pulseRemaining == (if |polls| < PULSE_COUNT then PULSE_COUNT - |polls| else 0)
    && after.pendingPulseW == (if |polls| < PULSE_COUNT then delta else 0.0)
    && after.lastPulseCompletedAt == (if |polls| < PULSE_COUNT then None else Some(polls[PULSE_COUNT - 1]))
    && after.lastPulseDeltaW == Some(delta) && after.plugWAtPulseSend == b.lastPlugW
    && after.lastPlugW == Readings(armed, rs).lastPlugW
    && after.lastPlugMovementAt == Readings(armed, rs).lastPlugMovementAt
    && after.chargeLockedUntil == b.chargeLockedUntil && after.dischargeLockedUntil == b.dischargeLockedUntil
  }

  lemma PollInCourse(before: Battery, b: Battery, armed: Battery, delta: real, polls: seq<Time>, rs: seq<Reading>,
                     at: Time)
    requires InCourse(before, b, armed, delta, polls, rs)
    ensures InCourse(DrainOne(before, at), b, armed, delta, polls + [at], rs)
  {
    hide Readings;
  }

  lemma ReadingInCourse(before: Battery, b: Battery, armed: Battery, delta: real, polls: seq<Time>, rs: seq<Reading>,
                        r: Reading)
    requires InCourse(before, b, armed, delta, polls, rs)
    ensures InCourse(IngestOne(before, r.apower, r.relayOn, r.at), b, armed, delta, polls, rs + [r])
  {
    hide OverheadAfter;
    assert (rs + [r])[..|rs|] == rs;
  }

  lemma {:induction false} BurstProgress(b: Battery, armed: Battery, delta: real, arrivals: seq<Arrival>)
    requires JustArmed(armed, b, delta)
    ensures InCourse(Through(armed, arrivals), b, armed, delta, Polls(arrivals), ReadingsIn(arrivals))
    ensures Through(armed, arrivals).lastPlugW == PlugAfter(b, arrivals)
    decreases |arrivals|
  {
    hide InCourse, DrainOne, IngestOne;
    if arrivals == [] {
      NothingArrived(b, armed, delta);
    } else {
      var n := |arrivals| - 1;
      var before, polls, rs := Through(armed, arrivals[..n]), Polls(arrivals[..n]), ReadingsIn(arrivals[..n]);
      BurstProgress(b, armed, delta, arrivals[..n]);
      assert polls + [] == polls && rs + [] == rs;
      match arrivals[n]
      case Polled(at) => PollInCourse(before, b, armed, delta, polls, rs, at);
      case Measured(r) => ReadingInCourse(before, b, armed, delta, polls, rs, r);
    }
    PlugInCourse(Through(armed, arrivals), b, armed, delta, arrivals);
  }

  lemma NothingArrived(b: Battery, armed: Battery, delta: real)
    requires JustArmed(armed, b, delta)
    ensures InCourse(armed, b, armed, delta, [], [])
  {
  }

  lemma PlugInCourse(after: Battery, b: Battery, armed: Battery, delta: real, arrivals: seq<Arrival>)
    requires JustArmed(armed, b, delta)
    requires InCourse(after, b, armed, delta, Polls(arrivals), ReadingsIn(arrivals))
    ensures after.lastPlugW == PlugAfter(b, arrivals)
  {
    hide IngestOne;
    var rs := ReadingsIn(arrivals);
    if rs != [] {
      LastReadingCounts(armed, rs, 0.0, 0.0);
    }
  }

  /** Main result: the first PULSE_COUNT polls after a burst was armed are each
      answered with the correction, all later ones with 0 W, whatever readings
      come in between. */
  lemma BurstIsSentOut(b: Battery, armed: Battery, delta: real, arrivals: seq<Arrival>, i: nat)
    requires JustArmed(armed, b, delta) && i < |arrivals| && arrivals[i].Polled?
    ensures SampleOf(Through(armed, arrivals[..i])) == if |Polls(arrivals[..i])| < PULSE_COUNT then delta else 0.0
  {
    BurstProgress(b, armed, delta, arrivals[..i]);
  }

  lemma {:induction false} QuietStaysQuiet(b: Battery, arrivals: seq<Arrival>)
    requires Quiet(b)
    ensures Quiet(Through(b, arrivals))
    decreases |arrivals|
  {
    hide OverheadAfter;
    if arrivals != [] {
      QuietStaysQuiet(b, arrivals[..|arrivals| - 1]);
    }
  }

  /** A battery that has not been pulsed since start-up or since its circuit was
      muted holds nothing up: no poll gets a sample, no tick judges it, and it
      counts as settled at any time. */
  lemma QuietHoldsNothingUp(b: Battery, arrivals: seq<Arrival>, cfg: DispatcherConfig, now: Time)
    requires Quiet(b)
    ensures var after := Through(b, arrivals);
            && SampleOf(after) == 0.0 && DetectAll(map["" := after], cfg, now)[""] == after
            && PulseSettled(after, now, PLUG_STABLE_DURATION_S, cfg.settleTimeoutS)
  {
    QuietStaysQuiet(b, arrivals);
  }

  // ------------------------------------------------------------------
  // Settling
  // ------------------------------------------------------------------

  /** Main result: after a burst a battery counts as settled exactly when all of
      its samples are gone and either the timeout has passed since the last of
      them, or the plug has moved since then and has held still for the
      stability period. */
  lemma BurstSettles(b: Battery, armed: Battery, delta: real, arrivals: seq<Arrival>, clock: Time, timeoutS: real)
    requires JustArmed(armed, b, delta)
    requires var polls := Polls(arrivals);
             |polls| >= PULSE_COUNT && b.lastPlugMovementAt.Some? ==>
               b.lastPlugMovementAt.value < polls[PULSE_COUNT - 1]
    ensures var polls, rs := Polls(arrivals), ReadingsIn(arrivals);
            var settled := PulseSettled(Through(armed, arrivals), clock, PLUG_STABLE_DURATION_S, timeoutS);
            if |polls| < PULSE_COUNT then !settled
            else
              var sent := polls[PULSE_COUNT - 1];
              settled <==> (|| clock - sent >= timeoutS
                            || exists i :: (&& LastMove(armed, rs, i) && rs[i].at >= sent
                                            && clock - rs[i].at >= PLUG_STABLE_DURATION_S))
  {
    hide Readings, Moves, Through;
    var rs := ReadingsIn(arrivals);
    BurstProgress(b, armed, delta, arrivals);
    MovementIsStamped(armed, rs);
    if i :| LastMove(armed, rs, i) {
      assert Readings(armed, rs).lastPlugMovementAt == Some(rs[i].at);
    }
  }

  /** A tick may arm new bursts exactly when every battery is settled or on a
      muted circuit. */
  lemma GateOpensIff(bats: Batteries, circuits: Circuits, cfg: DispatcherConfig, now: Time, clock: Time)
    ensures AllSettled(bats, circuits, cfg, now, clock)
       <==> forall id :: id in bats ==>
              || PulseSettled(bats[id], clock, PLUG_STABLE_DURATION_S, cfg.settleTimeoutS)
              || (&& bats[id].circuit in circuits && circuits[bats[id].circuit].silentUntil.Some?
                  && circuits[bats[id].circuit].silentUntil.value > now)
  {
  }

  // ------------------------------------------------------------------
  // The verdict
  // ------------------------------------------------------------------

  /** A burst is out completely and everything needed to judge it is known. */
  predicate Judgeable(b: Battery) {
    && b.pulseRemaining == 0 && b.lastPulseDeltaW.Some? && b.lastPulseCompletedAt.Some?
    && b.plugWAtPulseSend.Some? && b.lastPlugW.Some?
  }

  /** The plug is at least the stability band away from where the burst found it. */
  predicate HasMoved(b: Battery)
    requires Judgeable(b)
  {
    || b.lastPlugW.value >= b.plugWAtPulseSend.value + PLUG_STABLE_W
    || b.lastPlugW.value <= b.plugWAtPulseSend.value - PLUG_STABLE_W
  }

  /** What a tick makes of the locks of any battery, in any state. */
  lemma LocksFollowThePlug(bats: Batteries, cfg: DispatcherConfig, now: Time, id: Id)
    requires id in bats
    ensures var b, after := bats[id], DetectAll(bats, cfg, now)[id];
            && after == b.(lastPulseDeltaW := after.lastPulseDeltaW, chargeLockedUntil := after.chargeLockedUntil,
                           dischargeLockedUntil := after.dischargeLockedUntil)
            && if !Judgeable(b) then after == b
               else
                 var delta := b.lastPulseDeltaW.value;
                 var refused := (&& !HasMoved(b) && !(-WRITE_DEADBAND_W < delta < WRITE_DEADBAND_W)
                                 && now >= b.lastPulseCompletedAt.value + cfg.settleTimeoutS);
                 && after.chargeLockedUntil == (if delta < 0.0 && refused then Some(now + SOC_UNKNOWN_LOCKOUT_S)
                                                else if delta < 0.0 && HasMoved(b) then None
                                                else b.chargeLockedUntil)
                 && after.dischargeLockedUntil == (if delta > 0.0 && refused then Some(now + SOC_UNKNOWN_LOCKOUT_S)
                                                   else if delta > 0.0 && HasMoved(b) then None
                                                   else b.dischargeLockedUntil)
                 && after.lastPulseDeltaW == (if HasMoved(b) || refused || -WRITE_DEADBAND_W < delta < WRITE_DEADBAND_W
                                              then None else b.lastPulseDeltaW)
  {
  }

  /** Main result, from arming to verdict: the tick at `now` locks a direction
      exactly when the burst pushed that way, all of its samples were polled,
      the plug still reads within the stability band of what it read when the
      burst was armed, and the settle timeout has passed since the last sample.
      It unlocks a direction exactly when the burst pushed that way, is out, and
      the plug has moved. Otherwise it changes nothing at all. */
  lemma BurstVerdict(bats: Batteries, circuits: Circuits, deltas: map<Id, real>, armedAt: Time,
                     arrivals: seq<Arrival>, cfg: DispatcherConfig, now: Time, id: Id)
    requires id in bats && id in deltas && bats[id].lastPlugW.Some?
    requires JustArmed(QueueAll(bats, circuits, deltas, armedAt)[id], bats[id], deltas[id])
    requires Abs(deltas[id]) >= WRITE_DEADBAND_W
    ensures var b, delta, polls := bats[id], deltas[id], Polls(arrivals);
            var before := Through(QueueAll(bats, circuits, deltas, armedAt)[id], arrivals);
            var after := DetectAll(map[id := before], cfg, now)[id];
            var out := |polls| >= PULSE_COUNT;
            var still := Abs(PlugAfter(b, arrivals).value - b.lastPlugW.value) < PLUG_STABLE_W;
            var refused := out && still && now - polls[PULSE_COUNT - 1] >= cfg.settleTimeoutS;
            var honoured := out && !still;
            && after.chargeLockedUntil == (if delta < 0.0 && refused then Some(now + SOC_UNKNOWN_LOCKOUT_S)
                                           else if delta < 0.0 && honoured then None
                                           else b.chargeLockedUntil)
            && after.dischargeLockedUntil == (if delta > 0.0 && refused then Some(now + SOC_UNKNOWN_LOCKOUT_S)
                                              else if delta > 0.0 && honoured then None
                                              else b.dischargeLockedUntil)
            && (!refused && !honoured ==> after == before)
            && (after.lastPulseDeltaW.None? <==> refused || honoured)
  {
    hide QueueAll, Through, DetectAll, Polls;
    var armed := QueueAll(bats, circuits, deltas, armedAt)[id];
    BurstProgress(bats[id], armed, deltas[id], arrivals);
    LocksFollowThePlug(map[id := Through(armed, arrivals)], cfg, now, id);
  }

  /** A direction locked that way is out of the allocator's reach until the lock
      expires: no bound and no weight lets it in. The other one is untouched. */
  lemma RefusalShutsDirection(bats: Batteries, cfg: DispatcherConfig, now: Time, later: Time, id: Id)
    requires id in bats && Judgeable(bats[id]) && !HasMoved(bats[id]) && later < now + SOC_UNKNOWN_LOCKOUT_S
    requires Abs(bats[id].lastPulseDeltaW.value) >= WRITE_DEADBAND_W
    requires now - bats[id].lastPulseCompletedAt.value >= cfg.settleTimeoutS
    ensures var b, after := bats[id], DetectAll(bats, cfg, now)[id];
            var charging := b.lastPulseDeltaW.value < 0.0;
            && Demand.WeightOf(after, cfg, later, charging) == 0.0
            && (if charging then LowBound(after, cfg, later) == 0.0 else HighBound(after, cfg, later) == 0.0)
            && Demand.WeightOf(after, cfg, later, !charging) == Demand.WeightOf(b, cfg, later, !charging)
            && (if charging then HighBound(after, cfg, later) == HighBound(b, cfg, later)
                else LowBound(after, cfg, later) == LowBound(b, cfg, later))
  {
    hide Demand.Product;
  }
}
