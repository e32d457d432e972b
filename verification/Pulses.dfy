/** The pulse protocol on one battery and over the whole state: arming a burst,
    draining it poll by poll, deciding whether it landed, and the global gate. */
module Pulses {
  import opened Prelude
  import opened Config
  import opened State

  // ------------------------------------------------------------------
  // One battery
  // ------------------------------------------------------------------

  /** No burst in flight, and the plug moved since the last one and then held
      still, or the settle timeout passed. */
  predicate PulseSettled(b: Battery, clock: Time, stableS: real, timeoutS: real) {
    && b.pulseRemaining == 0
    && (|| b.lastPulseCompletedAt.None?
        || clock - b.lastPulseCompletedAt.value >= timeoutS
        || (&& b.lastPlugMovementAt.Some?
            && b.lastPlugMovementAt.value >= b.lastPulseCompletedAt.value
            && clock - b.lastPlugMovementAt.value >= stableS))
  }

  /** A muted circuit loses its pending burst and its settle bookkeeping. */
  function Dropped(b: Battery): Battery {
    b.(pendingPulseW := 0.0, pulseRemaining := 0, plugWAtPulseSend := None, lastPulseCompletedAt := None,
       lastPulseDeltaW := None)
  }

  function Armed(b: Battery, delta: real): Battery {
    b.(pendingPulseW := delta, pulseRemaining := PULSE_COUNT, plugWAtPulseSend := b.lastPlugW,
       lastPulseCompletedAt := None, lastPulseDeltaW := Some(delta))
  }

  function QueueOne(b: Battery, silent: bool, delta: real): Battery {
    if silent then Dropped(b)
    else if Abs(delta) < WRITE_DEADBAND_W then b
    else Armed(b, delta)
  }

  /** One CT sample goes out with the answer to a poll. */
  function DrainOne(b: Battery, now: Time): Battery {
    if b.pulseRemaining == 0 then b
    else if b.pulseRemaining == 1 then
      b.(pulseRemaining := 0, pendingPulseW := 0.0, lastPulseCompletedAt := Some(now))
    else b.(pulseRemaining := b.pulseRemaining - 1)
  }

  function SampleOf(b: Battery): real {
    if b.pulseRemaining > 0 then b.pendingPulseW else 0.0
  }

  datatype Outcome = Undecided | Landed | TooSmall | Refused

  /** What became of the last burst. */
  function OutcomeOf(b: Battery, cfg: DispatcherConfig, now: Time): Outcome {
    if b.pulseRemaining > 0 || b.lastPulseDeltaW.None? || b.lastPulseCompletedAt.None?
       || b.plugWAtPulseSend.None? || b.lastPlugW.None? then Undecided
    else if Abs(b.lastPlugW.value - b.plugWAtPulseSend.value) >= PLUG_STABLE_W then Landed
    else if Abs(b.lastPulseDeltaW.value) < WRITE_DEADBAND_W then TooSmall
    else if now - b.lastPulseCompletedAt.value < cfg.settleTimeoutS then Undecided
    else Refused
  }

  function DetectOne(b: Battery, cfg: DispatcherConfig, now: Time): Battery {
    match OutcomeOf(b, cfg, now)
    case Undecided => b
    case TooSmall => b.(lastPulseDeltaW := None)
    case Landed =>
      var delta := b.lastPulseDeltaW.value;
      b.(lastPulseDeltaW := None,
         chargeLockedUntil := if delta < 0.0 then None else b.chargeLockedUntil,
         dischargeLockedUntil := if delta > 0.0 then None else b.dischargeLockedUntil)
    case Refused =>
      var delta, until := b.lastPulseDeltaW.value, Some(now + SOC_UNKNOWN_LOCKOUT_S);
      b.(lastPulseDeltaW := None,
         chargeLockedUntil := if delta < 0.0 then until else b.chargeLockedUntil,
         dischargeLockedUntil := if delta < 0.0 then b.dischargeLockedUntil else until)
  }

  /** EMA of plug minus command, fed only by meaningful commands that the plug
      follows in direction. Negation carries a zero's sign along, so the signed
      reading of a plug at 0 W has the sign of a charge. */
  function OverheadAfter(b: Battery, apower: real): Option<real> {
    if b.lastModbusSetpointW.Some? && Abs(b.lastModbusSetpointW.value) >= MARSTEK_MIN_W
       && -Signum(apower) == Signum(b.lastModbusSetpointW.value) then
      var instant := -apower - b.lastModbusSetpointW.value;
      Some(if b.plugOverheadWSmoothed.Some? then 0.3 * instant + 0.7 * b.plugOverheadWSmoothed.value else instant)
    else b.plugOverheadWSmoothed
  }

  /** A successful plug reading; `apower` is positive into the load. */
  function IngestOne(b: Battery, apower: real, relayOn: Option<bool>, now: Time): Battery {
    var signedW := -apower;
    var moved := b.lastPlugW.None? || Abs(signedW - b.lastPlugW.value) > PLUG_STABLE_W;
    b.(lastPlugMovementAt := if moved then Some(now) else b.lastPlugMovementAt,
       lastPlugW := Some(signedW), lastPlugAt := Some(now), plugRelayState := relayOn,
       plugOverheadWSmoothed := OverheadAfter(b, apower))
  }

  // ------------------------------------------------------------------
  // The whole state
  // ------------------------------------------------------------------

  function QueueAll(bats: Batteries, circuits: Circuits, deltas: map<Id, real>, now: Time): (next: Batteries)
    ensures next.Keys == bats.Keys
  {
    map id | id in bats ::
      QueueOne(bats[id], Muted(circuits, bats[id].circuit, now), if id in deltas then deltas[id] else 0.0)
  }

  function DetectAll(bats: Batteries, cfg: DispatcherConfig, now: Time): (next: Batteries)
    ensures next.Keys == bats.Keys
  {
    map id | id in bats :: DetectOne(bats[id], cfg, now)
  }

  /** Every battery on an audible circuit is settled. */
  predicate AllSettled(bats: Batteries, circuits: Circuits, cfg: DispatcherConfig, now: Time, clock: Time) {
    forall id :: id in bats && !Muted(circuits, bats[id].circuit, now) ==>
      PulseSettled(bats[id], clock, PLUG_STABLE_DURATION_S, cfg.settleTimeoutS)
  }

  /** The body of the loop in `queue_pulses`, with its early exits. */
  method QueueBattery(b: Battery, silent: bool, deltas: map<Id, real>, id: Id) returns (r: Battery)
    ensures r == QueueOne(b, silent, if id in deltas then deltas[id] else 0.0)
  {
    if silent {
      return b.(pendingPulseW := 0.0, pulseRemaining := 0, plugWAtPulseSend := None, lastPulseCompletedAt := None,
                lastPulseDeltaW := None);
    }
    var delta := if id in deltas then deltas[id] else 0.0;
    if Abs(delta) < WRITE_DEADBAND_W {
      return b;
    }
    r := b.(pendingPulseW := delta, pulseRemaining := PULSE_COUNT);
    r := r.(plugWAtPulseSend := r.lastPlugW, lastPulseCompletedAt := None, lastPulseDeltaW := Some(delta));
  }

  method QueuePulses(state: AppState, deltas: map<Id, real>, now: Time)
    modifies state`batteries
    ensures state.batteries == QueueAll(old(state.batteries), state.circuits, deltas, now)
  {
    hide QueueOne, Muted;
    var todo := state.batteries.Keys;
    while todo != {}
      invariant todo <= state.batteries.Keys == old(state.batteries).Keys
      invariant forall id :: id in state.batteries ==>
        state.batteries[id] == if id in todo then old(state.batteries)[id]
                               else QueueAll(old(state.batteries), state.circuits, deltas, now)[id]
      decreases todo
    {
      var id :| id in todo;
      var b := state.batteries[id];
      b := QueueBattery(b, Muted(state.circuits, b.circuit, now), deltas, id);
      state.batteries := state.batteries[id := b];
      todo := todo - {id};
    }
  }

  /** The body of the loop in `detect_pulse_outcomes`, with its early exits. */
  method DetectBattery(b: Battery, cfg: DispatcherConfig, now: Time) returns (r: Battery)
    ensures r == DetectOne(b, cfg, now)
  {
    r := b;
    if b.pulseRemaining > 0 || b.lastPulseDeltaW.None? || b.lastPulseCompletedAt.None? || b.plugWAtPulseSend.None?
       || b.lastPlugW.None? {
      return;
    }
    var delta := b.lastPulseDeltaW.value;
    var moved := Abs(b.lastPlugW.value - b.plugWAtPulseSend.value);
    if moved >= PLUG_STABLE_W {
      if delta < 0.0 {
        r := r.(chargeLockedUntil := None);
      } else if delta > 0.0 {
        r := r.(dischargeLockedUntil := None);
      }
    } else if Abs(delta) >= WRITE_DEADBAND_W {
      if now - b.lastPulseCompletedAt.value < cfg.settleTimeoutS {
        return;
      }
      var until := now + SOC_UNKNOWN_LOCKOUT_S;
      if delta < 0.0 {
        r := r.(chargeLockedUntil := Some(until));
      } else {
        r := r.(dischargeLockedUntil := Some(until));
      }
    }
    r := r.(lastPulseDeltaW := None);
  }

  method DetectPulseOutcomes(state: AppState, cfg: DispatcherConfig, now: Time)
    modifies state`batteries
    ensures state.batteries == DetectAll(old(state.batteries), cfg, now)
  {
    hide DetectOne;
    var todo := state.batteries.Keys;
    while todo != {}
      invariant todo <= state.batteries.Keys == old(state.batteries).Keys
      invariant forall id :: id in state.batteries ==>
        state.batteries[id] == if id in todo then old(state.batteries)[id]
                               else DetectOne(old(state.batteries)[id], cfg, now)
      decreases todo
    {
      var id :| id in todo;
      var b := DetectBattery(state.batteries[id], cfg, now);
      state.batteries := state.batteries[id := b];
      todo := todo - {id};
    }
  }

  method AnyPulseInFlight(state: AppState, cfg: DispatcherConfig, now: Time, clock: Time) returns (inFlight: bool)
    ensures inFlight <==> !AllSettled(state.batteries, state.circuits, cfg, now, clock)
  {
    inFlight := exists id :: (
      && id in state.batteries && !Muted(state.circuits, state.batteries[id].circuit, now)
      && !PulseSettled(state.batteries[id], clock, PLUG_STABLE_DURATION_S, cfg.settleTimeoutS));
  }

  /** The write-locked part of the poll handler. */
  method DrainPulse(state: AppState, id: Id, now: Time) returns (value: real)
    modifies state`batteries
    ensures value == if id in old(state.batteries) then SampleOf(old(state.batteries)[id]) else 0.0
    ensures state.batteries == if id in old(state.batteries)
                               then old(state.batteries)[id := DrainOne(old(state.batteries)[id], now)]
                               else old(state.batteries)
  {
    value := 0.0;
    if id in state.batteries {
      var b := state.batteries[id];
      if b.pulseRemaining > 0 {
        value := b.pendingPulseW;
        b := b.(pulseRemaining := b.pulseRemaining - 1);
        if b.pulseRemaining == 0 {
          b := b.(pendingPulseW := 0.0, lastPulseCompletedAt := Some(now));
        }
      }
      state.batteries := state.batteries[id := b];
    }
  }

  /** The poll handler: a muted battery gets no answer, an unknown peer 0 W, any
      other battery its next sample. */
  method HandlePoll(state: AppState, peer: Option<Id>, now: Time) returns (answer: Option<real>)
    modifies state`batteries
    ensures var bats := old(state.batteries);
            if peer.Some? && peer.value in bats then
              if Muted(state.circuits, bats[peer.value].circuit, now) then answer == None && state.batteries == bats
              else && answer == Some(SampleOf(bats[peer.value]))
                   && state.batteries == bats[peer.value := DrainOne(bats[peer.value], now)]
            else answer == Some(0.0) && state.batteries == bats
  {
    if peer.Some? && peer.value in state.batteries && Muted(state.circuits, state.batteries[peer.value].circuit, now) {
      return None;
    }
    var value := 0.0;
    if peer.Some? {
      value := DrainPulse(state, peer.value, now);
    }
    return Some(value);
  }

  /** The write-locked part of the plug poller. */
  method IngestPlug(state: AppState, id: Id, apower: real, relayOn: Option<bool>, now: Time)
    modifies state`batteries
    ensures state.batteries == if id in old(state.batteries)
                               then old(state.batteries)
                                      [id := IngestOne(old(state.batteries)[id], apower, relayOn, now)]
                               else old(state.batteries)
    ensures id in old(state.batteries) ==>
      && state.batteries[id].lastPlugW == Some(-apower) && state.batteries[id].lastPlugAt == Some(now)
      && state.batteries[id].plugRelayState == relayOn
  {
    if id in state.batteries {
      var b := state.batteries[id];
      var signedW := -apower;
      var moved := match b.lastPlugW
        case Some(prev) => Abs(signedW - prev) > PLUG_STABLE_W
        case None => true;
      if moved {
        b := b.(lastPlugMovementAt := Some(now));
      }
      b := b.(lastPlugW := Some(signedW), lastPlugAt := Some(now), plugRelayState := relayOn);
      if b.lastModbusSetpointW.Some? {
        var cmd := b.lastModbusSetpointW.value;
        if Abs(cmd) >= MARSTEK_MIN_W && -Signum(apower) == Signum(cmd) {
          var instant := signedW - cmd;
          var smoothed := match b.plugOverheadWSmoothed
            case Some(prev) => 0.3 * instant + 0.7 * prev
            case None => instant;
          b := b.(plugOverheadWSmoothed := Some(smoothed));
        }
      }
      state.batteries := state.batteries[id := b];
    }
  }
}
