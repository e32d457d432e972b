/** One Pulse-mode tick, `step_pulse`, as the sequence of lock sections it is. */
module PulseMode {
  import opened Prelude
  import opened Config
  import opened State
  import opened Mute
  import opened Pulses
  import opened Deltas


  lemma JudgedIsWellFormed(bats: Batteries, circuits: Circuits, cfg: DispatcherConfig, now: Time)
    requires WellFormed(bats, circuits)
    ensures WellFormed(DetectAll(bats, cfg, now), circuits)
  {
    hide CapW, DetectOne, LimitsOk;
    forall id | id in bats
      ensures Homed(id, DetectAll(bats, cfg, now)[id], circuits)
    {
      assert Homed(id, bats[id], circuits);
      DetectKeepsLimits(bats[id], cfg, now);
    }
  }

  lemma DetectKeepsLimits(b: Battery, cfg: DispatcherConfig, now: Time)
    ensures var r := DetectOne(b, cfg, now);
            && r.circuit == b.circuit && LimitsOk(r) == LimitsOk(b)
            && r.maxChargeW == b.maxChargeW && r.maxDischargeW == b.maxDischargeW
  {
  }

  lemma MutedIsWellFormed(bats: Batteries, circuits: Circuits, cfg: DispatcherConfig, gridAt: Option<Time>, now: Time)
    requires WellFormed(bats, circuits)
    ensures WellFormed(bats, MuteAll(circuits, bats, cfg, gridAt, now))
  {
    hide CapW, NextSilentUntil, LimitsOk;
    var muted := MuteAll(circuits, bats, cfg, gridAt, now);
    forall id | id in bats
      ensures Homed(id, bats[id], muted)
    {
      assert Homed(id, bats[id], circuits);
    }
  }

  /** Mute, judge the last bursts, hold back while one is in flight, and only
      then compute corrections and arm them. */
  method StepPulse(state: AppState, cfg: DispatcherConfig, gridAt: Option<Time>, gridW: real, now: Time, clock: Time)
    requires WellFormed(state.batteries, state.circuits)
    modifies state`batteries, state`circuits
    ensures WellFormed(state.batteries, state.circuits)
    ensures state.circuits == MuteAll(old(state.circuits), old(state.batteries), cfg, gridAt, now)
    ensures WellFormed(DetectAll(old(state.batteries), cfg, now), state.circuits)
    ensures !GridFresh(gridAt, cfg, now) ==> state.batteries == old(state.batteries)
    ensures var judged := DetectAll(old(state.batteries), cfg, now);
            GridFresh(gridAt, cfg, now) ==>
              state.batteries ==
                if AllSettled(judged, state.circuits, cfg, now, clock) then
                  QueueAll(judged, state.circuits, DeltasFor(judged, state.circuits, cfg, gridW, now), now)
                else judged
  {
    hide MuteAll, DetectAll, QueueAll, WellFormed, AllSettled, DeltasFor;
    MutedIsWellFormed(state.batteries, state.circuits, cfg, gridAt, now);
    var gridFresh := UpdateCircuitMute(state, cfg, gridAt, now);
    JudgedIsWellFormed(state.batteries, state.circuits, cfg, now);
    if !gridFresh {
      return;
    }
    DetectPulseOutcomes(state, cfg, now);
    var inFlight := AnyPulseInFlight(state, cfg, now, clock);
    if inFlight {
      return;
    }
    var deltas := ComputeDeltas(state.batteries, state.circuits, cfg, gridW, now);
    QueuedIsWellFormed(state.batteries, state.circuits, deltas, now);
    QueuePulses(state, deltas, now);
  }

  lemma QueuedIsWellFormed(bats: Batteries, circuits: Circuits, deltas: map<Id, real>, now: Time)
    requires WellFormed(bats, circuits)
    ensures WellFormed(QueueAll(bats, circuits, deltas, now), circuits)
  {
    hide CapW, LimitsOk, Muted;
    var next := QueueAll(bats, circuits, deltas, now);
    forall id | id in bats
      ensures Homed(id, next[id], circuits)
    {
      assert Homed(id, bats[id], circuits);
      QueueKeepsLimits(bats[id], Muted(circuits, bats[id].circuit, now), if id in deltas then deltas[id] else 0.0);
    }
  }

  lemma QueueKeepsLimits(b: Battery, silent: bool, delta: real)
    ensures var r := QueueOne(b, silent, delta);
            && r.circuit == b.circuit && LimitsOk(r) == LimitsOk(b)
            && r.maxChargeW == b.maxChargeW && r.maxDischargeW == b.maxDischargeW
  {
  }
}
