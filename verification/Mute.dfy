/** `update_circuit_mute`: a circuit with a stale plug, or every circuit when
    the grid reading is stale, falls silent. */
module Mute {
  import opened Prelude
  import opened Config
  import opened State

  predicate GridFresh(gridAt: Option<Time>, cfg: DispatcherConfig, now: Time) {
    gridAt.Some? && now - gridAt.value <= cfg.gridStaleS
  }

  predicate AnyPlugStale(c: Circuit, bats: Batteries, cfg: DispatcherConfig, now: Time) {
    exists m :: m in c.memberIds && (m in bats ==> !IsPlugFresh(bats[m], now, cfg.plugStaleS))
  }

  predicate Stale(c: Circuit, bats: Batteries, cfg: DispatcherConfig, gridAt: Option<Time>, now: Time) {
    AnyPlugStale(c, bats, cfg, now) || !GridFresh(gridAt, cfg, now)
  }

  /** Cool-down after staleness; Modbus mode has none. */
  function Silence(cfg: DispatcherConfig): real {
    match cfg.mode
    case Pulse => GROUP_SILENT_AFTER_STALE_S
    case Modbus => 0.0
  }

  function NextSilentUntil(prev: Option<Time>, stale: bool, now: Time, silence: real): Option<Time> {
    if stale then
      if prev.Some? && prev.value > now + silence then prev else Some(now + silence)
    else if prev.Some? && prev.value <= now then None
    else prev
  }

  function MuteOne(c: Circuit, bats: Batteries, cfg: DispatcherConfig, gridAt: Option<Time>, now: Time): Circuit {
    c.(silentUntil := NextSilentUntil(c.silentUntil, Stale(c, bats, cfg, gridAt, now), now, Silence(cfg)))
  }

  function MuteAll(circuits: Circuits, bats: Batteries, cfg: DispatcherConfig, gridAt: Option<Time>, now: Time):
      (muted: Circuits)
    ensures muted.Keys == circuits.Keys
  {
    map c | c in circuits :: MuteOne(circuits[c], bats, cfg, gridAt, now)
  }

  /** The body of the loop in `update_circuit_mute`. */
  method MuteCircuit(c: Circuit, bats: Batteries, cfg: DispatcherConfig, gridAt: Option<Time>, now: Time,
                     gridFresh: bool, silence: real)
    returns (cs: Circuit)
    requires gridFresh == GridFresh(gridAt, cfg, now) && silence == Silence(cfg)
    ensures cs == MuteOne(c, bats, cfg, gridAt, now)
  {
    cs := c;
    var needsSilence := AnyPlugStale(cs, bats, cfg, now) || !gridFresh;
    if needsSilence {
      var target := now + silence;
      if !(cs.silentUntil.Some? && cs.silentUntil.value > target) {
        cs := cs.(silentUntil := Some(target));
      }
    } else if cs.silentUntil.Some? {
      if cs.silentUntil.value <= now {
        cs := cs.(silentUntil := None);
      }
    }
  }

  /** `update_circuit_mute`; reports whether the grid reading can be used. */
  method UpdateCircuitMute(state: AppState, cfg: DispatcherConfig, gridAt: Option<Time>, now: Time)
    returns (gridFresh: bool)
    modifies state`circuits
    ensures state.circuits == MuteAll(old(state.circuits), state.batteries, cfg, gridAt, now)
    ensures gridFresh == GridFresh(gridAt, cfg, now)
  {
    hide MuteOne, Silence, GridFresh;
    var silence := Silence(cfg);
    gridFresh := GridFresh(gridAt, cfg, now);
    var todo := state.circuits.Keys;
    while todo != {}
      invariant todo <= state.circuits.Keys == old(state.circuits).Keys
      invariant forall c :: c in state.circuits ==>
        state.circuits[c] == if c in todo then old(state.circuits)[c]
                             else MuteOne(old(state.circuits)[c], state.batteries, cfg, gridAt, now)
      decreases todo
    {
      var c :| c in todo;
      var cs := MuteCircuit(state.circuits[c], state.batteries, cfg, gridAt, now, gridFresh, silence);
      state.circuits := state.circuits[c := cs];
      todo := todo - {c};
    }
  }

  /** The deadline only grows, until a fresh tick at or after it clears it. */
  lemma SilenceOnlyGrows(prev: Option<Time>, stale: bool, now: Time, silence: real)
    requires silence >= 0.0 && prev.Some?
    ensures var next := NextSilentUntil(prev, stale, now, silence);
            && (next.None? <==> !stale && prev.value <= now)
            && (next.Some? ==> next.value >= prev.value && (stale ==> next.value >= now + silence))
  {
  }

  /** In Modbus mode staleness never mutes anything, not even for the current
      cycle: the deadline it sets is `now`, and only a later one counts. */
  lemma ModbusNeverMutes(circuits: Circuits, bats: Batteries, cfg: DispatcherConfig, gridAt: Option<Time>, now: Time,
                         later: Time)
    requires cfg.mode == Modbus && now <= later
    requires forall c :: c in circuits ==> !Pending(circuits[c].silentUntil, now)
    ensures forall c :: !Muted(MuteAll(circuits, bats, cfg, gridAt, now), c, later)
  {
    forall c | c in circuits
      ensures !Pending(MuteOne(circuits[c], bats, cfg, gridAt, now).silentUntil, later)
    {
    }
  }
}
