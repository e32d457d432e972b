/** Runtime state of the dispatcher: one record per battery, one per circuit.
    Positive watts discharge the battery, negative watts charge it. */
module State {
  import opened Prelude
  import opened Config

  datatype Battery = Battery(
    circuit: Id,
    maxChargeW: real,
    maxDischargeW: real,
    capacityWh: real,
    priorityWeight: real,
    socFullPct: Option<real>,
    socEmptyPct: Option<real>,
    chargeTaperSocPct: Option<real>,
    chargeTaperW: Option<real>,
    dischargeTaperSocPct: Option<real>,
    dischargeTaperW: Option<real>,
    // a Modbus writer task exists: `modbus_host` is configured
    hasWriter: bool,
    // pulse protocol
    pendingPulseW: real,
    pulseRemaining: nat,
    plugWAtPulseSend: Option<real>,
    lastPulseCompletedAt: Option<Time>,
    lastPulseDeltaW: Option<real>,
    // plug readings
    lastPlugW: Option<real>,
    lastPlugAt: Option<Time>,
    lastPlugMovementAt: Option<Time>,
    plugRelayState: Option<bool>,
    plugCutUntil: Option<Time>,
    plugOverheadWSmoothed: Option<real>,
    // telemetry
    socPct: Option<real>,
    chargeLockedUntil: Option<Time>,
    dischargeLockedUntil: Option<Time>,
    lastModbusSetpointW: Option<real>,
    bmsFullPct: Option<real>,
    bmsEmptyPct: Option<real>)

  datatype Circuit = Circuit(
    config: CircuitConfig,
    memberIds: seq<Id>,
    silentUntil: Option<Time>,
    overloadStartedAt: Option<Time>,
    softRemediationStartedAt: Option<Time>)

  type Batteries = map<Id, Battery>
  type Circuits = map<Id, Circuit>

  // ------------------------------------------------------------------
  // Limits of one battery
  // ------------------------------------------------------------------

  /** Per-battery override, then the BMS, then the dispatcher default. */
  function EffectiveSocFullPct(b: Battery, fallback: real): real {
    if b.socFullPct.Some? then b.socFullPct.value else b.bmsFullPct.GetOr(fallback)
  }

  function EffectiveSocEmptyPct(b: Battery, fallback: real): real {
    if b.socEmptyPct.Some? then b.socEmptyPct.value else b.bmsEmptyPct.GetOr(fallback)
  }

  function EffectiveMaxChargeW(b: Battery): real {
    match (b.socPct, b.chargeTaperSocPct, b.chargeTaperW)
    case (Some(soc), Some(taperSoc), Some(taperW)) => if soc >= taperSoc then taperW else b.maxChargeW
    case _ => b.maxChargeW
  }

  function EffectiveMaxDischargeW(b: Battery): real {
    match (b.socPct, b.dischargeTaperSocPct, b.dischargeTaperW)
    case (Some(soc), Some(taperSoc), Some(taperW)) => if soc <= taperSoc then taperW else b.maxDischargeW
    case _ => b.maxDischargeW
  }

  predicate IsChargeLocked(b: Battery, now: Time) {
    Pending(b.chargeLockedUntil, now)
  }

  predicate IsDischargeLocked(b: Battery, now: Time) {
    Pending(b.dischargeLockedUntil, now)
  }

  function HighBound(b: Battery, cfg: DispatcherConfig, now: Time): real {
    if IsDischargeLocked(b, now) then 0.0
    else if b.socPct.Some? && b.socPct.value <= EffectiveSocEmptyPct(b, cfg.socEmptyPct) then 0.0
    else EffectiveMaxDischargeW(b)
  }

  function LowBound(b: Battery, cfg: DispatcherConfig, now: Time): real {
    if IsChargeLocked(b, now) then 0.0
    else if b.socPct.Some? && b.socPct.value >= EffectiveSocFullPct(b, cfg.socFullPct) then 0.0
    else -EffectiveMaxChargeW(b)
  }

  predicate IsPlugFresh(b: Battery, now: Time, staleS: real) {
    b.lastPlugAt.Some? && now - b.lastPlugAt.value <= staleS
  }

  /** The plug relay was opened, and the battery is not due back yet. */
  predicate IsCut(b: Battery, now: Time) {
    Pending(b.plugCutUntil, now)
  }

  predicate Muted(circuits: Circuits, circuit: Id, now: Time) {
    circuit in circuits && Pending(circuits[circuit].silentUntil, now)
  }

  /** What validation leaves true of a battery's limits. */
  predicate LimitsOk(b: Battery) {
    && b.maxChargeW >= 0.0 && b.maxDischargeW >= 0.0 && b.priorityWeight > 0.0
    && (b.chargeTaperW.Some? ==> 0.0 < b.chargeTaperW.value < b.maxChargeW)
    && (b.dischargeTaperW.Some? ==> 0.0 < b.dischargeTaperW.value < b.maxDischargeW)
  }

  lemma BoundsOrdered(b: Battery, cfg: DispatcherConfig, now: Time)
    requires LimitsOk(b)
    ensures -b.maxChargeW <= LowBound(b, cfg, now) <= 0.0 <= HighBound(b, cfg, now) <= b.maxDischargeW
  {
  }

  // ------------------------------------------------------------------
  // Topology
  // ------------------------------------------------------------------

  ghost predicate Distinct(s: seq<Id>) {
    forall i, j :: 0 <= i < j < |s| ==> s[i] != s[j]
  }

  ghost predicate Homed(id: Id, b: Battery, circuits: Circuits) {
    && b.circuit in circuits
    && id in circuits[b.circuit].memberIds
    && LimitsOk(b)
    && Max(b.maxChargeW, b.maxDischargeW) <= CapW(circuits[b.circuit].config)
  }

  /** The circuits partition the batteries, and each battery fits under the
      cap of its circuit on its own. */
  ghost predicate WellFormed(batteries: Batteries, circuits: Circuits) {
    && (forall c :: c in circuits ==> Distinct(circuits[c].memberIds))
    && (forall c, m :: c in circuits && m in circuits[c].memberIds ==> m in batteries && batteries[m].circuit == c)
    && (forall id :: id in batteries ==> Homed(id, batteries[id], circuits))
  }

  function IdSet(ids: seq<Id>): set<Id> {
    set m | m in ids
  }

  function Members(c: Circuit): set<Id> {
    IdSet(c.memberIds)
  }

  lemma PopulatedCapIsNonNegative(batteries: Batteries, circuits: Circuits, c: Id)
    requires WellFormed(batteries, circuits) && c in circuits && circuits[c].memberIds != []
    ensures CapW(circuits[c].config) >= 0.0
  {
    hide CapW;
    var m := circuits[c].memberIds[0];
    assert m in batteries;
  }

  // ------------------------------------------------------------------
  // Start-up
  // ------------------------------------------------------------------

  function FreshBattery(b: BatteryConfig): Battery {
    Battery(
      b.circuit, b.maxChargeW, b.maxDischargeW,
      if b.capacityWh > 0.0 then b.capacityWh else b.maxChargeW + b.maxDischargeW,
      b.priorityWeight, b.socFullPct, b.socEmptyPct,
      b.chargeTaperSocPct, b.chargeTaperW, b.dischargeTaperSocPct, b.dischargeTaperW, b.modbusHost.Some?,
      0.0, 0, None, None, None,
      None, None, None, None, None, None,
      None, None, None, None, None, None)
  }

  class AppState {
    var batteries: Batteries
    var circuits: Circuits
    var byAddr: map<Address, Id>
    var byUnitId: map<nat, Id>

    /** `AppState::from_config`. On a validated configuration the circuits
        partition the batteries, and addresses and unit ids route one to one. */
    constructor (cfg: Config)
      ensures ValidConfig(cfg) ==> WellFormed(batteries, circuits)
      ensures batteries.Keys == set i | 0 <= i < |cfg.batteries| :: cfg.batteries[i].id
      ensures circuits.Keys == set i | 0 <= i < |cfg.circuits| :: cfg.circuits[i].id
      ensures DistinctBatteries(cfg.batteries)
        ==> forall i :: 0 <= i < |cfg.batteries| ==> batteries[cfg.batteries[i].id] == FreshBattery(cfg.batteries[i])
      ensures DistinctAddresses(cfg.batteries)
        ==> forall i :: 0 <= i < |cfg.batteries| ==> Located(cfg.batteries[i], byAddr)
      ensures DistinctUnits(cfg.batteries)
        ==> forall i :: 0 <= i < |cfg.batteries| ==> Routed(cfg.batteries, byUnitId, i)
    {
      hide FreshBattery, CapW, MembersOf, Routed, Located;
      var bs, addrs, units := LoadBatteries(cfg.batteries);
      var cs := LoadCircuits(cfg);
      batteries, circuits, byAddr, byUnitId := bs, cs, addrs, units;
      new;
      if ValidConfig(cfg) {
        StartUpIsWellFormed(cfg, bs, cs);
      }
    }
  }

  method LoadBatteries(bs: seq<BatteryConfig>)
    returns (batteries: Batteries, addrs: map<Address, Id>, units: map<nat, Id>)
    ensures batteries.Keys == set i | 0 <= i < |bs| :: bs[i].id
    ensures DistinctBatteries(bs) ==> forall i :: 0 <= i < |bs| ==> batteries[bs[i].id] == FreshBattery(bs[i])
    ensures DistinctAddresses(bs) ==> forall i :: 0 <= i < |bs| ==> Located(bs[i], addrs)
    ensures DistinctUnits(bs) ==> forall i :: 0 <= i < |bs| ==> Routed(bs, units, i)
  {
    hide FreshBattery;
    batteries, addrs, units := map[], map[], map[];
    for i := 0 to |bs|
      invariant batteries.Keys == set j | 0 <= j < i :: bs[j].id
      invariant DistinctBatteries(bs) ==> forall j :: 0 <= j < i ==> batteries[bs[j].id] == FreshBattery(bs[j])
      invariant DistinctAddresses(bs) ==> forall j :: 0 <= j < i ==> Located(bs[j], addrs)
      invariant DistinctUnits(bs) ==> forall j :: 0 <= j < i ==> Routed(bs, units, j)
    {
      addrs := addrs[bs[i].address := bs[i].id];
      ghost var before := units;
      units := units[bs[i].EffectiveVirtualUnitId(i) := bs[i].id];
      if DistinctUnits(bs) {
        forall j | 0 <= j < i
          ensures Routed(bs, units, j)
        {
          assert Routed(bs, before, j);
          assert bs[j].EffectiveVirtualUnitId(j) != bs[i].EffectiveVirtualUnitId(i);
        }
      }
      batteries := batteries[bs[i].id := FreshBattery(bs[i])];
    }
  }

  /** Polls from the address of the battery reach it. */
  predicate Located(b: BatteryConfig, addrs: map<Address, Id>) {
    b.address in addrs && addrs[b.address] == b.id
  }

  /** Requests for the unit id of battery i reach battery i. */
  predicate Routed(bs: seq<BatteryConfig>, units: map<nat, Id>, i: nat)
    requires i < |bs|
  {
    var unit := bs[i].EffectiveVirtualUnitId(i);
    unit in units && units[unit] == bs[i].id
  }

  method LoadCircuits(cfg: Config) returns (cs: Circuits)
    ensures cs.Keys == set j | 0 <= j < |cfg.circuits| :: cfg.circuits[j].id
    ensures DistinctCircuits(cfg.circuits)
      ==> forall j :: 0 <= j < |cfg.circuits| ==> cs[cfg.circuits[j].id].config == cfg.circuits[j]
    ensures forall c :: c in cs ==> MembersOf(cfg.batteries, c, cs[c].memberIds)
  {
    hide MembersOf;
    cs := map[];
    for i := 0 to |cfg.circuits|
      invariant cs.Keys == set j | 0 <= j < i :: cfg.circuits[j].id
      invariant DistinctCircuits(cfg.circuits)
        ==> forall j :: 0 <= j < i ==> cs[cfg.circuits[j].id].config == cfg.circuits[j]
      invariant forall c :: c in cs ==> MembersOf(cfg.batteries, c, cs[c].memberIds)
    {
      var members := CollectMembers(cfg.batteries, cfg.circuits[i].id);
      cs := cs[cfg.circuits[i].id := Circuit(cfg.circuits[i], members, None, None, None)];
    }
  }

  /** The ids of the batteries configured on circuit `c`, in file order. */
  ghost predicate MembersOf(bs: seq<BatteryConfig>, c: Id, ids: seq<Id>) {
    && (DistinctBatteries(bs) ==> Distinct(ids))
    && (forall m :: m in ids ==> exists i :: 0 <= i < |bs| && bs[i].id == m && bs[i].circuit == c)
    && (forall i :: 0 <= i < |bs| && bs[i].circuit == c ==> bs[i].id in ids)
  }

  method CollectMembers(bs: seq<BatteryConfig>, c: Id) returns (ids: seq<Id>)
    ensures MembersOf(bs, c, ids)
  {
    ids := [];
    for i := 0 to |bs|
      invariant forall m :: m in ids ==> exists j :: 0 <= j < i && bs[j].id == m && bs[j].circuit == c
      invariant forall j :: 0 <= j < i && bs[j].circuit == c ==> bs[j].id in ids
      invariant DistinctBatteries(bs) ==> Distinct(ids)
    {
      if bs[i].circuit == c {
        assert DistinctBatteries(bs) ==> bs[i].id !in ids;
        ids := ids + [bs[i].id];
      }
    }
  }

  lemma FreshLimitsOk(b: BatteryConfig, cap: real, d: DispatcherConfig)
    requires BatteryOk(b, cap, d)
    ensures LimitsOk(FreshBattery(b)) && FreshBattery(b).circuit == b.circuit
    ensures Max(FreshBattery(b).maxChargeW, FreshBattery(b).maxDischargeW) <= cap
  {
  }

  lemma StartUpIsWellFormed(cfg: Config, bs: Batteries, cs: Circuits)
    requires ValidConfig(cfg)
    requires bs.Keys == set j | 0 <= j < |cfg.batteries| :: cfg.batteries[j].id
    requires forall j :: 0 <= j < |cfg.batteries| ==> bs[cfg.batteries[j].id] == FreshBattery(cfg.batteries[j])
    requires cs.Keys == set j | 0 <= j < |cfg.circuits| :: cfg.circuits[j].id
    requires forall j :: 0 <= j < |cfg.circuits| ==> cs[cfg.circuits[j].id].config == cfg.circuits[j]
    requires forall c :: c in cs ==> MembersOf(cfg.batteries, c, cs[c].memberIds)
    ensures WellFormed(bs, cs)
  {
    hide FreshBattery, CapW, BatteryOk, LimitsOk, CircuitOk, DispatcherOk, DistinctUnits, DistinctAddresses;
    hide VirtualModbusOk;
    forall i | 0 <= i < |cfg.batteries|
      ensures bs[cfg.batteries[i].id].circuit == cfg.batteries[i].circuit
      ensures Homed(cfg.batteries[i].id, bs[cfg.batteries[i].id], cs)
    {
      assert Placed(cfg.batteries[i], cfg);
      var k :| 0 <= k < |cfg.circuits| && cfg.circuits[k].id == cfg.batteries[i].circuit
        && BatteryOk(cfg.batteries[i], CapW(cfg.circuits[k]), cfg.dispatcher);
      FreshLimitsOk(cfg.batteries[i], CapW(cfg.circuits[k]), cfg.dispatcher);
    }
  }
}
