/** The part of the configuration that drives dispatch: hard-coded constants,
    the dispatcher knobs, circuits and batteries, and the start-up validation. */
module Config {
  import opened Prelude

  const SAFETY_MARGIN_W := 10.0
  const WRITE_DEADBAND_W := 25.0
  const MARSTEK_MIN_W := 50.0
  const PULSE_COUNT: nat := 3
  const PLUG_STABLE_W := 10.0
  const PLUG_STABLE_DURATION_S := 3.0
  const GROUP_SILENT_AFTER_STALE_S := 60.0
  const SOC_UNKNOWN_LOCKOUT_S := 600.0
  const MODBUS_WRITE_RETRIES: nat := 2
  const EMERGENCY_CUTOFF_GRACE_S := 5.0
  const EMERGENCY_SOFT_REMEDIATION_GRACE_S := 10.0
  const EMERGENCY_CUTOFF_RECOVERY_S := 600.0

  datatype DispatchMode = Modbus | Pulse

  datatype DispatcherConfig = DispatcherConfig(
    mode: DispatchMode,
    rateLimitWPerCycle: real,
    socFullPct: real,
    socEmptyPct: real,
    plugStaleS: real,
    gridStaleS: real,
    settleTimeoutS: real,
    emergencyCutoffMarginW: real,
    cycleMs: nat,
    nightCutoffEnabled: bool)

  datatype CircuitConfig = CircuitConfig(id: Id, fuseAmps: real, voltage: real, phases: nat)

  function CapW(c: CircuitConfig): real {
    c.fuseAmps * c.voltage * c.phases as real
  }

  /** An IP address, as parsed. */
  type Address = string

  datatype BatteryConfig = BatteryConfig(
    id: Id,
    address: Address,
    circuit: Id,
    maxChargeW: real,
    maxDischargeW: real,
    capacityWh: real,
    priorityWeight: real,
    socFullPct: Option<real>,
    socEmptyPct: Option<real>,
    chargeTaperSocPct: Option<real>,
    chargeTaperW: Option<real>,
    dischargeTaperSocPct: Option<real>,
    dischargeTaperW: Option<real>,
    plugUrl: string,
    modbusHost: Option<Address>,
    modbusPort: nat,
    modbusUnitId: nat,
    socIntervalMs: nat,
    virtualUnitId: Option<nat>)
  {
    /** The explicit unit id, or the position in the file counted from 1 and
        saturating at 247. */
    function EffectiveVirtualUnitId(index: nat): nat {
      virtualUnitId.GetOr(if index + 1 < 247 then index + 1 else 247)
    }
  }

  datatype LocationConfig = LocationConfig(latitude: Option<real>, longitude: Option<real>)

  /** `bindAddressParses` stands for the outcome of parsing the bind address. */
  datatype VirtualModbusConfig = VirtualModbusConfig(
    enabled: bool,
    bulkRefreshMs: nat,
    slowRefreshMs: nat,
    bindAddressParses: bool)

  datatype Config = Config(
    dispatcher: DispatcherConfig,
    location: LocationConfig,
    shellyPollIntervalMs: nat,
    virtualModbus: VirtualModbusConfig,
    circuits: seq<CircuitConfig>,
    batteries: seq<BatteryConfig>)

  // ------------------------------------------------------------------
  // Validation
  // ------------------------------------------------------------------

  /** `trim().is_empty()`, for the white space of ASCII. */
  predicate Blank(s: string) {
    forall i :: 0 <= i < |s| ==> s[i] == ' ' || '\t' <= s[i] <= '\r'
  }

  predicate CircuitOk(c: CircuitConfig) {
    (c.phases == 1 || c.phases == 3) && c.fuseAmps > 0.0
  }

  predicate Percentage(p: Option<real>) {
    p.Some? ==> 0.0 <= p.value <= 100.0
  }

  /** One direction's taper: both values or none, a power strictly inside the
      hardware limit, a state of charge strictly between the two cut-offs. */
  predicate TaperOk(soc: Option<real>, w: Option<real>, limit: real, empty: real, full: real) {
    match (soc, w)
    case (None, None) => true
    case (Some(s), Some(power)) => 0.0 <= s <= 100.0 && 0.0 < power < limit && empty < s < full
    case _ => false
  }

  predicate BatteryOk(b: BatteryConfig, cap: real, d: DispatcherConfig) {
    && !Blank(b.circuit)
    && Max(b.maxChargeW, b.maxDischargeW) <= cap
    && b.maxChargeW >= 0.0 && b.maxDischargeW >= 0.0
    && !Blank(b.plugUrl)
    && b.priorityWeight > 0.0
    && Percentage(b.socFullPct) && Percentage(b.socEmptyPct)
    && b.modbusPort > 0 && b.modbusUnitId > 0 && b.socIntervalMs > 0
    && (b.socFullPct.Some? && b.socEmptyPct.Some? ==> b.socEmptyPct.value < b.socFullPct.value)
    && var full, empty := b.socFullPct.GetOr(d.socFullPct), b.socEmptyPct.GetOr(d.socEmptyPct);
       && TaperOk(b.chargeTaperSocPct, b.chargeTaperW, b.maxChargeW, empty, full)
       && TaperOk(b.dischargeTaperSocPct, b.dischargeTaperW, b.maxDischargeW, empty, full)
  }

  /** The night cut-off needs to know where it is. */
  predicate LocationOk(l: LocationConfig) {
    && l.latitude.Some? && l.longitude.Some?
    && -90.0 <= l.latitude.value <= 90.0 && -180.0 <= l.longitude.value <= 180.0
  }

  predicate DispatcherOk(d: DispatcherConfig, l: LocationConfig) {
    && d.cycleMs > 0
    && d.rateLimitWPerCycle > 0.0
    && d.plugStaleS >= 0.0 && d.gridStaleS >= 0.0 && d.settleTimeoutS >= 0.0
    && d.emergencyCutoffMarginW >= 0.0
    && (d.nightCutoffEnabled ==> LocationOk(l))
    && 0.0 <= d.socFullPct <= 100.0 && 0.0 <= d.socEmptyPct <= 100.0
    && d.socEmptyPct < d.socFullPct
  }

  ghost predicate DistinctCircuits(cs: seq<CircuitConfig>) {
    forall i, j :: 0 <= i < j < |cs| ==> cs[i].id != cs[j].id
  }

  ghost predicate DistinctBatteries(bs: seq<BatteryConfig>) {
    forall i, j :: 0 <= i < j < |bs| ==> bs[i].id != bs[j].id
  }

  ghost predicate DistinctAddresses(bs: seq<BatteryConfig>) {
    forall i, j :: 0 <= i < j < |bs| ==> bs[i].address != bs[j].address
  }

  ghost predicate DistinctUnits(bs: seq<BatteryConfig>) {
    && (forall i :: 0 <= i < |bs| ==> bs[i].EffectiveVirtualUnitId(i) != 0)
    && forall i, j :: 0 <= i < j < |bs| ==> bs[i].EffectiveVirtualUnitId(i) != bs[j].EffectiveVirtualUnitId(j)
  }

  /** An explicit unit id counts. Without any the batteries are numbered from 1 in
      file order, which works out exactly up to 247 of them. */
  lemma DefaultUnitsIff(bs: seq<BatteryConfig>)
    ensures forall i :: 0 <= i < |bs| && bs[i].virtualUnitId.Some? ==>
      bs[i].EffectiveVirtualUnitId(i) == bs[i].virtualUnitId.value
    ensures forall i :: 0 <= i < |bs| && i < 247 && bs[i].virtualUnitId.None? ==>
      bs[i].EffectiveVirtualUnitId(i) == i + 1
    ensures (forall i :: 0 <= i < |bs| ==> bs[i].virtualUnitId.None?) ==> (DistinctUnits(bs) <==> |bs| <= 247)
  {
    if |bs| > 247 && forall i :: 0 <= i < |bs| ==> bs[i].virtualUnitId.None? {
      assert bs[246].EffectiveVirtualUnitId(246) == bs[247].EffectiveVirtualUnitId(247);
    }
  }

  /** The battery sits on the first circuit of that name and fits under its cap. */
  ghost predicate Placed(b: BatteryConfig, cfg: Config) {
    exists k :: 0 <= k < |cfg.circuits| && cfg.circuits[k].id == b.circuit
      && BatteryOk(b, CapW(cfg.circuits[k]), cfg.dispatcher)
  }

  predicate VirtualModbusOk(v: VirtualModbusConfig) {
    v.bulkRefreshMs > 0 && v.slowRefreshMs > 0 && v.bindAddressParses
  }

  /** What a configuration that loads guarantees. */
  ghost predicate ValidConfig(cfg: Config) {
    && DistinctCircuits(cfg.circuits)
    && (forall i :: 0 <= i < |cfg.circuits| ==> CircuitOk(cfg.circuits[i]))
    && DistinctBatteries(cfg.batteries) && DistinctAddresses(cfg.batteries)
    && (forall i :: 0 <= i < |cfg.batteries| ==> Placed(cfg.batteries[i], cfg))
    && DispatcherOk(cfg.dispatcher, cfg.location)
    && cfg.shellyPollIntervalMs > 0
    && (cfg.virtualModbus.enabled ==> VirtualModbusOk(cfg.virtualModbus) && DistinctUnits(cfg.batteries))
  }

  /** `circuits.iter().find(...)`. */
  method FindCircuit(cs: seq<CircuitConfig>, id: Id) returns (found: Option<CircuitConfig>)
    ensures found.None? <==> forall k :: 0 <= k < |cs| ==> cs[k].id != id
    ensures found.Some? ==> exists k :: 0 <= k < |cs| && cs[k] == found.value && cs[k].id == id
                                     && forall j :: 0 <= j < k ==> cs[j].id != id
  {
    for k := 0 to |cs|
      invariant forall j :: 0 <= j < k ==> cs[j].id != id
    {
      if cs[k].id == id {
        return Some(cs[k]);
      }
    }
    return None;
  }

  method ValidateTaper(soc: Option<real>, w: Option<real>, limit: real, empty: real, full: real) returns (ok: bool)
    ensures ok <==> TaperOk(soc, w, limit, empty, full)
  {
    if soc.None? && w.None? {
      return true;
    }
    if soc.None? || w.None? || soc.value < 0.0 || soc.value > 100.0 {
      return false;
    }
    if w.value <= 0.0 || w.value >= limit {
      return false;
    }
    return soc.value < full && soc.value > empty;
  }

  /** What is checked of one battery once its circuit is found. */
  method ValidateBattery(b: BatteryConfig, cap: real, d: DispatcherConfig) returns (ok: bool)
    ensures ok <==> BatteryOk(b, cap, d)
  {
    if Blank(b.circuit) || b.maxChargeW > cap || b.maxDischargeW > cap {
      return false;
    }
    if b.maxChargeW < 0.0 || b.maxDischargeW < 0.0 || Blank(b.plugUrl) || b.priorityWeight <= 0.0 {
      return false;
    }
    if b.socFullPct.Some? && !(0.0 <= b.socFullPct.value <= 100.0) {
      return false;
    }
    if b.socEmptyPct.Some? && !(0.0 <= b.socEmptyPct.value <= 100.0) {
      return false;
    }
    if b.socFullPct.Some? && b.socEmptyPct.Some? && b.socEmptyPct.value >= b.socFullPct.value {
      return false;
    }
    var full, empty := b.socFullPct.GetOr(d.socFullPct), b.socEmptyPct.GetOr(d.socEmptyPct);
    ok := ValidateTaper(b.chargeTaperSocPct, b.chargeTaperW, b.maxChargeW, empty, full);
    if ok {
      ok := ValidateTaper(b.dischargeTaperSocPct, b.dischargeTaperW, b.maxDischargeW, empty, full);
    }
    if b.modbusPort == 0 || b.modbusUnitId == 0 || b.socIntervalMs == 0 {
      return false;
    }
  }

  method ValidateDispatcher(d: DispatcherConfig, l: LocationConfig) returns (ok: bool)
    ensures ok <==> DispatcherOk(d, l)
  {
    if d.cycleMs == 0 || d.rateLimitWPerCycle <= 0.0 || d.plugStaleS < 0.0 || d.gridStaleS < 0.0 {
      return false;
    }
    if d.settleTimeoutS < 0.0 || d.emergencyCutoffMarginW < 0.0 {
      return false;
    }
    if d.nightCutoffEnabled {
      match (l.latitude, l.longitude)
      case (Some(lat), Some(lon)) =>
        if lat < -90.0 || lat > 90.0 || lon < -180.0 || lon > 180.0 {
          return false;
        }
      case _ =>
        return false;
    }
    if d.socFullPct < 0.0 || d.socFullPct > 100.0 || d.socEmptyPct < 0.0 || d.socEmptyPct > 100.0 {
      return false;
    }
    return d.socEmptyPct < d.socFullPct;
  }

  method ValidateCircuits(cs: seq<CircuitConfig>) returns (ok: bool)
    ensures ok <==> DistinctCircuits(cs) && forall i :: 0 <= i < |cs| ==> CircuitOk(cs[i])
  {
    var seen: set<Id> := {};
    for i := 0 to |cs|
      invariant seen == set j | 0 <= j < i :: cs[j].id
      invariant forall j, k :: 0 <= j < k < i ==> cs[j].id != cs[k].id
      invariant forall j :: 0 <= j < i ==> CircuitOk(cs[j])
    {
      if cs[i].id in seen || (cs[i].phases != 1 && cs[i].phases != 3) || cs[i].fuseAmps <= 0.0 {
        return false;
      }
      seen := seen + {cs[i].id};
    }
    return true;
  }

  method ValidateBatteries(cfg: Config) returns (ok: bool)
    requires DistinctCircuits(cfg.circuits)
    ensures ok <==> DistinctBatteries(cfg.batteries) && DistinctAddresses(cfg.batteries)
                    && forall i :: 0 <= i < |cfg.batteries| ==> Placed(cfg.batteries[i], cfg)
  {
    hide BatteryOk, CapW;
    var bs := cfg.batteries;
    var seenIds: set<Id> := {};
    var seenAddrs: set<Address> := {};
    for i := 0 to |bs|
      invariant seenIds == set j | 0 <= j < i :: bs[j].id
      invariant seenAddrs == set j | 0 <= j < i :: bs[j].address
      invariant forall j, k :: 0 <= j < k < i ==> bs[j].id != bs[k].id
      invariant forall j, k :: 0 <= j < k < i ==> bs[j].address != bs[k].address
      invariant forall j :: 0 <= j < i ==> Placed(bs[j], cfg)
    {
      if bs[i].id in seenIds || bs[i].address in seenAddrs {
        return false;
      }
      seenIds, seenAddrs := seenIds + {bs[i].id}, seenAddrs + {bs[i].address};
      var circuit := FindCircuit(cfg.circuits, bs[i].circuit);
      if circuit.None? {
        return false;
      }
      var batteryOk := ValidateBattery(bs[i], CapW(circuit.value), cfg.dispatcher);
      if !batteryOk {
        return false;
      }
    }
    return true;
  }

  method ValidateUnits(bs: seq<BatteryConfig>) returns (ok: bool)
    ensures ok <==> DistinctUnits(bs)
  {
    var seen: set<nat> := {};
    for i := 0 to |bs|
      invariant seen == set j | 0 <= j < i :: bs[j].EffectiveVirtualUnitId(j)
      invariant forall j :: 0 <= j < i ==> bs[j].EffectiveVirtualUnitId(j) != 0
      invariant forall j, k :: 0 <= j < k < i ==> bs[j].EffectiveVirtualUnitId(j) != bs[k].EffectiveVirtualUnitId(k)
    {
      var unit := bs[i].EffectiveVirtualUnitId(i);
      if unit == 0 || unit in seen {
        return false;
      }
      seen := seen + {unit};
    }
    return true;
  }

  /** `Config::validate`: its loops in order, each with its early exits. */
  method Validate(cfg: Config) returns (ok: bool)
    ensures ok <==> ValidConfig(cfg)
  {
    hide BatteryOk, CapW, CircuitOk, DispatcherOk, VirtualModbusOk;
    ok := ValidateCircuits(cfg.circuits);
    if ok {
      ok := ValidateBatteries(cfg);
    }
    if ok {
      ok := ValidateDispatcher(cfg.dispatcher, cfg.location);
      ok := ok && cfg.shellyPollIntervalMs > 0;
    }
    if ok && cfg.virtualModbus.enabled {
      ok := VirtualModbusOk(cfg.virtualModbus);
      if ok {
        ok := ValidateUnits(cfg.batteries);
      }
    }
  }
}
