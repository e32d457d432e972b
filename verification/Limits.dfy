/** What the configuration and the charge of a battery mean for what may be
    asked of it: its two bounds, its weight, and the state it starts in. */
module Limits {
  import opened Prelude
  import opened Config
  import opened State
  import opened Demand
  import Bursts

  // ------------------------------------------------------------------
  // Bounds
  // ------------------------------------------------------------------

  /** Where charging ends: the battery's own setting counts before what its BMS
      reports, and that before the setting for the fleet. */
  function FullAt(b: Battery, cfg: DispatcherConfig): real {
    match b.socFullPct
    case Some(own) => own
    case None => match b.bmsFullPct case Some(reported) => reported case None => cfg.socFullPct
  }

  function EmptyAt(b: Battery, cfg: DispatcherConfig): real {
    match b.socEmptyPct
    case Some(own) => own
    case None => match b.bmsEmptyPct case Some(reported) => reported case None => cfg.socEmptyPct
  }

  /** The charge is known to have reached that level. */
  predicate AtLeast(b: Battery, level: real) {
    b.socPct.Some? && b.socPct.value >= level
  }

  predicate AtMost(b: Battery, level: real) {
    b.socPct.Some? && b.socPct.value <= level
  }

  /** A taper is configured for the direction, and the charge is inside it. */
  predicate ChargeTapered(b: Battery) {
    b.chargeTaperW.Some? && b.chargeTaperSocPct.Some? && AtLeast(b, b.chargeTaperSocPct.value)
  }

  predicate DischargeTapered(b: Battery) {
    b.dischargeTaperW.Some? && b.dischargeTaperSocPct.Some? && AtMost(b, b.dischargeTaperSocPct.value)
  }

  /** Exactly when a direction is shut, tapered, or open to the hardware limit. */
  lemma ChargeBoundIff(b: Battery, cfg: DispatcherConfig, now: Time)
    requires LimitsOk(b)
    ensures var low, locked := LowBound(b, cfg, now), b.chargeLockedUntil.Some? && b.chargeLockedUntil.value > now;
            && (low == 0.0 <==> locked || AtLeast(b, FullAt(b, cfg)) || b.maxChargeW == 0.0)
            && (low < 0.0 && ChargeTapered(b) ==> low == -b.chargeTaperW.value)
            && (low < 0.0 && !ChargeTapered(b) ==> low == -b.maxChargeW)
  {
  }

  lemma DischargeBoundIff(b: Battery, cfg: DispatcherConfig, now: Time)
    requires LimitsOk(b)
    ensures var high := HighBound(b, cfg, now);
            var locked := b.dischargeLockedUntil.Some? && b.dischargeLockedUntil.value > now;
            && (high == 0.0 <==> locked || AtMost(b, EmptyAt(b, cfg)) || b.maxDischargeW == 0.0)
            && (high > 0.0 && DischargeTapered(b) ==> high == b.dischargeTaperW.value)
            && (high > 0.0 && !DischargeTapered(b) ==> high == b.maxDischargeW)
  {
  }

  // ------------------------------------------------------------------
  // Weight
  // ------------------------------------------------------------------

  /** How many points of charge are left in the direction; 50 when nobody knows. */
  function PointsLeft(b: Battery, cfg: DispatcherConfig, charging: bool): real {
    match b.socPct
    case None => 50.0
    case Some(soc) => Max(0.0, if charging then FullAt(b, cfg) - soc else soc - EmptyAt(b, cfg))
  }

  /** Watt-hours that one point stands for, up to a factor: the capacity, or the
      limits in its place. */
  function SizeOf(b: Battery): real {
    if b.capacityWh <= 0.0 then b.maxChargeW + b.maxDischargeW else b.capacityWh
  }

  predicate Locked(b: Battery, now: Time, charging: bool) {
    var until := if charging then b.chargeLockedUntil else b.dischargeLockedUntil;
    until.Some? && until.value > now
  }

  /** What the battery has left to give or take, times its priority. */
  function Claim(b: Battery, cfg: DispatcherConfig, charging: bool): real {
    b.priorityWeight * SizeOf(b) * PointsLeft(b, cfg, charging)
  }

  lemma WeightIsEnergyLeft(b: Battery, cfg: DispatcherConfig, now: Time, charging: bool)
    ensures WeightOf(b, cfg, now, charging)
         == if Locked(b, now, charging) then 0.0 else Claim(b, cfg, charging)
  {
  }

  // ------------------------------------------------------------------
  // Start-up
  // ------------------------------------------------------------------

  /** A battery starts without any reading, lock, cut or burst, can be told
      something exactly if a Modbus host is configured, and from then on obeys
      its configuration at every state of charge. */
  lemma FreshBatteryObeysConfig(b: BatteryConfig, cfg: DispatcherConfig, soc: real, now: Time)
    requires LimitsOk(FreshBattery(b)) && b.maxChargeW > 0.0 && b.maxDischargeW > 0.0
    ensures var start := FreshBattery(b);
            var full, empty := b.socFullPct.GetOr(cfg.socFullPct), b.socEmptyPct.GetOr(cfg.socEmptyPct);
            && start.circuit == b.circuit && start.hasWriter == b.modbusHost.Some?
            && start.lastPlugW.None? && start.lastPlugAt.None? && start.lastPlugMovementAt.None?
            && start.plugRelayState.None? && start.plugCutUntil.None?
            && start.plugOverheadWSmoothed.None? && start.lastModbusSetpointW.None?
            && Bursts.Quiet(start)
            && LowBound(start, cfg, now) == -b.maxChargeW && HighBound(start, cfg, now) == b.maxDischargeW
            && var charged := start.(socPct := Some(soc));
               && (LowBound(charged, cfg, now) == 0.0 <==> soc >= full)
               && (HighBound(charged, cfg, now) == 0.0 <==> soc <= empty)
               && (LowBound(charged, cfg, now) == -b.maxChargeW <==>
                     soc < full && !(b.chargeTaperW.Some? && b.chargeTaperSocPct.Some?
                                     && soc >= b.chargeTaperSocPct.value))
               && (HighBound(charged, cfg, now) == b.maxDischargeW <==>
                     soc > empty && !(b.dischargeTaperW.Some? && b.dischargeTaperSocPct.Some?
                                      && soc <= b.dischargeTaperSocPct.value))
               && SizeOf(start) == Energy(b) && PointsLeft(start, cfg, true) == PointsLeft(start, cfg, false) == 50.0
               && start.priorityWeight == b.priorityWeight
               && PointsLeft(charged, cfg, true) == Max(full - soc, 0.0)
               && PointsLeft(charged, cfg, false) == Max(soc - empty, 0.0)
  {
  }

  /** The configured capacity; without one, one hour at full power both ways. */
  function Energy(b: BatteryConfig): real {
    if b.capacityWh <= 0.0 then b.maxChargeW + b.maxDischargeW else b.capacityWh
  }

  /** Validation sees to it that no state of charge counts as full and empty at
      once, for a battery that sets both cut-offs, or none, or has a taper ... */
  lemma NeverFullAndEmpty(b: BatteryConfig, cap: real, cfg: DispatcherConfig, l: LocationConfig, soc: real)
    requires BatteryOk(b, cap, cfg) && DispatcherOk(cfg, l)
    requires b.socFullPct.Some? == b.socEmptyPct.Some? || b.chargeTaperW.Some? || b.dischargeTaperW.Some?
    ensures var charged := FreshBattery(b).(socPct := Some(soc));
            !(AtLeast(charged, FullAt(charged, cfg)) && AtMost(charged, EmptyAt(charged, cfg)))
  {
  }

  /** ... but lets one pass that only sets one of them across the fleet's other:
      such a battery is neither charged nor discharged in between. */
  lemma FullAndEmpty(b: BatteryConfig, cap: real, cfg: DispatcherConfig, l: LocationConfig, now: Time)
    requires BatteryOk(b, cap, cfg) && DispatcherOk(cfg, l)
    requires cfg.socFullPct == 95.0 && cfg.socEmptyPct == 10.0 && b.socFullPct == Some(5.0) && b.socEmptyPct.None?
    ensures forall soc :: 5.0 <= soc <= 10.0 ==>
      var charged := FreshBattery(b).(socPct := Some(soc));
      LowBound(charged, cfg, now) == 0.0 && HighBound(charged, cfg, now) == 0.0
  {
  }
}
