/** From a signed target to the setpoint a battery is sent: overhead
    compensation, the firmware floor and ceiling, truncation to whole watts. */
module Setpoints {
  import opened Prelude
  import opened Config

  const HARD_MAX_W := 2500.0
  const OVERHEAD_RAIL_W := 200.0

  datatype Setpoint = Standby | Charge(watts: nat) | Discharge(watts: nat)

  function ToSignedWatts(sp: Setpoint): real {
    match sp
    case Standby => 0.0
    case Charge(watts) => -(watts as real)
    case Discharge(watts) => watts as real
  }

  /** `f64::clamp`, which panics when its bounds are out of order. */
  function ClampOrPanic(x: real, lo: real, hi: real): Option<real> {
    if lo > hi then None else Some(Clamp(x, lo, hi))
  }

  /** `Setpoint::from_signed_watts`; None stands for the panic. */
  function FromSignedWatts(w: real, maxCharge: real, maxDischarge: real): Option<Setpoint> {
    if Abs(w) < MARSTEK_MIN_W then Some(Standby)
    else if w < 0.0 then
      match ClampOrPanic(-w, MARSTEK_MIN_W, Min(maxCharge, HARD_MAX_W))
      case None => None
      case Some(x) => Some(Charge(x.Floor))
    else
      match ClampOrPanic(w, MARSTEK_MIN_W, Min(maxDischarge, HARD_MAX_W))
      case None => None
      case Some(x) => Some(Discharge(x.Floor))
  }

  function Railed(overheadRaw: real): real {
    Clamp(overheadRaw, -OVERHEAD_RAIL_W, OVERHEAD_RAIL_W)
  }

  /** `apply_overhead_compensation`. */
  function Compensated(target: real, overheadRaw: real): real {
    var overhead := Railed(overheadRaw);
    if Signum(overhead) == Signum(target) then target - overhead else target
  }

  /** The conversion can only be trusted when the limit of the direction
      reaches the firmware minimum: below it, a dispatchable target panics. */
  lemma PanicsBelowMinimum(w: real, maxCharge: real, maxDischarge: real)
    ensures FromSignedWatts(w, maxCharge, maxDischarge).None?
       <==> || (w <= -MARSTEK_MIN_W && maxCharge < MARSTEK_MIN_W)
            || (w >= MARSTEK_MIN_W && maxDischarge < MARSTEK_MIN_W)
  {
  }

  /** What is commanded never exceeds what was asked, in size or in either
      limit, never changes its direction, and is less than 1 W short of the
      request when the request is inside the limits. */
  lemma CommandWithinRequest(w: real, maxCharge: real, maxDischarge: real)
    requires FromSignedWatts(w, maxCharge, maxDischarge).Some?
    ensures var c := ToSignedWatts(FromSignedWatts(w, maxCharge, maxDischarge).value);
            && Abs(c) <= Abs(w) && Abs(c) <= HARD_MAX_W
            && (w >= 0.0 ==> 0.0 <= c) && (w <= 0.0 ==> c <= 0.0)
            && (c < 0.0 ==> -c <= maxCharge) && (c > 0.0 ==> c <= maxDischarge)
            && (MARSTEK_MIN_W <= Abs(w) <= Min(if w < 0.0 then maxCharge else maxDischarge, HARD_MAX_W)
                ==> Abs(w - c) < 1.0)
            && (c == 0.0 <==> Abs(w) < MARSTEK_MIN_W)
  {
    if Abs(w) >= MARSTEK_MIN_W {
      var limit := Min(if w < 0.0 then maxCharge else maxDischarge, HARD_MAX_W);
      var x := Clamp(Abs(w), MARSTEK_MIN_W, limit);
      FloorIsClose(x);
    }
  }

  lemma FloorIsClose(x: real)
    requires x >= MARSTEK_MIN_W
    ensures x - 1.0 < x.Floor as real <= x && x.Floor as real >= MARSTEK_MIN_W
  {
    assert x.Floor >= 50;
  }

  /** Setpoints survive the trip through signed watts exactly when they are
      ones that `from_signed_watts` can produce. */
  lemma SignedWattsRoundTrip(sp: Setpoint, maxCharge: real, maxDischarge: real)
    ensures FromSignedWatts(ToSignedWatts(sp), maxCharge, maxDischarge) == Some(sp)
       <==> match sp
            case Standby => true
            case Charge(watts) => MARSTEK_MIN_W <= watts as real <= Min(maxCharge, HARD_MAX_W)
            case Discharge(watts) => MARSTEK_MIN_W <= watts as real <= Min(maxDischarge, HARD_MAX_W)
  {
    match sp
    case Standby =>
    case Charge(watts) => FloorOfNat(watts, maxCharge);
    case Discharge(watts) => FloorOfNat(watts, maxDischarge);
  }

  lemma FloorOfNat(watts: nat, limit: real)
    ensures (watts as real).Floor == watts
    ensures MARSTEK_MIN_W <= watts as real && MARSTEK_MIN_W <= limit && watts as real > Min(limit, HARD_MAX_W)
      ==> Min(limit, HARD_MAX_W).Floor < watts
  {
  }

  /** Compensation takes the overhead off a target that points the same way, but
      never more than 200 W of it, and leaves any other target alone. */
  lemma CompensationIsRailed(target: real, overhead: real)
    ensures var w := Compensated(target, overhead);
            if (target < 0.0) != (overhead < 0.0) then w == target
            else Abs(target - w) == Min(Abs(overhead), 200.0) && (target > w ==> overhead > 0.0)
                 && (target < w ==> overhead < 0.0)
  {
  }

  /** No larger than the target, and not on the other side of zero. */
  predicate ShrinksTo(target: real, c: real) {
    Abs(c) <= Abs(target) && (target >= 0.0 ==> c >= 0.0) && (target <= 0.0 ==> c <= 0.0)
  }

  /** The compensated power keeps the direction and only shrinks, exactly when
      the railed overhead is no larger than the target it is taken from. */
  lemma CompensationShrinks(target: real, overhead: real)
    ensures ShrinksTo(target, Compensated(target, overhead))
       <==> (Signum(Railed(overhead)) == Signum(target) ==> Abs(Railed(overhead)) <= Abs(target))
  {
  }

  /** The railed overhead does not exceed the target by the firmware minimum. */
  predicate OverheadFits(target: real, overhead: real) {
    Signum(Railed(overhead)) == Signum(target) ==> Abs(Railed(overhead)) < Abs(target) + MARSTEK_MIN_W
  }

  /** The command built from it has 50 W more slack, because what crosses zero
      by less becomes Standby: it shrinks exactly when the overhead exceeds the
      target by less than that, or there is no command because of the panic. */
  lemma CommandShrinksIff(target: real, overhead: real, maxCharge: real, maxDischarge: real)
    ensures var sp := FromSignedWatts(Compensated(target, overhead), maxCharge, maxDischarge);
            sp.None? || (ShrinksTo(target, ToSignedWatts(sp.value)) <==> OverheadFits(target, overhead))
  {
    hide FromSignedWatts;
    var w := Compensated(target, overhead);
    if FromSignedWatts(w, maxCharge, maxDischarge).Some? {
      CommandWithinRequest(w, maxCharge, maxDischarge);
    }
  }

  /** A battery that should rest is told to charge when its smoothed overhead
      is a discharge overhead of at least the firmware minimum. */
  lemma RestingBatteryIsCharged(overhead: real, maxCharge: real, maxDischarge: real)
    requires MARSTEK_MIN_W <= overhead <= OVERHEAD_RAIL_W <= maxCharge
    ensures FromSignedWatts(Compensated(0.0, overhead), maxCharge, maxDischarge) == Some(Charge(overhead.Floor))
  {
  }
}
