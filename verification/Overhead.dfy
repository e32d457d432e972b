/** The overhead loop: command, plug reading, smoothed estimate, next command.
    The plug delivers the command plus a constant overhead; the estimate closes
    in on it by the factor 0.7 per reading, and so does the plug on its target. */
module Overhead {
  import opened Prelude
  import opened Config
  import opened State
  import opened Setpoints
  import opened Pulses
  import opened CapSafety

  function Pow(x: real, k: nat): real {
    if k == 0 then 1.0 else Mul(x, Pow(x, k - 1))
  }

  /** The overhead points the way of the target, or is 0. */
  predicate SameDirection(overhead: real, target: real) {
    if target < 0.0 then overhead <= 0.0 else overhead >= 0.0
  }

  /** The command for `target` clears the firmware floor and needs no clamping. */
  predicate InRange(b: Battery, target: real) {
    && MARSTEK_MIN_W <= Abs(Compensated(target, OverheadOf(b)))
    && Abs(target) <= Min(if target < 0.0 then b.maxChargeW else b.maxDischargeW, HARD_MAX_W)
    && OverheadFits(target, OverheadOf(b))
  }

  /** The largest correction that estimates between the first one and the true
      overhead can call for. */
  function Slack(b: Battery, overhead: real): real {
    Min(Max(Abs(OverheadOf(b)), Abs(overhead)), OVERHEAD_RAIL_W)
  }

  /** Enough to check beforehand: the target leaves that room above the floor. */
  predicate Roomy(b: Battery, target: real, slack: real) {
    MARSTEK_MIN_W + slack <= Abs(target) <= Min(if target < 0.0 then b.maxChargeW else b.maxDischargeW, HARD_MAX_W)
  }

  lemma RoomyTargetIsInRange(b: Battery, target: real, slack: real)
    requires Roomy(b, target, slack) && Min(Abs(OverheadOf(b)), OVERHEAD_RAIL_W) <= slack
    ensures InRange(b, target)
  {
    hide OverheadOf;
  }

  /** One round: the command for `target` is written, and the plug reads it
      plus the overhead. */
  function Written(b: Battery, target: real): Battery {
    b.(lastModbusSetpointW := Some(CommandedW(b, target)))
  }

  function PlugReads(b: Battery, target: real, overhead: real): real {
    CommandedW(b, target) + overhead
  }

  function Round(b: Battery, target: real, overhead: real, now: Time): Battery {
    IngestOne(Written(b, target), -PlugReads(b, target, overhead), Some(true), now)
  }

  /** The command: in the direction of the target, at the floor or above, and
      less than 1 W short of the compensated target. */
  lemma CommandIsClose(b: Battery, target: real)
    requires InRange(b, target)
    ensures var c := CommandedW(b, target);
            && Abs(c) >= MARSTEK_MIN_W && (target < 0.0 <==> c < 0.0)
            && Abs(Compensated(target, OverheadOf(b)) - c) < 1.0
            && (target >= 0.0 ==> c <= Compensated(target, OverheadOf(b)))
  {
    hide OverheadOf, FromSignedWatts;
    var w := Compensated(target, OverheadOf(b));
    CompensationShrinks(target, OverheadOf(b));
    PanicsBelowMinimum(w, b.maxChargeW, b.maxDischargeW);
    CommandWithinRequest(w, b.maxChargeW, b.maxDischargeW);
    CommandAtFloor(w, b.maxChargeW, b.maxDischargeW);
  }

  lemma CommandAtFloor(w: real, maxCharge: real, maxDischarge: real)
    requires MARSTEK_MIN_W <= Abs(w) && FromSignedWatts(w, maxCharge, maxDischarge).Some?
    ensures Abs(ToSignedWatts(FromSignedWatts(w, maxCharge, maxDischarge).value)) >= MARSTEK_MIN_W
  {
    var limit := Min(if w < 0.0 then maxCharge else maxDischarge, HARD_MAX_W);
    FloorIsClose(Clamp(Abs(w), MARSTEK_MIN_W, limit));
  }

  /** Rails and sign check never make the estimate worse than it is. */
  lemma CompensationError(target: real, estimate: real, overhead: real)
    requires SameDirection(overhead, target) && Abs(overhead) <= OVERHEAD_RAIL_W
    ensures Abs(Compensated(target, estimate) + overhead - target) <= Abs(estimate - overhead)
  {
  }

  /** The plug lands within 1 W plus the current error of the estimate, despite
      rails, sign check and truncation. */
  lemma PlugIsClose(b: Battery, target: real, overhead: real)
    requires InRange(b, target) && SameDirection(overhead, target) && Abs(overhead) <= OVERHEAD_RAIL_W
    ensures Abs(PlugReads(b, target, overhead) - target) < 1.0 + Abs(OverheadOf(b) - overhead)
  {
    hide InRange, CommandedW, OverheadOf, Compensated;
    CommandIsClose(b, target);
    CompensationError(target, OverheadOf(b), overhead);
  }

  /** One reading shrinks the error to seven tenths; the first one sets it to 0. */
  lemma RoundShrinksError(b: Battery, target: real, overhead: real, now: Time)
    requires InRange(b, target) && SameDirection(overhead, target)
    ensures var after := Round(b, target, overhead, now);
            && after.plugOverheadWSmoothed.Some?
            && OverheadOf(after) - overhead
                 == (if b.plugOverheadWSmoothed.Some? then Mul(0.7, OverheadOf(b) - overhead) else 0.0)
            && after.maxChargeW == b.maxChargeW && after.maxDischargeW == b.maxDischargeW
  {
    hide CommandedW, InRange, Compensated;
    CommandIsClose(b, target);
    var c := CommandedW(b, target);
    assert Signum(c + overhead) == Signum(c);
    SmoothingStep(c, overhead, OverheadOf(b));
  }

  lemma SmoothingStep(c: real, overhead: real, prev: real)
    ensures 0.3 * ((c + overhead) - c) + 0.7 * prev - overhead == Mul(0.7, prev - overhead)
  {
  }

  /** The battery after one round per target. */
  function Rounds(b: Battery, targets: seq<real>, overhead: real, now: Time): Battery
    decreases |targets|
  {
    if targets == [] then b
    else Round(Rounds(b, targets[..|targets| - 1], overhead, now), targets[|targets| - 1], overhead, now)
  }

  /** Every target, when its turn comes, is in range and points one way. */
  predicate Trackable(b: Battery, targets: seq<real>, overhead: real, now: Time) {
    forall i :: 0 <= i < |targets| ==>
      SameDirection(overhead, targets[i]) && InRange(Rounds(b, targets[..i], overhead, now), targets[i])
  }

  /** The targets all leave room and point the way of the overhead: nothing is
      asked of the estimates met on the way. */
  predicate AllRoomy(b: Battery, targets: seq<real>, overhead: real) {
    forall i :: 0 <= i < |targets| ==>
      SameDirection(overhead, targets[i]) && Roomy(b, targets[i], Slack(b, overhead))
  }

  /** Estimates stay between the first one and the true overhead, so that every
      target is in range when its turn comes. */
  lemma {:induction false} RoomyIsTrackable(b: Battery, targets: seq<real>, overhead: real, now: Time)
    requires AllRoomy(b, targets, overhead)
    ensures Trackable(b, targets, overhead, now)
    ensures var after := Rounds(b, targets, overhead, now);
            && after.maxChargeW == b.maxChargeW && after.maxDischargeW == b.maxDischargeW
            && Abs(OverheadOf(after)) <= Max(Abs(OverheadOf(b)), Abs(overhead))
    decreases |targets|
  {
    hide Round, InRange, SameDirection, OverheadOf, Roomy, Slack;
    if targets != [] {
      var n := |targets| - 1;
      var head := targets[..n];
      assert forall i :: 0 <= i < n ==> head[..i] == targets[..i] && head[i] == targets[i];
      RoomyIsTrackable(b, head, overhead, now);
      RoomyRound(b, Rounds(b, head, overhead, now), targets[n], overhead, now);
    }
  }

  lemma RoomyRound(b: Battery, before: Battery, target: real, overhead: real, now: Time)
    requires SameDirection(overhead, target) && Roomy(b, target, Slack(b, overhead))
    requires before.maxChargeW == b.maxChargeW && before.maxDischargeW == b.maxDischargeW
    requires Abs(OverheadOf(before)) <= Max(Abs(OverheadOf(b)), Abs(overhead))
    ensures InRange(before, target)
    ensures var after := Round(before, target, overhead, now);
            && after.maxChargeW == b.maxChargeW && after.maxDischargeW == b.maxDischargeW
            && Abs(OverheadOf(after)) <= Max(Abs(OverheadOf(b)), Abs(overhead))
  {
    hide Round, InRange, SameDirection, OverheadOf, Mul;
    RoomyTargetIsInRange(before, target, Slack(b, overhead));
    RoundShrinksError(before, target, overhead, now);
    Between(OverheadOf(before), overhead);
  }

  lemma Between(estimate: real, overhead: real)
    ensures Abs(Mul(0.7, estimate - overhead) + overhead) <= Max(Abs(estimate), Abs(overhead))
  {
  }

  lemma {:induction false} TrackedErrorDecays(b: Battery, targets: seq<real>, overhead: real, now: Time)
    requires b.plugOverheadWSmoothed.Some? && Trackable(b, targets, overhead, now)
    ensures var after := Rounds(b, targets, overhead, now);
            && after.plugOverheadWSmoothed.Some?
            && OverheadOf(after) - overhead == Mul(Pow(0.7, |targets|), OverheadOf(b) - overhead)
    decreases |targets|
  {
    hide Round, InRange, Mul, SameDirection;
    var start := OverheadOf(b) - overhead;
    if targets == [] {
      MulLaws(1.0, start);
    } else {
      var n := |targets| - 1;
      var head := targets[..n];
      assert forall i :: 0 <= i < n ==> head[..i] == targets[..i];
      TrackedErrorDecays(b, head, overhead, now);
      RoundShrinksError(Rounds(b, head, overhead, now), targets[n], overhead, now);
      MulAssoc(0.7, Pow(0.7, n), start);
    }
  }

  lemma MulAssoc(a: real, b: real, c: real)
    ensures Mul(a, Mul(b, c)) == Mul(Mul(a, b), c)
  {
  }

  /** Main result: after k readings the error of the estimate is exactly 0.7^k
      of what it was, whatever targets were commanded on the way. */
  lemma ErrorDecays(b: Battery, targets: seq<real>, overhead: real, now: Time)
    requires b.plugOverheadWSmoothed.Some? && AllRoomy(b, targets, overhead)
    ensures var after := Rounds(b, targets, overhead, now);
            && after.plugOverheadWSmoothed.Some?
            && OverheadOf(after) - overhead == Mul(Pow(0.7, |targets|), OverheadOf(b) - overhead)
  {
    hide Rounds, AllRoomy, Trackable, Mul, Pow;
    RoomyIsTrackable(b, targets, overhead, now);
    TrackedErrorDecays(b, targets, overhead, now);
  }

  /** Main result: the plug closes in on its target at the same rate, down to
      the 1 W that rounding may cost. */
  lemma PlugConverges(b: Battery, targets: seq<real>, overhead: real, now: Time, target: real)
    requires b.plugOverheadWSmoothed.Some? && AllRoomy(b, targets + [target], overhead)
    requires Abs(overhead) <= OVERHEAD_RAIL_W
    ensures Abs(PlugReads(Rounds(b, targets, overhead, now), target, overhead) - target)
              < 1.0 + Abs(Mul(Pow(0.7, |targets|), OverheadOf(b) - overhead))
  {
    hide InRange, Mul, SameDirection, PlugReads, OverheadOf, Pow, Rounds, AllRoomy;
    var all := targets + [target];
    RoomyIsTrackable(b, all, overhead, now);
    assert forall i :: 0 <= i < |targets| ==> all[..i] == targets[..i] && all[i] == targets[i];
    assert all[..|targets|] == targets && all[|targets|] == target;
    TrackedErrorDecays(b, targets, overhead, now);
    PlugIsClose(Rounds(b, targets, overhead, now), target, overhead);
  }

  /** From the very first reading on a fresh battery's estimate is exact. */
  lemma FreshBatteryIsExact(b: Battery, targets: seq<real>, overhead: real, now: Time)
    requires b.plugOverheadWSmoothed.None? && targets != [] && AllRoomy(b, targets, overhead)
    ensures Rounds(b, targets, overhead, now).plugOverheadWSmoothed == Some(overhead)
  {
    RoomyIsTrackable(b, targets, overhead, now);
    TrackedFreshIsExact(b, targets, overhead, now);
  }

  lemma {:induction false} TrackedFreshIsExact(b: Battery, targets: seq<real>, overhead: real, now: Time)
    requires b.plugOverheadWSmoothed.None? && targets != [] && Trackable(b, targets, overhead, now)
    ensures Rounds(b, targets, overhead, now).plugOverheadWSmoothed == Some(overhead)
    decreases |targets|
  {
    hide Round, InRange, Mul, SameDirection;
    var n := |targets| - 1;
    var head := targets[..n];
    assert forall i :: 0 <= i < n ==> head[..i] == targets[..i];
    RoundShrinksError(Rounds(b, head, overhead, now), targets[n], overhead, now);
    MulLaws(0.7, 0.0);
    if head != [] {
      TrackedFreshIsExact(b, head, overhead, now);
    }
  }
}
