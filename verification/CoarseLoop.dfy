/** The loop as the inverters see it: targets become whole watts with a floor of
    50 W, and only changes worth a write are written. The plug follows the last
    setpoint written, so the grid settles in a wider band, and writing ceases. */
module CoarseLoop {
  import opened Prelude
  import opened Config
  import opened State
  import opened Demand
  import opened Targets
  import opened Setpoints
  import opened CapSafety
  import ModbusMode
  import opened Registers
  import opened Writer
  import opened ClosedLoop
  import opened Settling
  import opened Convergence
  import TargetLaws

  // ------------------------------------------------------------------
  // One battery
  // ------------------------------------------------------------------

  /** No overhead to compensate, and limits a setpoint can express. */
  predicate Plain(b: Battery) {
    && OverheadOf(b) == 0.0
    && MARSTEK_MIN_W <= b.maxChargeW <= HARD_MAX_W && MARSTEK_MIN_W <= b.maxDischargeW <= HARD_MAX_W
  }

  /** What the inverter was told last, once the writer has dealt with `target`
      and its writes succeed. */
  function Tell(b: Battery, last: Setpoint, target: real): Setpoint {
    match CommandFor(b, target)
    case None => last
    case Some(sp) => if ShouldWrite(Some(last), sp) then sp else last
  }

  /** This is what the tick plans for a heard battery, put to the writer ... */
  lemma TellIsPlanned(bats: Batteries, circuits: Circuits, now: Time, t: map<Id, real>, last: Setpoint, id: Id)
    requires t.Keys == bats.Keys && ModbusMode.NoPanic(bats, t, Dispatched(bats, circuits, now))
    requires id in Heard(bats, circuits, now)
    ensures var plan := ModbusMode.Plan(bats, t, Dispatched(bats, circuits, now));
            && id in plan
            && Tell(bats[id], last, t[id]) == if ShouldWrite(Some(last), plan[id]) then plan[id] else last
  {
    hide CommandFor, ShouldWrite;
  }

  /** ... and what the inverter then delivers, when the write succeeds. */
  lemma TellIsDelivered(w: WriterState, b: Battery, target: real, links: seq<Link>)
    requires Plausible(links) && Succeeds(links) && Agrees(w) && CommandFor(b, target).Some?
    ensures var told := Tell(b, w.lastWritten.value, target);
            var after := OnChanged(w, CommandFor(b, target).value, links);
            after.lastWritten == Some(told) && EffectiveW(after.device) == ToSignedWatts(told)
  {
    hide CommandFor, EffectiveW, Tried, Spared, Through;
    var sp := CommandFor(b, target).value;
    if ShouldWrite(w.lastWritten, sp) {
      WriteAgreesIff(w, sp, links);
    }
  }

  /** The most that truncation and deadband, or the firmware floor, can cost. */
  function Slop(target: real): real {
    if Abs(target) < MARSTEK_MIN_W then MARSTEK_MIN_W else WRITE_DEADBAND_W + 1.0
  }

  predicate Permitted(b: Battery, watts: real) {
    -b.maxChargeW <= watts <= b.maxDischargeW
  }

  /** The command itself: Standby below the floor, else less than 1 W short of
      the target cut off at the limits. */
  lemma PlainCommand(b: Battery, target: real)
    requires Plain(b)
    ensures CommandFor(b, target).Some?
    ensures var c := ToSignedWatts(CommandFor(b, target).value);
            var cut := Clamp(target, -b.maxChargeW, b.maxDischargeW);
            && (if Abs(target) < MARSTEK_MIN_W then CommandFor(b, target).value.Standby?
                else && Abs(cut - c) < 1.0 && Abs(c) >= MARSTEK_MIN_W && Abs(c) <= Abs(target)
                     && (if target < 0.0 then CommandFor(b, target).value.Charge?
                         else CommandFor(b, target).value.Discharge?))
  {
    var limit := Min(if target < 0.0 then b.maxChargeW else b.maxDischargeW, HARD_MAX_W);
    if Abs(target) >= MARSTEK_MIN_W {
      FloorIsClose(Clamp(Abs(target), MARSTEK_MIN_W, limit));
    }
  }

  /** Told or not, the inverter ends up close to a target within its limits. */
  lemma ToldIsClose(b: Battery, last: Setpoint, target: real)
    requires Plain(b) && Permitted(b, target)
    ensures Abs(ToSignedWatts(Tell(b, last, target)) - target) < Slop(target)
  {
    hide CommandFor, OverheadOf;
    PlainCommand(b, target);
  }

  /** Under a rate limit of 50 W or more a battery that does what it was told
      last gets nearer to its corridor by all of the limit but 50 W, or within
      50 W of it, and never beyond its target. */
  lemma ToldGetsNearer(b: Battery, last: Setpoint, wanted: real, rate: real, lo: real, hi: real)
    requires Plain(b) && Permitted(b, wanted) && lo <= wanted <= hi && rate >= MARSTEK_MIN_W
    ensures var here := ToSignedWatts(last);
            var target := Limited(here, wanted, rate);
            var next := ToSignedWatts(Tell(b, last, target));
            && Gap(next, lo, hi) <= Max(MARSTEK_MIN_W, Gap(here, lo, hi) - (rate - MARSTEK_MIN_W))
            && Abs(next) <= Max(Abs(here), Abs(target))
  {
    hide CommandFor, OverheadOf;
    var here := ToSignedWatts(last);
    var target := Limited(here, wanted, rate);
    PlainCommand(b, target);
    if target == wanted {
      ToldIsClose(b, last, target);
    }
  }

  /** A resting battery is started by exactly the targets that both the ramp and
      the share put at 50 W or more: below that limit none ever is. */
  lemma StartsIff(b: Battery, wanted: real, rate: real)
    requires Plain(b) && rate >= 0.0
    ensures Tell(b, Standby, Limited(0.0, wanted, rate)) != Standby <==> Min(rate, Abs(wanted)) >= MARSTEK_MIN_W
  {
    hide CommandFor, OverheadOf;
    PlainCommand(b, Limited(0.0, wanted, rate));
  }

  // ------------------------------------------------------------------
  // The fleet
  // ------------------------------------------------------------------

  /** The batteries, and what every inverter was told last. */
  datatype Loop = Loop(bats: Batteries, told: map<Id, Setpoint>)

  function Watts(told: map<Id, Setpoint>): (w: map<Id, real>)
    ensures w.Keys == told.Keys
  {
    map id | id in told :: ToSignedWatts(told[id])
  }

  /** What the inverters are told by a tick with targets `t`. */
  function Telling(w: Loop, circuits: Circuits, now: Time, t: map<Id, real>): (told: map<Id, Setpoint>)
    requires w.told.Keys == w.bats.Keys <= t.Keys
    ensures told.Keys == w.bats.Keys
  {
    map id | id in w.bats ::
      if id in Heard(w.bats, circuits, now) then Tell(w.bats[id], w.told[id], t[id]) else w.told[id]
  }

  /** One tick: the heard plugs read what their inverters were told last. */
  ghost function Pass(w: Loop, circuits: Circuits, cfg: DispatcherConfig, now: Time, load: real,
                      eps: real): (next: Loop)
    requires WellFormed(w.bats, circuits) && w.told.Keys == w.bats.Keys
    ensures next.told.Keys == next.bats.Keys == w.bats.Keys
  {
    var t := TargetsFor(w.bats, circuits, cfg, GridReading(w.bats, circuits, now, load), now, eps);
    var told := Telling(w, circuits, now, t);
    Loop(Landed(w.bats, circuits, now, Watts(told)), told)
  }

  /** Every heard plug reads what its inverter was told last. */
  ghost predicate Obeys(w: Loop, circuits: Circuits, now: Time) {
    && w.told.Keys == w.bats.Keys
    && forall id :: id in Heard(w.bats, circuits, now) && id in w.bats ==>
      Plain(w.bats[id]) && PlugOf(w.bats[id]) == ToSignedWatts(w.told[id])
  }

  lemma PassKeepsStructure(w: Loop, circuits: Circuits, cfg: DispatcherConfig, now: Time, load: real, eps: real)
    requires WellFormed(w.bats, circuits) && Obeys(w, circuits, now)
    ensures var next := Pass(w, circuits, cfg, now, load, eps);
            && SameButReadings(next.bats, w.bats) && WellFormed(next.bats, circuits)
            && Eligible(next.bats, circuits, now) == Eligible(w.bats, circuits, now)
            && Heard(next.bats, circuits, now) == Heard(w.bats, circuits, now)
            && Obeys(next, circuits, now)
  {
    hide TargetsFor, WellFormed, Eligible, SameButReadings, Heard, Telling;
    var t := TargetsFor(w.bats, circuits, cfg, GridReading(w.bats, circuits, now, load), now, eps);
    var told := Telling(w, circuits, now, t);
    LandedSameButReadings(w.bats, circuits, now, Watts(told));
    ReadingsKeepStructure(Pass(w, circuits, cfg, now, load, eps).bats, w.bats, circuits, cfg, now, false);
  }

  ghost function Passes(w: Loop, circuits: Circuits, cfg: DispatcherConfig, now: Time, load: real, eps: real, k: nat):
      (later: Loop)
    requires WellFormed(w.bats, circuits) && Obeys(w, circuits, now)
    ensures WellFormed(later.bats, circuits) && Obeys(later, circuits, now)
    ensures later.told.Keys == later.bats.Keys == w.bats.Keys
  {
    if k == 0 then w
    else
      var before := Passes(w, circuits, cfg, now, load, eps, k - 1);
      PassKeepsStructure(before, circuits, cfg, now, load, eps);
      Pass(before, circuits, cfg, now, load, eps)
  }

  // ------------------------------------------------------------------
  // On course
  // ------------------------------------------------------------------

  /** As in the fine loop, but only to within 50 W of the corridor. */
  ghost predicate SteersCoarsely(b: Battery, first: Batteries, circuits: Circuits, now: Time, lo: map<Id, real>,
                                 hi: map<Id, real>, closed: real, id: Id)
    requires first.Keys == lo.Keys == hi.Keys && id in first
  {
    && Abs(PlugOf(b)) <= Peaks(first, lo, hi)[id]
    && (id in Heard(first, circuits, now) ==>
          Gap(PlugOf(b), lo[id], hi[id]) <= Max(MARSTEK_MIN_W, Gap(PlugOf(first[id]), lo[id], hi[id]) - closed))
    && (id in Unheard(first, circuits, now) ==> LeftAlone(b, now) == LeftAlone(first[id], now))
  }

  ghost predicate OnCoarseCourse(w: Loop, first: Batteries, circuits: Circuits, now: Time, lo: map<Id, real>,
                                 hi: map<Id, real>, closed: real)
    requires first.Keys == lo.Keys == hi.Keys
  {
    && Obeys(w, circuits, now) && SameButReadings(w.bats, first)
    && forall id :: id in w.bats ==> SteersCoarsely(w.bats[id], first, circuits, now, lo, hi, closed, id)
  }

  lemma CoarseBelowPeaks(w: Loop, first: Batteries, circuits: Circuits, now: Time, lo: map<Id, real>, hi: map<Id, real>,
                         closed: real)
    requires first.Keys == lo.Keys == hi.Keys && OnCoarseCourse(w, first, circuits, now, lo, hi, closed)
    ensures BelowPeaks(w.bats, first, lo, hi)
  {
    hide Peaks, Gap, Heard, Unheard, OnlyReadingDiffers, Obeys;
    forall id | id in w.bats
      ensures Abs(PlugOf(w.bats[id])) <= Peaks(first, lo, hi)[id]
    {
      assert SteersCoarsely(w.bats[id], first, circuits, now, lo, hi, closed, id);
    }
  }

  /** What a tick wants of a heard battery, and what it is then told. */
  lemma CoarseTarget(w: Loop, first: Batteries, circuits: Circuits, cfg: DispatcherConfig, now: Time, load: real,
                     eps: real,
                     id: Id)
    requires WellFormed(first, circuits) && eps >= 0.0 && Unobstructed(first, circuits, cfg, now, load, eps)
    requires BelowPeaks(w.bats, first, Lowest(first, circuits, cfg, now, load, eps),
                        Highest(first, circuits, cfg, now, load, eps))
    requires Obeys(w, circuits, now) && id in first && id in Heard(first, circuits, now)
    ensures WellFormed(w.bats, circuits) && Heard(w.bats, circuits, now) == Heard(first, circuits, now)
    ensures var wanted := Wanted(w.bats, circuits, cfg, now, Asked(w.bats, circuits, now, load), eps);
            var target := Limited(PlugOf(w.bats[id]), wanted[id], RateLimit(cfg));
            && Between(Lowest(first, circuits, cfg, now, load, eps), wanted,
                       Highest(first, circuits, cfg, now, load, eps))
            && Permitted(w.bats[id], wanted[id]) && Plain(w.bats[id])
            && Pass(w, circuits, cfg, now, load, eps).told[id] == Tell(w.bats[id], w.told[id], target)
            && PlugOf(Pass(w, circuits, cfg, now, load, eps).bats[id])
                 == ToSignedWatts(Tell(w.bats[id], w.told[id], target))
  {
    hide Wanted, WellFormed, Eligible, Lowest, Highest, RateLimit, Asked, Limited, Unobstructed, Ramping, TargetsFor;
    hide Tell, LowBound, HighBound, LimitsOk, Peaks, OnlyReadingDiffers, Plain;
    var asked := Asked(w.bats, circuits, now, load);
    PeaksRamp(w.bats, first, circuits, cfg, now, load, eps);
    RampTarget(w.bats, circuits, cfg, now, load, eps, asked, id);
    TargetLaws.WantedIsAdmissible(w.bats, circuits, cfg, now, asked, eps);
    TargetLaws.LimitsOfWellFormed(w.bats, circuits);
    BoundsOrdered(w.bats[id], cfg, now);
  }

  lemma BatterySteersOn(w: Loop, first: Batteries, circuits: Circuits, cfg: DispatcherConfig, now: Time, load: real,
                        eps: real, closed: real, id: Id)
    requires WellFormed(first, circuits) && eps >= 0.0 && Unobstructed(first, circuits, cfg, now, load, eps)
    requires OnCoarseCourse(w, first, circuits, now, Lowest(first, circuits, cfg, now, load, eps),
                            Highest(first, circuits, cfg, now, load, eps), closed)
    requires closed >= 0.0 && RateLimit(cfg) >= MARSTEK_MIN_W && id in first
    ensures WellFormed(w.bats, circuits)
    ensures var b := Pass(w, circuits, cfg, now, load, eps).bats[id];
            && SteersCoarsely(b, first, circuits, now, Lowest(first, circuits, cfg, now, load, eps),
                              Highest(first, circuits, cfg, now, load, eps),
                              closed + (RateLimit(cfg) - MARSTEK_MIN_W), id)
            && (id in Unheard(first, circuits, now) ==> PlugOf(b) == LeftAlone(first[id], now))
  {
    hide Wanted, WellFormed, Eligible, Heard, Lowest, Highest, RateLimit, Asked, Limited, OnlyReadingDiffers, Pass;
    hide Unobstructed, Gap, Peaks, LeftAlone, Tell, Plain, BelowPeaks;
    var lo, hi := Lowest(first, circuits, cfg, now, load, eps), Highest(first, circuits, cfg, now, load, eps);
    CoarseBelowPeaks(w, first, circuits, now, lo, hi, closed);
    PeaksRamp(w.bats, first, circuits, cfg, now, load, eps);
    assert SteersCoarsely(w.bats[id], first, circuits, now, lo, hi, closed, id);
    if id in Heard(first, circuits, now) {
      var wanted := Wanted(w.bats, circuits, cfg, now, Asked(w.bats, circuits, now, load), eps);
      CoarseTarget(w, first, circuits, cfg, now, load, eps, id);
      ToldGetsNearer(w.bats[id], w.told[id], wanted[id], RateLimit(cfg), lo[id], hi[id]);
      LimitedBelowPeak(w.bats, first, lo, wanted, hi, RateLimit(cfg), id);
    } else {
      UnheardInPass(w, circuits, cfg, now, load, eps, id);
    }
  }

  lemma UnheardInPass(w: Loop, circuits: Circuits, cfg: DispatcherConfig, now: Time, load: real, eps: real, id: Id)
    requires WellFormed(w.bats, circuits) && w.told.Keys == w.bats.Keys
    requires id in w.bats && id !in Heard(w.bats, circuits, now)
    ensures var b := Pass(w, circuits, cfg, now, load, eps).bats[id];
            && (id in Unheard(w.bats, circuits, now) ==> PlugOf(b) == LeftAlone(w.bats[id], now))
            && LeftAlone(b, now) == LeftAlone(w.bats[id], now) && Abs(PlugOf(b)) <= Abs(PlugOf(w.bats[id]))
  {
    hide TargetsFor, WellFormed, Eligible, Tell;
  }
}
