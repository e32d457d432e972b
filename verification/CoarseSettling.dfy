/** Where the loop through setpoints and writer settles: within the band plus 26 W
    per commanded battery, 50 W where the command may be below the firmware
    floor; and how its writing comes to an end. */
module CoarseSettling {
  import opened Prelude
  import opened Sums
  import opened Config
  import opened State
  import opened WaterFillLaws
  import opened Demand
  import opened Targets
  import opened Setpoints
  import opened CapSafety
  import opened Writer
  import opened ClosedLoop
  import opened Settling
  import opened Convergence
  import opened Resting
  import opened CoarseLoop

  lemma PassSteersOn(w: Loop, first: Batteries, circuits: Circuits, cfg: DispatcherConfig, now: Time, load: real,
                     eps: real, closed: real)
    requires WellFormed(first, circuits) && eps >= 0.0 && Unobstructed(first, circuits, cfg, now, load, eps)
    requires WellFormed(w.bats, circuits) && w.told.Keys == w.bats.Keys
    requires OnCoarseCourse(w, first, circuits, now, Lowest(first, circuits, cfg, now, load, eps),
                            Highest(first, circuits, cfg, now, load, eps), closed)
    requires closed >= 0.0 && RateLimit(cfg) >= MARSTEK_MIN_W
    ensures var next := Pass(w, circuits, cfg, now, load, eps);
            && OnCoarseCourse(next, first, circuits, now, Lowest(first, circuits, cfg, now, load, eps),
                              Highest(first, circuits, cfg, now, load, eps), closed + (RateLimit(cfg) - MARSTEK_MIN_W))
            && forall id :: id in Unheard(first, circuits, now) ==> PlugOf(next.bats[id]) == LeftAlone(first[id], now)
  {
    hide Pass, WellFormed, Unheard, Lowest, Highest, RateLimit, OnlyReadingDiffers, SteersCoarsely, Unobstructed, Obeys;
    hide LeftAlone, Heard;
    var next := Pass(w, circuits, cfg, now, load, eps);
    PassKeepsStructure(w, circuits, cfg, now, load, eps);
    SameButReadingsTrans(next.bats, w.bats, first);
    forall id | id in first
      ensures SteersCoarsely(next.bats[id], first, circuits, now, Lowest(first, circuits, cfg, now, load, eps),
                             Highest(first, circuits, cfg, now, load, eps),
                             closed + (RateLimit(cfg) - MARSTEK_MIN_W), id)
      ensures id in Unheard(first, circuits, now) ==> PlugOf(next.bats[id]) == LeftAlone(first[id], now)
    {
      BatterySteersOn(w, first, circuits, cfg, now, load, eps, closed, id);
    }
  }

  /** The first state: everybody does as told, the ramp has 50 W to spare on top
      of the widest corridor, and the hypotheses of the fine loop hold. */
  ghost predicate Ready(w: Loop, circuits: Circuits, cfg: DispatcherConfig, now: Time, load: real, eps: real) {
    var lo, hi := Lowest(w.bats, circuits, cfg, now, load, eps), Highest(w.bats, circuits, cfg, now, load, eps);
    && eps >= 0.0 && Obeys(w, circuits, now) && Unobstructed(w.bats, circuits, cfg, now, load, eps)
    && RateLimit(cfg) > MARSTEK_MIN_W
    && forall id :: id in Heard(w.bats, circuits, now) && id in w.bats ==>
      hi[id] - lo[id] <= RateLimit(cfg) - MARSTEK_MIN_W
  }

  lemma StartsOnCoarseCourse(w: Loop, circuits: Circuits, now: Time, lo: map<Id, real>, hi: map<Id, real>)
    requires w.bats.Keys == lo.Keys == hi.Keys && Obeys(w, circuits, now)
    ensures OnCoarseCourse(w, w.bats, circuits, now, lo, hi, 0.0)
  {
    hide Heard, Unheard, LeftAlone, Obeys;
    SameAsItself(w.bats);
  }

  lemma {:induction false} PassesSteerOn(w: Loop, circuits: Circuits, cfg: DispatcherConfig, now: Time, load: real,
                                         eps: real, k: nat)
    requires WellFormed(w.bats, circuits) && Ready(w, circuits, cfg, now, load, eps)
    ensures var later := Passes(w, circuits, cfg, now, load, eps, k);
            && OnCoarseCourse(later, w.bats, circuits, now, Lowest(w.bats, circuits, cfg, now, load, eps),
                              Highest(w.bats, circuits, cfg, now, load, eps), Times(k, RateLimit(cfg) - MARSTEK_MIN_W))
            && (k > 0 ==> forall id :: id in Unheard(w.bats, circuits, now) ==>
                            PlugOf(later.bats[id]) == LeftAlone(w.bats[id], now))
  {
    hide Pass, WellFormed, Unheard, Heard, Lowest, Highest, RateLimit, OnCoarseCourse, Unobstructed, Obeys, LeftAlone;
    if k == 0 {
      StartsOnCoarseCourse(w, circuits, now, Lowest(w.bats, circuits, cfg, now, load, eps),
                           Highest(w.bats, circuits, cfg, now, load, eps));
    } else {
      var before := Passes(w, circuits, cfg, now, load, eps, k - 1);
      PassesSteerOn(w, circuits, cfg, now, load, eps, k - 1);
      TimesNonNegative(k - 1, RateLimit(cfg) - MARSTEK_MIN_W);
      PassSteersOn(before, w.bats, circuits, cfg, now, load, eps, Times(k - 1, RateLimit(cfg) - MARSTEK_MIN_W));
    }
  }

  // ------------------------------------------------------------------
  // Arrival
  // ------------------------------------------------------------------

  /** At least one tick, and enough to bring every heard battery to within 50 W of
      its corridor. */
  ghost predicate ArrivesCoarselyIn(w: Loop, circuits: Circuits, cfg: DispatcherConfig, now: Time, load: real,
                                    eps: real,
                                    k: nat) {
    var lo, hi := Lowest(w.bats, circuits, cfg, now, load, eps), Highest(w.bats, circuits, cfg, now, load, eps);
    && k > 0
    && forall id :: id in Heard(w.bats, circuits, now) && id in w.bats ==>
      Gap(PlugOf(w.bats[id]), lo[id], hi[id]) <= Times(k, RateLimit(cfg) - MARSTEK_MIN_W)
  }

  /** Arrived, a heard battery is told its wanted power outright: the ramp no
      longer binds. */
  lemma ArrivedIsTold(w: Loop, circuits: Circuits, cfg: DispatcherConfig, now: Time, load: real, eps: real, k: nat,
                      id: Id)
    requires WellFormed(w.bats, circuits) && Ready(w, circuits, cfg, now, load, eps)
    requires ArrivesCoarselyIn(w, circuits, cfg, now, load, eps, k) && id in Heard(w.bats, circuits, now)
    ensures id in w.bats
    ensures var later := Passes(w, circuits, cfg, now, load, eps, k);
            var wanted := Wanted(later.bats, circuits, cfg, now, Asked(later.bats, circuits, now, load), eps);
            var next := Pass(later, circuits, cfg, now, load, eps);
            && Plain(later.bats[id]) && Permitted(later.bats[id], wanted[id])
            && Lowest(w.bats, circuits, cfg, now, load, eps)[id] <= wanted[id]
                 <= Highest(w.bats, circuits, cfg, now, load, eps)[id]
            && next.told[id] == Tell(later.bats[id], later.told[id], wanted[id])
            && PlugOf(next.bats[id]) == ToSignedWatts(next.told[id])
  {
    hide Passes, Pass, WellFormed, Lowest, Highest, RateLimit, Unobstructed, Obeys, Wanted, Asked, Tell, Plain, Peaks;
    hide Eligible;
    var lo, hi := Lowest(w.bats, circuits, cfg, now, load, eps), Highest(w.bats, circuits, cfg, now, load, eps);
    var later := Passes(w, circuits, cfg, now, load, eps, k);
    var closed := Times(k, RateLimit(cfg) - MARSTEK_MIN_W);
    PassesSteerOn(w, circuits, cfg, now, load, eps, k);
    CoarseBelowPeaks(later, w.bats, circuits, now, lo, hi, closed);
    CoarseTarget(later, w.bats, circuits, cfg, now, load, eps, id);
    assert SteersCoarsely(later.bats[id], w.bats, circuits, now, lo, hi, closed, id);
    RampCovers(PlugOf(later.bats[id]),
               Wanted(later.bats, circuits, cfg, now, Asked(later.bats, circuits, now, load), eps)[id],
               RateLimit(cfg), lo[id], hi[id]);
  }

  lemma RampCovers(here: real, wanted: real, rate: real, lo: real, hi: real)
    requires lo <= wanted <= hi && Gap(here, lo, hi) <= MARSTEK_MIN_W && hi - lo <= rate - MARSTEK_MIN_W
    ensures Limited(here, wanted, rate) == wanted
  {
  }

  // ------------------------------------------------------------------
  // The band
  // ------------------------------------------------------------------

  /** The slop of whatever may be wanted in the corridor. */
  function Slack(lo: real, hi: real): real {
    if lo >= MARSTEK_MIN_W || hi <= -MARSTEK_MIN_W then WRITE_DEADBAND_W + 1.0 else MARSTEK_MIN_W
  }

  ghost function Slacks(w: Loop, circuits: Circuits, cfg: DispatcherConfig, now: Time, load: real, eps: real):
      (s: map<Id, real>)
    ensures s.Keys == w.bats.Keys
  {
    var lo, hi := Lowest(w.bats, circuits, cfg, now, load, eps), Highest(w.bats, circuits, cfg, now, load, eps);
    map id | id in w.bats :: Slack(lo[id], hi[id])
  }

  ghost function CoarseBand(w: Loop, circuits: Circuits, cfg: DispatcherConfig, now: Time, load: real,
                            eps: real): real {
    Band(w.bats, circuits, now, eps) + Sum(Heard(w.bats, circuits, now), Slacks(w, circuits, cfg, now, load, eps))
  }

  lemma {:induction false} SumDiffers(s: set<Id>, f: map<Id, real>, g: map<Id, real>, h: map<Id, real>)
    requires s <= f.Keys && s <= g.Keys && s <= h.Keys && forall id :: id in s ==> Abs(f[id] - g[id]) <= h[id]
    ensures Abs(Sum(s, f) - Sum(s, g)) <= Sum(s, h)
    decreases s
  {
    if s != {} {
      var x :| x in s;
      SumPick(s, f, x);
      SumPick(s, g, x);
      SumPick(s, h, x);
      SumDiffers(s - {x}, f, g, h);
    }
  }

  /** What is wanted of the whole fleet adds up to what is asked for. */
  lemma WantedTotal(bats: Batteries, first: Batteries, circuits: Circuits, cfg: DispatcherConfig, now: Time, load: real,
                    eps: real)
    requires WellFormed(first, circuits) && WellFormed(bats, circuits) && SameButReadings(bats, first) && eps >= 0.0
    requires Unobstructed(first, circuits, cfg, now, load, eps)
    ensures var eligible, asked := Eligible(bats, circuits, now), Asked(bats, circuits, now, load);
            Abs(load - Sum(eligible, Wanted(bats, circuits, cfg, now, asked, eps)))
              <= SAFETY_MARGIN_W + Times(|eligible|, eps)
  {
    hide WellFormed, SameButReadings, Unobstructed, Wanted, Shares, Asked, Eligible, InReach, ConsolidationHasRoom, Sum;
    var asked := Asked(bats, circuits, now, load);
    AskedInBand(bats, circuits, now, load);
    AskedIsInReach(bats, first, circuits, cfg, now, load, eps);
    CorridorHasRoom(bats, first, circuits, cfg, now, load, eps, asked);
    WantedKeepsTotal(bats, circuits, cfg, now, asked, eps);
    SharesTotal(bats, circuits, cfg, now, asked, eps);
  }

  /** A heard battery lands within its slack ... */
  lemma LandsWithinSlack(w: Loop, circuits: Circuits, cfg: DispatcherConfig, now: Time, load: real, eps: real, k: nat,
                         id: Id)
    requires WellFormed(w.bats, circuits) && Ready(w, circuits, cfg, now, load, eps)
    requires ArrivesCoarselyIn(w, circuits, cfg, now, load, eps, k) && id in Heard(w.bats, circuits, now)
    ensures id in w.bats
    ensures var later := Passes(w, circuits, cfg, now, load, eps, k);
            var wanted := Wanted(later.bats, circuits, cfg, now, Asked(later.bats, circuits, now, load), eps);
            Abs(PlugOf(Pass(later, circuits, cfg, now, load, eps).bats[id]) - wanted[id])
              <= Slack(Lowest(w.bats, circuits, cfg, now, load, eps)[id],
                       Highest(w.bats, circuits, cfg, now, load, eps)[id])
  {
    hide Passes, Pass, WellFormed, Lowest, Highest, RateLimit, Unobstructed, Obeys, Wanted, Asked, Tell, Plain;
    hide Eligible, LeftAlone, Heard, ArrivesCoarselyIn, Permitted, PlugOf;
    var later := Passes(w, circuits, cfg, now, load, eps, k);
    ArrivedIsTold(w, circuits, cfg, now, load, eps, k, id);
    ToldIsClose(later.bats[id], later.told[id],
                Wanted(later.bats, circuits, cfg, now, Asked(later.bats, circuits, now, load), eps)[id]);
  }

  /** ... and an unheard one reads just what is wanted of it. */
  lemma LandsWhereWanted(w: Loop, circuits: Circuits, cfg: DispatcherConfig, now: Time, load: real, eps: real, k: nat,
                         id: Id)
    requires WellFormed(w.bats, circuits) && Ready(w, circuits, cfg, now, load, eps)
    requires NobodyEverMissed(w.bats, circuits, cfg, now, load, eps) && id in Unheard(w.bats, circuits, now)
    ensures Obeys(w, circuits, now) && id in w.bats
    ensures var later := Passes(w, circuits, cfg, now, load, eps, k);
            var wanted := Wanted(later.bats, circuits, cfg, now, Asked(later.bats, circuits, now, load), eps);
            PlugOf(Passes(w, circuits, cfg, now, load, eps, k + 1).bats[id]) == wanted[id]
  {
    hide Passes, WellFormed, Lowest, Highest, RateLimit, Unobstructed, Obeys, Wanted, Asked, LeftAlone, SteersCoarsely;
    hide Eligible, Heard, BelowPeaks;
    var lo, hi := Lowest(w.bats, circuits, cfg, now, load, eps), Highest(w.bats, circuits, cfg, now, load, eps);
    var later := Passes(w, circuits, cfg, now, load, eps, k);
    PassesSteerOn(w, circuits, cfg, now, load, eps, k);
    PassesSteerOn(w, circuits, cfg, now, load, eps, k + 1);
    CoarseBelowPeaks(later, w.bats, circuits, now, lo, hi, Times(k, RateLimit(cfg) - MARSTEK_MIN_W));
    PeaksRamp(later.bats, w.bats, circuits, cfg, now, load, eps);
  }

  lemma NextPass(w: Loop, circuits: Circuits, cfg: DispatcherConfig, now: Time, load: real, eps: real, k: nat)
    requires WellFormed(w.bats, circuits) && Obeys(w, circuits, now)
    ensures Passes(w, circuits, cfg, now, load, eps, k + 1)
         == Pass(Passes(w, circuits, cfg, now, load, eps, k), circuits, cfg, now, load, eps)
  {
    hide Pass, WellFormed, Obeys;
  }

  /** From any readings, through whole-watt setpoints, firmware floor and write
      deadband, the grid is in the coarse band one tick after arrival. */
  lemma GridSettlesCoarsely(w: Loop, circuits: Circuits, cfg: DispatcherConfig, now: Time, load: real, eps: real,
                            k: nat)
    requires WellFormed(w.bats, circuits) && Ready(w, circuits, cfg, now, load, eps)
    requires NobodyEverMissed(w.bats, circuits, cfg, now, load, eps)
    requires ArrivesCoarselyIn(w, circuits, cfg, now, load, eps, k)
    ensures Abs(GridReading(Passes(w, circuits, cfg, now, load, eps, k + 1).bats, circuits, now, load))
              <= CoarseBand(w, circuits, cfg, now, load, eps)
  {
    hide Passes, Pass, WellFormed, Lowest, Highest, RateLimit, Unobstructed, Obeys, Wanted, Asked, Eligible, Heard;
    hide NobodyEverMissed, ArrivesCoarselyIn, Slacks, Sum, Ready, SameButReadings;
    ReadyIsUnobstructed(w, circuits, cfg, now, load, eps);
    var later := Passes(w, circuits, cfg, now, load, eps, k);
    var next := Passes(w, circuits, cfg, now, load, eps, k + 1);
    var wanted := Wanted(later.bats, circuits, cfg, now, Asked(later.bats, circuits, now, load), eps);
    NextPass(w, circuits, cfg, now, load, eps, k);
    PassesKeepStructure(w, circuits, cfg, now, load, eps, k);
    PassesKeepStructure(w, circuits, cfg, now, load, eps, k + 1);
    WantedTotal(later.bats, w.bats, circuits, cfg, now, load, eps);
    forall id | id in Eligible(w.bats, circuits, now)
      ensures id in Heard(w.bats, circuits, now) ==>
        Abs(Plugs(next.bats)[id] - wanted[id]) <= Slacks(w, circuits, cfg, now, load, eps)[id]
      ensures id !in Heard(w.bats, circuits, now) ==> Plugs(next.bats)[id] == wanted[id]
    {
      if id in Heard(w.bats, circuits, now) {
        LandsWithinSlack(w, circuits, cfg, now, load, eps, k, id);
      } else {
        LandsWhereWanted(w, circuits, cfg, now, load, eps, k, id);
      }
      SlackAt(w, circuits, cfg, now, load, eps, id);
    }
    PartlyDiffers(Eligible(w.bats, circuits, now), Heard(w.bats, circuits, now), Plugs(next.bats), wanted,
                  Slacks(w, circuits, cfg, now, load, eps));
  }

  lemma SlackAt(w: Loop, circuits: Circuits, cfg: DispatcherConfig, now: Time, load: real, eps: real, id: Id)
    requires id in w.bats
    ensures Slacks(w, circuits, cfg, now, load, eps)[id]
         == Slack(Lowest(w.bats, circuits, cfg, now, load, eps)[id], Highest(w.bats, circuits, cfg, now, load, eps)[id])
  {
    hide Lowest, Highest;
  }

  lemma ReadyIsUnobstructed(w: Loop, circuits: Circuits, cfg: DispatcherConfig, now: Time, load: real, eps: real)
    requires Ready(w, circuits, cfg, now, load, eps)
    ensures eps >= 0.0 && Obeys(w, circuits, now) && Unobstructed(w.bats, circuits, cfg, now, load, eps)
  {
    hide Obeys, Unobstructed, Lowest, Highest;
  }

  lemma PassesKeepStructure(w: Loop, circuits: Circuits, cfg: DispatcherConfig, now: Time, load: real, eps: real,
                            k: nat)
    requires WellFormed(w.bats, circuits) && Ready(w, circuits, cfg, now, load, eps)
    ensures Obeys(w, circuits, now)
    ensures var later := Passes(w, circuits, cfg, now, load, eps, k).bats;
            && SameButReadings(later, w.bats) && Eligible(later, circuits, now) == Eligible(w.bats, circuits, now)
            && Heard(later, circuits, now) == Heard(w.bats, circuits, now)
  {
    hide Passes, WellFormed, Lowest, Highest, RateLimit, Unobstructed, Obeys, Eligible, Heard, SteersCoarsely;
    var later := Passes(w, circuits, cfg, now, load, eps, k).bats;
    PassesSteerOn(w, circuits, cfg, now, load, eps, k);
    ReadingsKeepStructure(later, w.bats, circuits, cfg, now, false);
  }

  lemma PartlyDiffers(s: set<Id>, part: set<Id>, f: map<Id, real>, g: map<Id, real>, h: map<Id, real>)
    requires part <= s <= f.Keys && s <= g.Keys && part <= h.Keys
    requires forall id :: id in part ==> Abs(f[id] - g[id]) <= h[id]
    requires forall id :: id in s && id !in part ==> f[id] == g[id]
    ensures Abs(Sum(s, f) - Sum(s, g)) <= Sum(part, h)
  {
    hide Sum, Abs;
    SumSplit(s, part, f);
    SumSplit(s, part, g);
    SumEqual(s - part, f, g);
    SumDiffers(part, f, g, h);
    assert Sum(s, f) - Sum(s, g) == Sum(part, f) - Sum(part, g);
  }

  /** There is a tick from which on everybody has arrived ... */
  lemma SomeCoarseArrival(w: Loop, circuits: Circuits, cfg: DispatcherConfig, now: Time, load: real, eps: real)
    returns (arrival: nat)
    requires Ready(w, circuits, cfg, now, load, eps)
    ensures forall k: nat :: k >= arrival ==> ArrivesCoarselyIn(w, circuits, cfg, now, load, eps, k)
  {
    hide Eligible, Lowest, Highest, RateLimit, Gap, Obeys, Unobstructed;
    var lo, hi := Lowest(w.bats, circuits, cfg, now, load, eps), Highest(w.bats, circuits, cfg, now, load, eps);
    var gaps := map id | id in w.bats :: Gap(PlugOf(w.bats[id]), lo[id], hi[id]);
    arrival := ArrivalOf(Heard(w.bats, circuits, now), gaps, RateLimit(cfg) - MARSTEK_MIN_W);
    forall k: nat | k >= arrival
      ensures ArrivesCoarselyIn(w, circuits, cfg, now, load, eps, k)
    {
      TimesMonotone(arrival, k, RateLimit(cfg) - MARSTEK_MIN_W);
    }
  }

  /** Main result: ... and from the next one on the grid stays in the coarse band
      for good. */
  lemma GridSettlesCoarselyForGood(w: Loop, circuits: Circuits, cfg: DispatcherConfig, now: Time, load: real, eps: real)
    returns (start: nat)
    requires WellFormed(w.bats, circuits) && Ready(w, circuits, cfg, now, load, eps)
    requires NobodyEverMissed(w.bats, circuits, cfg, now, load, eps)
    ensures Obeys(w, circuits, now)
    ensures forall k: nat :: k >= start ==>
      Abs(GridReading(Passes(w, circuits, cfg, now, load, eps, k).bats, circuits, now, load))
        <= CoarseBand(w, circuits, cfg, now, load, eps)
  {
    hide Passes, WellFormed, Ready, NobodyEverMissed, ArrivesCoarselyIn, CoarseBand, GridReading, Obeys;
    ReadyIsUnobstructed(w, circuits, cfg, now, load, eps);
    var arrival := SomeCoarseArrival(w, circuits, cfg, now, load, eps);
    start := arrival + 1;
    forall k: nat | k >= start
      ensures Abs(GridReading(Passes(w, circuits, cfg, now, load, eps, k).bats, circuits, now, load))
                <= CoarseBand(w, circuits, cfg, now, load, eps)
    {
      GridSettlesCoarsely(w, circuits, cfg, now, load, eps, k - 1);
    }
  }

  // ------------------------------------------------------------------
  // Writing ceases
  // ------------------------------------------------------------------

  /** Setpoints from the corridor are all of one kind and within the deadband. */
  predicate OneSetpoint(lo: real, hi: real) {
    && hi - lo <= WRITE_DEADBAND_W - 1.0
    && (lo >= MARSTEK_MIN_W || hi <= -MARSTEK_MIN_W || (-MARSTEK_MIN_W < lo && hi < MARSTEK_MIN_W))
  }

  /** A setpoint written for one target of the corridor will do for any other. */
  lemma NotWorthAWrite(b: Battery, one: real, other: real, lo: real, hi: real)
    requires Plain(b) && Permitted(b, one) && Permitted(b, other) && OneSetpoint(lo, hi)
    requires lo <= one <= hi && lo <= other <= hi
    ensures CommandFor(b, one).Some? && CommandFor(b, other).Some?
    ensures !ShouldWrite(CommandFor(b, one), CommandFor(b, other).value)
  {
    hide CommandFor, OverheadOf;
    PlainCommand(b, one);
    PlainCommand(b, other);
  }

  /** Two states of the run build their commands alike. */
  lemma SameCommands(a: Battery, b: Battery, target: real)
    requires OnlyReadingDiffers(a, b)
    ensures CommandFor(a, target) == CommandFor(b, target) && Plain(a) == Plain(b)
    ensures Permitted(a, target) == Permitted(b, target)
  {
    hide FromSignedWatts, Compensated;
  }

  /** What a battery was last told stands for some target of its corridor. */
  ghost predicate WillDo(b: Battery, last: Setpoint, lo: real, hi: real) {
    exists t: real :: lo <= t <= hi && Permitted(b, t) && CommandFor(b, t) == Some(last)
  }

  /** A setpoint that stands for the corridor is not replaced by a target from
      it, and whatever replaces another one does stand for it. */
  lemma TellIsStable(b: Battery, first: Battery, last: Setpoint, wanted: real, lo: real, hi: real)
    requires OnlyReadingDiffers(b, first) && Plain(b) && Permitted(b, wanted)
    requires lo <= wanted <= hi && OneSetpoint(lo, hi)
    ensures WillDo(first, last, lo, hi) ==> Tell(b, last, wanted) == last
    ensures Tell(b, last, wanted) != last ==> WillDo(first, Tell(b, last, wanted), lo, hi)
  {
    hide CommandFor, Plain, Permitted, OneSetpoint, ShouldWrite;
    SameCommands(b, first, wanted);
    if t: real :| lo <= t <= hi && Permitted(first, t) && CommandFor(first, t) == Some(last) {
      SameCommands(b, first, t);
      NotWorthAWrite(b, t, wanted, lo, hi);
    }
  }

  /** After arrival a tick tells a battery nothing new when the last setpoint
      stands for its corridor; and whatever it tells it does stand for it. */
  lemma ArrivedTellsOnce(w: Loop, circuits: Circuits, cfg: DispatcherConfig, now: Time, load: real, eps: real, k: nat,
                         id: Id)
    requires WellFormed(w.bats, circuits) && Ready(w, circuits, cfg, now, load, eps)
    requires ArrivesCoarselyIn(w, circuits, cfg, now, load, eps, k) && id in Heard(w.bats, circuits, now)
    requires id in w.bats
    requires OneSetpoint(Lowest(w.bats, circuits, cfg, now, load, eps)[id],
                         Highest(w.bats, circuits, cfg, now, load, eps)[id])
    ensures var lo, hi := Lowest(w.bats, circuits, cfg, now, load, eps)[id],
                          Highest(w.bats, circuits, cfg, now, load, eps)[id];
            var before := Passes(w, circuits, cfg, now, load, eps, k).told[id];
            var after := Passes(w, circuits, cfg, now, load, eps, k + 1).told[id];
            && (WillDo(w.bats[id], before, lo, hi) ==> after == before)
            && (after != before ==> WillDo(w.bats[id], after, lo, hi))
  {
    hide Passes, Pass, WellFormed, Lowest, Highest, Wanted, Asked, Plain, Permitted, OneSetpoint, Heard, Ready;
    hide Tell, Obeys, WillDo, OnlyReadingDiffers, Eligible, ArrivesCoarselyIn;
    ReadyIsUnobstructed(w, circuits, cfg, now, load, eps);
    var later := Passes(w, circuits, cfg, now, load, eps, k);
    NextPass(w, circuits, cfg, now, load, eps, k);
    PassesKeepStructure(w, circuits, cfg, now, load, eps, k);
    ArrivedIsTold(w, circuits, cfg, now, load, eps, k, id);
    TellIsStable(later.bats[id], w.bats[id], later.told[id],
                 Wanted(later.bats, circuits, cfg, now, Asked(later.bats, circuits, now, load), eps)[id],
                 Lowest(w.bats, circuits, cfg, now, load, eps)[id], Highest(w.bats, circuits, cfg, now, load, eps)[id]);
  }

  /** What the inverter of a battery was told last after `k` ticks. */
  ghost function ToldAt(w: Loop, circuits: Circuits, cfg: DispatcherConfig, now: Time, load: real, eps: real, id: Id,
                        k: nat): Setpoint
    requires WellFormed(w.bats, circuits) && Obeys(w, circuits, now) && id in w.bats
  {
    Passes(w, circuits, cfg, now, load, eps, k).told[id]
  }

  /** Everybody has arrived by tick `a`, and the corridor of the battery calls for
      one setpoint. */
  ghost predicate CallsForOne(w: Loop, circuits: Circuits, cfg: DispatcherConfig, now: Time, load: real, eps: real,
                              id: Id,
                              a: nat) {
    && WellFormed(w.bats, circuits) && Obeys(w, circuits, now) && Ready(w, circuits, cfg, now, load, eps)
    && id in w.bats && id in Heard(w.bats, circuits, now)
    && (forall i: nat :: i >= a ==> ArrivesCoarselyIn(w, circuits, cfg, now, load, eps, i))
    && OneSetpoint(Lowest(w.bats, circuits, cfg, now, load, eps)[id],
                   Highest(w.bats, circuits, cfg, now, load, eps)[id])
  }

  ghost predicate StandsFor(w: Loop, circuits: Circuits, cfg: DispatcherConfig, now: Time, load: real, eps: real,
                            id: Id,
                            sp: Setpoint) {
    id in w.bats && WillDo(w.bats[id], sp, Lowest(w.bats, circuits, cfg, now, load, eps)[id],
                           Highest(w.bats, circuits, cfg, now, load, eps)[id])
  }

  lemma TellsOnce(w: Loop, circuits: Circuits, cfg: DispatcherConfig, now: Time, load: real, eps: real, id: Id, a: nat,
                  k: nat)
    requires CallsForOne(w, circuits, cfg, now, load, eps, id, a) && k >= a
    ensures WellFormed(w.bats, circuits) && Obeys(w, circuits, now) && id in w.bats
    ensures var before, after := ToldAt(w, circuits, cfg, now, load, eps, id, k),
                                 ToldAt(w, circuits, cfg, now, load, eps, id, k + 1);
            && (StandsFor(w, circuits, cfg, now, load, eps, id, before) ==> after == before)
            && (after != before ==> StandsFor(w, circuits, cfg, now, load, eps, id, after))
  {
    hide Passes, WellFormed, Lowest, Highest, OneSetpoint, Heard, Ready, ArrivesCoarselyIn, WillDo, Obeys;
    ArrivedTellsOnce(w, circuits, cfg, now, load, eps, k, id);
  }

  /** Main result: once everybody has arrived, such a battery is written at most
      once more, for good. */
  lemma {:induction false} OneMoreWrite(w: Loop, circuits: Circuits, cfg: DispatcherConfig, now: Time, load: real,
                                        eps: real,
                                        id: Id, a: nat, j: nat, k: nat)
    requires CallsForOne(w, circuits, cfg, now, load, eps, id, a) && a <= j < k
    ensures WellFormed(w.bats, circuits) && Obeys(w, circuits, now) && id in w.bats
    ensures var before, after := ToldAt(w, circuits, cfg, now, load, eps, id, j),
                                 ToldAt(w, circuits, cfg, now, load, eps, id, j + 1);
            after != before ==>
              && ToldAt(w, circuits, cfg, now, load, eps, id, k) == after
              && StandsFor(w, circuits, cfg, now, load, eps, id, after)
    decreases k
  {
    hide ToldAt, CallsForOne, StandsFor, WellFormed, Obeys;
    TellsOnce(w, circuits, cfg, now, load, eps, id, a, k - 1);
    if j + 1 < k {
      OneMoreWrite(w, circuits, cfg, now, load, eps, id, a, j, k - 1);
    }
  }

  /** From tick `quiet` on the battery is told nothing new. */
  ghost predicate QuietFrom(w: Loop, circuits: Circuits, cfg: DispatcherConfig, now: Time, load: real, eps: real,
                            id: Id,
                            quiet: nat)
    requires WellFormed(w.bats, circuits) && Obeys(w, circuits, now) && id in w.bats
  {
    forall k: nat :: k >= quiet ==>
      ToldAt(w, circuits, cfg, now, load, eps, id, k) == ToldAt(w, circuits, cfg, now, load, eps, id, quiet)
  }

  lemma {:induction false} Unchanged(w: Loop, circuits: Circuits, cfg: DispatcherConfig, now: Time, load: real,
                                     eps: real,
                                     id: Id, j: nat, k: nat)
    requires WellFormed(w.bats, circuits) && Obeys(w, circuits, now) && id in w.bats && j <= k
    requires forall i: nat :: i >= j ==>
      ToldAt(w, circuits, cfg, now, load, eps, id, i + 1) == ToldAt(w, circuits, cfg, now, load, eps, id, i)
    ensures ToldAt(w, circuits, cfg, now, load, eps, id, k) == ToldAt(w, circuits, cfg, now, load, eps, id, j)
    decreases k
  {
    hide ToldAt, WellFormed, Obeys;
    if j < k {
      Unchanged(w, circuits, cfg, now, load, eps, id, j, k - 1);
    }
  }

  /** One battery falls quiet: either it is never told anything new, or after
      the one time it is. */
  lemma OneFallsQuiet(w: Loop, circuits: Circuits, cfg: DispatcherConfig, now: Time, load: real, eps: real, id: Id,
                      a: nat)
    returns (quiet: nat)
    requires CallsForOne(w, circuits, cfg, now, load, eps, id, a)
    ensures WellFormed(w.bats, circuits) && Obeys(w, circuits, now) && id in w.bats
    ensures QuietFrom(w, circuits, cfg, now, load, eps, id, quiet)
  {
    hide ToldAt, CallsForOne, StandsFor, WellFormed, Obeys;
    TellsOnce(w, circuits, cfg, now, load, eps, id, a, a);
    if j: nat :| j >= a && ToldAt(w, circuits, cfg, now, load, eps, id, j + 1)
                             != ToldAt(w, circuits, cfg, now, load, eps, id, j) {
      quiet := j + 1;
      forall k: nat | k >= quiet
        ensures ToldAt(w, circuits, cfg, now, load, eps, id, k) == ToldAt(w, circuits, cfg, now, load, eps, id, quiet)
      {
        OneMoreWrite(w, circuits, cfg, now, load, eps, id, a, j, k);
      }
    } else {
      quiet := a;
      forall k: nat | k >= quiet
        ensures ToldAt(w, circuits, cfg, now, load, eps, id, k) == ToldAt(w, circuits, cfg, now, load, eps, id, quiet)
      {
        Unchanged(w, circuits, cfg, now, load, eps, id, quiet, k);
      }
    }
  }

  lemma QuietLater(w: Loop, circuits: Circuits, cfg: DispatcherConfig, now: Time, load: real, eps: real, id: Id,
                   early: nat,
                   late: nat)
    requires WellFormed(w.bats, circuits) && Obeys(w, circuits, now) && id in w.bats && early <= late
    requires QuietFrom(w, circuits, cfg, now, load, eps, id, early)
    ensures QuietFrom(w, circuits, cfg, now, load, eps, id, late)
  {
    hide ToldAt, WellFormed, Obeys;
  }

  /** Main result: when every corridor calls for one setpoint, writing ceases:
      from some tick on no inverter is told anything new. */
  lemma {:induction false} WritingCeases(w: Loop, circuits: Circuits, cfg: DispatcherConfig, now: Time, load: real,
                                         eps: real, s: set<Id>, a: nat)
    returns (quiet: nat)
    requires WellFormed(w.bats, circuits) && Obeys(w, circuits, now) && s <= w.bats.Keys
    requires forall id :: id in s ==> CallsForOne(w, circuits, cfg, now, load, eps, id, a)
    ensures forall id :: id in s ==> QuietFrom(w, circuits, cfg, now, load, eps, id, quiet)
    decreases s
  {
    hide CallsForOne, WellFormed, Obeys, QuietFrom;
    quiet := 0;
    if s != {} {
      var x :| x in s;
      var rest := WritingCeases(w, circuits, cfg, now, load, eps, s - {x}, a);
      var own := OneFallsQuiet(w, circuits, cfg, now, load, eps, x, a);
      quiet := if rest < own then own else rest;
      forall id | id in s
        ensures QuietFrom(w, circuits, cfg, now, load, eps, id, quiet)
      {
        QuietLater(w, circuits, cfg, now, load, eps, id, if id == x then own else rest, quiet);
      }
    }
  }

  // ------------------------------------------------------------------
  // A ramp that never starts
  // ------------------------------------------------------------------

  /** A rate limit below 50 W freezes a resting battery: its target never reaches
      the firmware floor, whatever is wanted of it, at any number of ticks. */
  lemma {:induction false} SlowRampNeverStarts(w: Loop, circuits: Circuits, cfg: DispatcherConfig, now: Time,
                                               load: real,
                                               eps: real, k: nat, id: Id)
    requires WellFormed(w.bats, circuits) && Obeys(w, circuits, now) && eps >= 0.0
    requires id in w.bats && id in Heard(w.bats, circuits, now)
    requires w.told[id] == Standby && RateLimit(cfg) < MARSTEK_MIN_W
    ensures var later := Passes(w, circuits, cfg, now, load, eps, k);
            && id in Heard(later.bats, circuits, now)
            && later.told[id] == Standby && PlugOf(later.bats[id]) == 0.0
    decreases k
  {
    hide Pass, WellFormed, Heard, Eligible, SameButReadings, Plain;
    if k > 0 {
      var before := Passes(w, circuits, cfg, now, load, eps, k - 1);
      SlowRampNeverStarts(w, circuits, cfg, now, load, eps, k - 1, id);
      PassKeepsStructure(before, circuits, cfg, now, load, eps);
      RestsThroughPass(before, circuits, cfg, now, load, eps, id);
    }
  }

  lemma RestsThroughPass(w: Loop, circuits: Circuits, cfg: DispatcherConfig, now: Time, load: real, eps: real, id: Id)
    requires WellFormed(w.bats, circuits) && Obeys(w, circuits, now) && eps >= 0.0
    requires id in w.bats && id in Heard(w.bats, circuits, now)
    requires w.told[id] == Standby && RateLimit(cfg) < MARSTEK_MIN_W
    ensures Pass(w, circuits, cfg, now, load, eps).told[id] == Standby
  {
    hide WellFormed, Eligible, TargetsFor, RateLimit, CommandFor, Plain;
    SmallTarget(w.bats, circuits, cfg, GridReading(w.bats, circuits, now, load), now, eps, id);
    PlainCommand(w.bats[id], TargetsFor(w.bats, circuits, cfg, GridReading(w.bats, circuits, now, load), now, eps)[id]);
  }

  /** From rest a target is no larger than the rate limit, scaled or not. */
  lemma SmallTarget(bats: Batteries, circuits: Circuits, cfg: DispatcherConfig, gridW: real, now: Time, eps: real,
                    id: Id)
    requires WellFormed(bats, circuits) && eps >= 0.0 && id in Eligible(bats, circuits, now) && PlugOf(bats[id]) == 0.0
    ensures Abs(TargetsFor(bats, circuits, cfg, gridW, now, eps)[id]) <= RateLimit(cfg)
  {
    hide Wanted, WellFormed, Eligible, DesiredTotal, RateLimit, CapW, WorstCase, ScaleTo, Mul;
    var eligible := Eligible(bats, circuits, now);
    var c := bats[id].circuit;
    HomeOf(bats, circuits, id);
    HasMembers(bats, circuits, id);
    PopulatedCapIsNonNegative(bats, circuits, c);
    var limited := RateLimited(bats, eligible,
                               Wanted(bats, circuits, cfg, now, DesiredTotal(bats, eligible, gridW), eps),
                               RateLimit(cfg));
    WorstIsNonNegative(circuits[c], bats, limited);
    ScaleIsAFraction(CapW(circuits[c].config), WorstCase(circuits[c], bats, limited));
    ScalingShrinks(CapScale(circuits[c], bats, limited), limited[id]);
  }

  lemma HasMembers(bats: Batteries, circuits: Circuits, id: Id)
    requires WellFormed(bats, circuits) && id in bats
    ensures var c := bats[id].circuit;
            c in circuits && circuits[c].memberIds != [] && Members(circuits[c]) <= bats.Keys
  {
    hide CapW, LimitsOk;
    HomeOf(bats, circuits, id);
  }

  lemma WorstIsNonNegative(c: Circuit, bats: Batteries, t: map<Id, real>)
    requires Members(c) <= bats.Keys && Members(c) <= t.Keys
    ensures WorstCase(c, bats, t) >= 0.0
  {
    hide Sum;
  }
}
