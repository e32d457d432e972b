/** The dispatcher in its loop from any readings at all: under the rate limit,
    through changes of direction class, the grid settles in the band after a
    number of ticks that can be read off the first state, and stays there, as
    long as every battery that no command reaches delivers its share anyway.
    All hypotheses are about that first state; nothing is assumed of the run. */
module Convergence {
  import opened Prelude
  import opened Sums
  import opened Config
  import opened State
  import opened WaterFill
  import opened WaterFillLaws
  import opened Demand
  import opened Targets
  import opened TargetLaws
  import opened ClosedLoop
  import opened Settling

  // ------------------------------------------------------------------
  // The corridor
  // ------------------------------------------------------------------

  /** The grid band: the safety margin and one cut-off per battery. */
  ghost function Band(bats: Batteries, circuits: Circuits, now: Time, eps: real): real {
    SAFETY_MARGIN_W + Times(|Eligible(bats, circuits, now)|, eps)
  }

  /** The exact shares at the two ends of the band. Whatever total the loop asks
      for, every battery is asked for something in between. */
  ghost function Lowest(bats: Batteries, circuits: Circuits, cfg: DispatcherConfig, now: Time, load: real, eps: real):
      (t: map<Id, real>)
    ensures t.Keys == bats.Keys
  {
    Shares(bats, circuits, cfg, now, load - Band(bats, circuits, now, eps), 0.0)
  }

  ghost function Highest(bats: Batteries, circuits: Circuits, cfg: DispatcherConfig, now: Time, load: real, eps: real):
      (t: map<Id, real>)
    ensures t.Keys == bats.Keys
  {
    Shares(bats, circuits, cfg, now, load + Band(bats, circuits, now, eps), 0.0)
  }

  ghost predicate Between(lo: map<Id, real>, t: map<Id, real>, hi: map<Id, real>)
    requires lo.Keys == t.Keys == hi.Keys
  {
    forall id :: id in t ==> lo[id] <= t[id] <= hi[id]
  }

  lemma ReachBetween(bats: Batteries, circuits: Circuits, cfg: DispatcherConfig, now: Time, low: real, a: real,
                     high: real)
    requires InReach(bats, circuits, cfg, now, low) && InReach(bats, circuits, cfg, now, high) && low <= a <= high
    ensures InReach(bats, circuits, cfg, now, a)
  {
    hide Eligible, Sum, SlotOf;
    var p := Slots(bats, cfg, now, a < 0.0);
    assert a < 0.0 ==> Room(p, a) == Room(p, low);
    assert a >= 0.0 ==> Room(p, a) == Room(p, high);
  }

  /** Everything known about one allocation within reach. */
  lemma SharesFacts(bats: Batteries, circuits: Circuits, cfg: DispatcherConfig, now: Time, a: real, eps: real)
    requires WellFormed(bats, circuits) && eps >= 0.0 && InReach(bats, circuits, cfg, now, a)
    ensures var eligible := Eligible(bats, circuits, now);
            var p, t := Slots(bats, cfg, now, a < 0.0), Allocate(Slots(bats, cfg, now, a < 0.0), eligible, a, eps);
            && Valid(p) && IsWaterFill(p, t) && (forall id :: id in eligible ==> Along(t[id], a))
            && (a >= 0.0 ==> a - Times(|eligible|, eps) <= Sum(eligible, t) <= a)
            && (a <= 0.0 ==> a <= Sum(eligible, t) <= a + Times(|eligible|, eps))
  {
    hide Eligible, Sum, SlotOf, Allocate, LimitsOk, WellFormed, Reachable, IsWaterFill, Saturated, Exhausted;
    var eligible := Eligible(bats, circuits, now);
    var p := Slots(bats, cfg, now, a < 0.0);
    LimitsOfWellFormed(bats, circuits);
    SlotsAreValid(bats, cfg, now, a < 0.0);
    AllocateIsWaterFill(p, eligible, a, eps);
    AllocateConserves(p, eligible, a, eps);
    TimesNonNegative(|eligible|, eps);
  }

  /** A total inside the band is shared out inside the corridor. */
  lemma SharesInCorridor(bats: Batteries, circuits: Circuits, cfg: DispatcherConfig, now: Time, load: real, eps: real,
                         a: real)
    requires WellFormed(bats, circuits) && eps >= 0.0 && Abs(a - load) <= SAFETY_MARGIN_W
    requires InReach(bats, circuits, cfg, now, load - Band(bats, circuits, now, eps))
    requires InReach(bats, circuits, cfg, now, load + Band(bats, circuits, now, eps))
    ensures Between(Lowest(bats, circuits, cfg, now, load, eps), Shares(bats, circuits, cfg, now, a, eps),
                    Highest(bats, circuits, cfg, now, load, eps))
  {
    hide Eligible, Sum, Slots, Allocate, WellFormed, InReach, IsWaterFill, Valid;
    var eligible := Eligible(bats, circuits, now);
    var low, high := load - Band(bats, circuits, now, eps), load + Band(bats, circuits, now, eps);
    TimesNonNegative(|eligible|, eps);
    TimesZero(|eligible|);
    ReachBetween(bats, circuits, cfg, now, low, a, high);
    SharesFacts(bats, circuits, cfg, now, low, 0.0);
    SharesFacts(bats, circuits, cfg, now, a, eps);
    SharesFacts(bats, circuits, cfg, now, high, 0.0);
    var pa := Slots(bats, cfg, now, a < 0.0);
    var t := Allocate(pa, eligible, a, eps);
    if (low < 0.0) == (a < 0.0) {
      WaterFillIsMonotone(pa, Allocate(pa, eligible, low, 0.0), t);
    }
    if (high < 0.0) == (a < 0.0) {
      WaterFillIsMonotone(pa, t, Allocate(pa, eligible, high, 0.0));
    }
  }

  // ------------------------------------------------------------------
  // What must not stand in the way
  // ------------------------------------------------------------------

  /** No sub-minimum split anywhere in the corridor: some member always deserves
      a command of its own, or the circuit as a whole never does. */
  ghost predicate NeverConsolidates(c: Circuit, lo: map<Id, real>, hi: map<Id, real>)
    requires Members(c) <= lo.Keys == hi.Keys
  {
    || (exists m :: m in c.memberIds && (lo[m] >= MARSTEK_MIN_W || hi[m] <= -MARSTEK_MIN_W))
    || (Abs(Sum(Members(c), lo)) < MARSTEK_MIN_W && Abs(Sum(Members(c), hi)) < MARSTEK_MIN_W)
  }

  lemma CorridorIsUnconsolidated(c: Circuit, lo: map<Id, real>, t: map<Id, real>, hi: map<Id, real>)
    requires Members(c) <= lo.Keys == t.Keys == hi.Keys && Between(lo, t, hi) && NeverConsolidates(c, lo, hi)
    ensures !SubMinimum(c, t)
  {
    hide Sum;
    SumLe(Members(c), lo, t);
    SumLe(Members(c), t, hi);
  }

  /** The most a battery can read or be asked for on the way. */
  function Peaks(bats: Batteries, lo: map<Id, real>, hi: map<Id, real>): (peaks: map<Id, real>)
    requires bats.Keys == lo.Keys == hi.Keys
    ensures peaks.Keys == bats.Keys
  {
    map id | id in bats :: Max(Abs(PlugOf(bats[id])), Max(Abs(lo[id]), Abs(hi[id])))
  }

  /** The first state: totals within reach across the band, nothing to
      consolidate in the corridor, and fuses with room for everybody's peak. */
  ghost predicate Unobstructed(bats: Batteries, circuits: Circuits, cfg: DispatcherConfig, now: Time, load: real,
                               eps: real)
  {
    var lo, hi := Lowest(bats, circuits, cfg, now, load, eps), Highest(bats, circuits, cfg, now, load, eps);
    && InReach(bats, circuits, cfg, now, load - Band(bats, circuits, now, eps))
    && InReach(bats, circuits, cfg, now, load + Band(bats, circuits, now, eps))
    && forall c :: c in circuits ==>
      && Members(circuits[c]) <= bats.Keys
      && NeverConsolidates(circuits[c], lo, hi)
      && Sum(Members(circuits[c]), Peaks(bats, lo, hi)) <= CapW(circuits[c].config)
  }

  lemma {:induction false} AbsSumLe(s: set<Id>, f: map<Id, real>, g: map<Id, real>)
    requires s <= f.Keys && s <= g.Keys && forall id :: id in s ==> Abs(f[id]) <= g[id]
    ensures Abs(Sum(s, f)) <= Sum(s, g)
    decreases s
  {
    if s != {} {
      var x :| x in s;
      SumPick(s, f, x);
      SumPick(s, g, x);
      AbsSumLe(s - {x}, f, g);
    }
  }

  /** In the corridor the wanted powers are the shares. */
  lemma WantedInCorridor(bats: Batteries, circuits: Circuits, cfg: DispatcherConfig, now: Time, load: real, eps: real,
                         a: real)
    requires WellFormed(bats, circuits) && eps >= 0.0 && Abs(a - load) <= SAFETY_MARGIN_W
    requires Unobstructed(bats, circuits, cfg, now, load, eps)
    ensures Between(Lowest(bats, circuits, cfg, now, load, eps), Wanted(bats, circuits, cfg, now, a, eps),
                    Highest(bats, circuits, cfg, now, load, eps))
  {
    hide Shares, Sum, CapW, InReach, SubMinimum, Lowest, Highest, Primary, LowBound, HighBound, NeverConsolidates;
    hide Peaks, Band, Homed;
    var lo, hi := Lowest(bats, circuits, cfg, now, load, eps), Highest(bats, circuits, cfg, now, load, eps);
    var t := Shares(bats, circuits, cfg, now, a, eps);
    SharesInCorridor(bats, circuits, cfg, now, load, eps, a);
    forall id | id in bats
      ensures Wanted(bats, circuits, cfg, now, a, eps)[id] == t[id]
    {
      HomeOf(bats, circuits, id);
      CorridorIsUnconsolidated(circuits[bats[id].circuit], lo, t, hi);
    }
  }

  // ------------------------------------------------------------------
  // One tick
  // ------------------------------------------------------------------

  /** How far a reading is from the corridor. */
  function Gap(x: real, lo: real, hi: real): real {
    Max(0.0, Max(lo - x, x - hi))
  }

  lemma LimitedCloses(x: real, wanted: real, rate: real, lo: real, hi: real)
    requires lo <= wanted <= hi && rate >= 0.0
    ensures Gap(Limited(x, wanted, rate), lo, hi) <= Max(0.0, Gap(x, lo, hi) - rate)
    ensures Abs(Limited(x, wanted, rate)) <= Max(Abs(x), Max(Abs(lo), Abs(hi)))
  {
  }

  /** One battery on course: it reads no more than its peak; heard, it is
      `closed` watts nearer to the corridor; unheard, it goes on as before. */
  ghost predicate Steers(b: Battery, first: Batteries, circuits: Circuits, now: Time, lo: map<Id, real>,
                         hi: map<Id, real>, closed: real, id: Id)
    requires first.Keys == lo.Keys == hi.Keys && id in first
  {
    && Abs(PlugOf(b)) <= Peaks(first, lo, hi)[id]
    && (id in Heard(first, circuits, now) ==>
          Gap(PlugOf(b), lo[id], hi[id]) <= Max(0.0, Gap(PlugOf(first[id]), lo[id], hi[id]) - closed))
    && (id in Unheard(first, circuits, now) ==> LeftAlone(b, now) == LeftAlone(first[id], now))
  }

  /** The state is `first` but for its readings, with every battery on course. */
  ghost predicate OnCourse(bats: Batteries, first: Batteries, circuits: Circuits, now: Time, lo: map<Id, real>,
                           hi: map<Id, real>, closed: real)
    requires first.Keys == lo.Keys == hi.Keys
  {
    && SameButReadings(bats, first)
    && forall id :: id in bats ==> Steers(bats[id], first, circuits, now, lo, hi, closed, id)
  }

  lemma AskedInBand(bats: Batteries, circuits: Circuits, now: Time, load: real)
    ensures Abs(Asked(bats, circuits, now, load) - load) <= SAFETY_MARGIN_W
  {
    hide Asked, NextTotal, FleetTotal, Eligible;
    AskedIsNextTotal(bats, circuits, now, load);
    OneTickReachesTheBand(load, FleetTotal(bats, circuits, now), |Eligible(bats, circuits, now)|);
  }

  /** On course no fuse is engaged. */
  lemma FusesStayIdle(bats: Batteries, first: Batteries, circuits: Circuits, lo: map<Id, real>, hi: map<Id, real>,
                      t: map<Id, real>)
    requires WellFormed(bats, circuits) && bats.Keys == first.Keys == lo.Keys == hi.Keys == t.Keys
    requires forall id :: id in bats ==> Abs(PlugOf(bats[id])) <= Peaks(first, lo, hi)[id]
    requires forall id :: id in bats ==> Abs(t[id]) <= Peaks(first, lo, hi)[id]
    requires forall c :: c in circuits ==>
      && Members(circuits[c]) <= bats.Keys
      && Sum(Members(circuits[c]), Peaks(first, lo, hi)) <= CapW(circuits[c].config)
    ensures FusesIdle(bats, circuits, t)
  {
    hide Sum, CapW, WellFormed, Peaks;
    forall c | c in circuits
      ensures WorstCase(circuits[c], bats, t) <= CapW(circuits[c].config)
    {
      AbsSumLe(Members(circuits[c]), t, Peaks(first, lo, hi));
      AbsSumLe(Members(circuits[c]), Plugs(bats), Peaks(first, lo, hi));
    }
  }

  /** After a tick an unheard battery reads what it is left with. */
  lemma UnheardAreLeftAlone(bats: Batteries, circuits: Circuits, cfg: DispatcherConfig, now: Time, load: real,
                            eps: real,
                            id: Id)
    requires WellFormed(bats, circuits) && id in bats && id !in Heard(bats, circuits, now)
    ensures var b := Tick(bats, circuits, cfg, now, load, eps)[id];
            && (id in Unheard(bats, circuits, now) ==> PlugOf(b) == LeftAlone(bats[id], now))
            && (id !in Eligible(bats, circuits, now) ==> b == bats[id])
            && LeftAlone(b, now) == LeftAlone(bats[id], now) && Abs(PlugOf(b)) <= Abs(PlugOf(bats[id]))
  {
    hide TargetsFor, WellFormed, Eligible;
  }

  /** The state is `first` but for its readings, none beyond its peak. */
  ghost predicate BelowPeaks(bats: Batteries, first: Batteries, lo: map<Id, real>, hi: map<Id, real>)
    requires first.Keys == lo.Keys == hi.Keys
  {
    SameButReadings(bats, first) && forall id :: id in bats ==> Abs(PlugOf(bats[id])) <= Peaks(first, lo, hi)[id]
  }

  lemma OnCourseBelowPeaks(bats: Batteries, first: Batteries, circuits: Circuits, now: Time, lo: map<Id, real>,
                           hi: map<Id, real>, closed: real)
    requires first.Keys == lo.Keys == hi.Keys && OnCourse(bats, first, circuits, now, lo, hi, closed)
    ensures BelowPeaks(bats, first, lo, hi)
  {
    hide Peaks, Gap, Heard, Unheard, OnlyReadingDiffers;
    forall id | id in bats
      ensures Abs(PlugOf(bats[id])) <= Peaks(first, lo, hi)[id]
    {
      assert Steers(bats[id], first, circuits, now, lo, hi, closed, id);
    }
  }

  lemma CourseRamps(bats: Batteries, first: Batteries, circuits: Circuits, cfg: DispatcherConfig, now: Time,
                    load: real, eps: real, closed: real)
    requires WellFormed(first, circuits) && eps >= 0.0 && Unobstructed(first, circuits, cfg, now, load, eps)
    requires OnCourse(bats, first, circuits, now, Lowest(first, circuits, cfg, now, load, eps),
                      Highest(first, circuits, cfg, now, load, eps), closed)
    ensures WellFormed(bats, circuits) && Eligible(bats, circuits, now) == Eligible(first, circuits, now)
    ensures Heard(bats, circuits, now) == Heard(first, circuits, now)
    ensures var asked := Asked(bats, circuits, now, load);
            && Ramping(bats, circuits, cfg, now, load, eps, asked)
            && Between(Lowest(first, circuits, cfg, now, load, eps), Wanted(bats, circuits, cfg, now, asked, eps),
                       Highest(first, circuits, cfg, now, load, eps))
  {
    hide OnCourse, BelowPeaks, WellFormed, Unobstructed, Lowest, Highest, Eligible, Heard, Ramping, Wanted, Asked;
    hide Between;
    OnCourseBelowPeaks(bats, first, circuits, now, Lowest(first, circuits, cfg, now, load, eps),
                       Highest(first, circuits, cfg, now, load, eps), closed);
    PeaksRamp(bats, first, circuits, cfg, now, load, eps);
  }

  /** Below its peaks every tick asks for powers in the corridor, and gets a ramp. */
  lemma PeaksRamp(bats: Batteries, first: Batteries, circuits: Circuits, cfg: DispatcherConfig, now: Time,
                  load: real, eps: real)
    requires WellFormed(first, circuits) && eps >= 0.0 && Unobstructed(first, circuits, cfg, now, load, eps)
    requires BelowPeaks(bats, first, Lowest(first, circuits, cfg, now, load, eps),
                        Highest(first, circuits, cfg, now, load, eps))
    ensures WellFormed(bats, circuits) && Eligible(bats, circuits, now) == Eligible(first, circuits, now)
    ensures Heard(bats, circuits, now) == Heard(first, circuits, now)
    ensures var asked := Asked(bats, circuits, now, load);
            && Ramping(bats, circuits, cfg, now, load, eps, asked)
            && Between(Lowest(first, circuits, cfg, now, load, eps), Wanted(bats, circuits, cfg, now, asked, eps),
                       Highest(first, circuits, cfg, now, load, eps))
  {
    hide Wanted, WellFormed, Eligible, Heard, Lowest, Highest, RateLimit, Asked, Limited, FusesIdle, OnlyReadingDiffers;
    hide Peaks, NeverConsolidates, InReach;
    var lo, hi := Lowest(first, circuits, cfg, now, load, eps), Highest(first, circuits, cfg, now, load, eps);
    var asked := Asked(bats, circuits, now, load);
    ReadingsKeepStructure(bats, first, circuits, cfg, now, false);
    ReadingsKeepWanted(bats, first, circuits, cfg, now, asked, eps);
    AskedInBand(bats, circuits, now, load);
    WantedInCorridor(first, circuits, cfg, now, load, eps, asked);
    var wanted := Wanted(bats, circuits, cfg, now, asked, eps);
    var limited := RateLimited(bats, Eligible(first, circuits, now), wanted, RateLimit(cfg));
    forall id | id in bats
      ensures Abs(limited[id]) <= Peaks(first, lo, hi)[id]
    {
      LimitedBelowPeak(bats, first, lo, wanted, hi, RateLimit(cfg), id);
    }
    FusesStayIdle(bats, first, circuits, lo, hi, limited);
  }

  lemma LimitedBelowPeak(bats: Batteries, first: Batteries, lo: map<Id, real>, wanted: map<Id, real>, hi: map<Id, real>,
                         rate: real, id: Id)
    requires bats.Keys == first.Keys == lo.Keys == wanted.Keys == hi.Keys && Between(lo, wanted, hi)
    requires id in bats && rate >= 0.0 && Abs(PlugOf(bats[id])) <= Peaks(first, lo, hi)[id]
    ensures Abs(Limited(PlugOf(bats[id]), wanted[id], rate)) <= Peaks(first, lo, hi)[id]
    ensures Abs(wanted[id]) <= Peaks(first, lo, hi)[id]
  {
    LimitedCloses(PlugOf(bats[id]), wanted[id], rate, lo[id], hi[id]);
  }

  lemma BatteryStaysOnCourse(bats: Batteries, first: Batteries, circuits: Circuits, cfg: DispatcherConfig, now: Time,
                             load: real, eps: real, closed: real, id: Id)
    requires WellFormed(first, circuits) && eps >= 0.0 && closed >= 0.0 && id in first
    requires Unobstructed(first, circuits, cfg, now, load, eps)
    requires OnCourse(bats, first, circuits, now, Lowest(first, circuits, cfg, now, load, eps),
                      Highest(first, circuits, cfg, now, load, eps), closed)
    ensures WellFormed(bats, circuits)
    ensures var b := Tick(bats, circuits, cfg, now, load, eps)[id];
            && Steers(b, first, circuits, now, Lowest(first, circuits, cfg, now, load, eps),
                      Highest(first, circuits, cfg, now, load, eps), closed + RateLimit(cfg), id)
            && (id in Unheard(first, circuits, now) ==> PlugOf(b) == LeftAlone(first[id], now))
  {
    hide Wanted, Tick, WellFormed, Eligible, Heard, Lowest, Highest, RateLimit, Asked, Limited, OnlyReadingDiffers;
    hide Unobstructed, Ramping, Gap, Peaks, LeftAlone;
    var lo, hi := Lowest(first, circuits, cfg, now, load, eps), Highest(first, circuits, cfg, now, load, eps);
    var asked := Asked(bats, circuits, now, load);
    CourseRamps(bats, first, circuits, cfg, now, load, eps, closed);
    if id in Heard(first, circuits, now) {
      var wanted := Wanted(bats, circuits, cfg, now, asked, eps);
      RampTick(bats, circuits, cfg, now, load, eps, asked, id);
      LimitedCloses(PlugOf(bats[id]), wanted[id], RateLimit(cfg), lo[id], hi[id]);
      LimitedBelowPeak(bats, first, lo, wanted, hi, RateLimit(cfg), id);
    } else {
      UnheardAreLeftAlone(bats, circuits, cfg, now, load, eps, id);
    }
  }

  lemma TickStaysOnCourse(bats: Batteries, first: Batteries, circuits: Circuits, cfg: DispatcherConfig, now: Time,
                          load: real, eps: real, closed: real)
    requires WellFormed(first, circuits) && eps >= 0.0 && closed >= 0.0
    requires Unobstructed(first, circuits, cfg, now, load, eps)
    requires OnCourse(bats, first, circuits, now, Lowest(first, circuits, cfg, now, load, eps),
                      Highest(first, circuits, cfg, now, load, eps), closed)
    ensures WellFormed(bats, circuits)
    ensures OnCourse(Tick(bats, circuits, cfg, now, load, eps), first, circuits, now,
                     Lowest(first, circuits, cfg, now, load, eps), Highest(first, circuits, cfg, now, load, eps),
                     closed + RateLimit(cfg))
    ensures forall id :: id in Unheard(first, circuits, now) ==>
      PlugOf(Tick(bats, circuits, cfg, now, load, eps)[id]) == LeftAlone(first[id], now)
  {
    hide Tick, WellFormed, Unheard, Lowest, Highest, RateLimit, OnlyReadingDiffers, Steers, Unobstructed, LeftAlone;
    CourseRamps(bats, first, circuits, cfg, now, load, eps, closed);
    TickKeepsStructure(bats, circuits, cfg, now, load, eps);
    SameButReadingsTrans(Tick(bats, circuits, cfg, now, load, eps), bats, first);
    forall id | id in first
      ensures var b := Tick(bats, circuits, cfg, now, load, eps)[id];
              && Steers(b, first, circuits, now, Lowest(first, circuits, cfg, now, load, eps),
                        Highest(first, circuits, cfg, now, load, eps), closed + RateLimit(cfg), id)
              && (id in Unheard(first, circuits, now) ==> PlugOf(b) == LeftAlone(first[id], now))
    {
      BatteryStaysOnCourse(bats, first, circuits, cfg, now, load, eps, closed, id);
    }
  }

  lemma {:induction false} StaysOnCourse(first: Batteries, circuits: Circuits, cfg: DispatcherConfig, now: Time,
                                         load: real, eps: real, k: nat)
    requires WellFormed(first, circuits) && eps >= 0.0 && Unobstructed(first, circuits, cfg, now, load, eps)
    ensures var later := After(first, circuits, cfg, now, load, eps, k);
            && OnCourse(later, first, circuits, now, Lowest(first, circuits, cfg, now, load, eps),
                        Highest(first, circuits, cfg, now, load, eps), Times(k, RateLimit(cfg)))
            && (k > 0 ==> forall id :: id in Unheard(first, circuits, now) ==>
                            PlugOf(later[id]) == LeftAlone(first[id], now))
  {
    hide Tick, WellFormed, Unheard, Lowest, Highest, RateLimit, Unobstructed, OnCourse, LeftAlone;
    if k == 0 {
      StartsOnCourse(first, circuits, now, Lowest(first, circuits, cfg, now, load, eps),
                     Highest(first, circuits, cfg, now, load, eps));
    } else {
      var before := After(first, circuits, cfg, now, load, eps, k - 1);
      StaysOnCourse(first, circuits, cfg, now, load, eps, k - 1);
      TimesNonNegative(k - 1, RateLimit(cfg));
      TickStaysOnCourse(before, first, circuits, cfg, now, load, eps, Times(k - 1, RateLimit(cfg)));
    }
  }

  lemma StartsOnCourse(first: Batteries, circuits: Circuits, now: Time, lo: map<Id, real>, hi: map<Id, real>)
    requires first.Keys == lo.Keys == hi.Keys
    ensures OnCourse(first, first, circuits, now, lo, hi, 0.0)
  {
    hide Heard, Unheard, LeftAlone;
    SameAsItself(first);
  }

  // ------------------------------------------------------------------
  // Arrival
  // ------------------------------------------------------------------

  /** At least one tick, and enough to ramp every heard battery into the corridor. */
  ghost predicate ArrivesIn(first: Batteries, circuits: Circuits, cfg: DispatcherConfig, now: Time, load: real,
                            eps: real,
                            k: nat)
  {
    var lo, hi := Lowest(first, circuits, cfg, now, load, eps), Highest(first, circuits, cfg, now, load, eps);
    && k > 0
    && forall id :: id in Heard(first, circuits, now) && id in first ==>
      Gap(PlugOf(first[id]), lo[id], hi[id]) <= Times(k, RateLimit(cfg))
  }

  /** Whoever is not told is asked for what it delivers, across the corridor. */
  ghost predicate NobodyEverMissed(first: Batteries, circuits: Circuits, cfg: DispatcherConfig, now: Time, load: real,
                                   eps: real)
  {
    var lo, hi := Lowest(first, circuits, cfg, now, load, eps), Highest(first, circuits, cfg, now, load, eps);
    forall id :: id in Unheard(first, circuits, now) ==> lo[id] == LeftAlone(first[id], now) == hi[id]
  }

  /** The ends of the corridor add up to the ends of the band. */
  lemma CorridorTotals(bats: Batteries, circuits: Circuits, cfg: DispatcherConfig, now: Time, load: real, eps: real)
    requires WellFormed(bats, circuits) && eps >= 0.0 && Unobstructed(bats, circuits, cfg, now, load, eps)
    ensures var eligible, band := Eligible(bats, circuits, now), Band(bats, circuits, now, eps);
            && Sum(eligible, Lowest(bats, circuits, cfg, now, load, eps)) == load - band
            && Sum(eligible, Highest(bats, circuits, cfg, now, load, eps)) == load + band
  {
    hide Eligible, Sum, WellFormed, InReach, Band, Shares, NeverConsolidates, Peaks, CapW;
    TimesZero(|Eligible(bats, circuits, now)|);
    SharesTotal(bats, circuits, cfg, now, load - Band(bats, circuits, now, eps), 0.0);
    SharesTotal(bats, circuits, cfg, now, load + Band(bats, circuits, now, eps), 0.0);
  }

  /** Arrived: every heard reading is in the corridor, the others are left alone. */
  lemma Arrived(first: Batteries, circuits: Circuits, cfg: DispatcherConfig, now: Time, load: real, eps: real, k: nat,
                id: Id)
    requires WellFormed(first, circuits) && eps >= 0.0 && Unobstructed(first, circuits, cfg, now, load, eps)
    requires ArrivesIn(first, circuits, cfg, now, load, eps, k) && id in Eligible(first, circuits, now)
    ensures var lo, hi := Lowest(first, circuits, cfg, now, load, eps), Highest(first, circuits, cfg, now, load, eps);
            var x := PlugOf(After(first, circuits, cfg, now, load, eps, k)[id]);
            if id in Heard(first, circuits, now) then lo[id] <= x <= hi[id] else x == LeftAlone(first[id], now)
  {
    hide After, WellFormed, Eligible, Heard, Lowest, Highest, RateLimit, Unobstructed, OnlyReadingDiffers, Peaks;
    hide LeftAlone;
    StaysOnCourse(first, circuits, cfg, now, load, eps, k);
  }

  /** Main result: from any readings, once the farthest battery has had time to
      ramp into its corridor the grid is within the safety margin, plus one
      cut-off per battery. */
  lemma GridSettles(first: Batteries, circuits: Circuits, cfg: DispatcherConfig, now: Time, load: real, eps: real,
                    k: nat)
    requires WellFormed(first, circuits) && eps >= 0.0 && Unobstructed(first, circuits, cfg, now, load, eps)
    requires NobodyEverMissed(first, circuits, cfg, now, load, eps)
    requires ArrivesIn(first, circuits, cfg, now, load, eps, k)
    ensures Abs(GridReading(After(first, circuits, cfg, now, load, eps, k), circuits, now, load))
              <= Band(first, circuits, now, eps)
  {
    hide After, WellFormed, Eligible, Heard, Lowest, Highest, RateLimit, Unobstructed, Band, Sum, LeftAlone, ArrivesIn;
    var lo, hi := Lowest(first, circuits, cfg, now, load, eps), Highest(first, circuits, cfg, now, load, eps);
    var later := After(first, circuits, cfg, now, load, eps, k);
    var eligible := Eligible(first, circuits, now);
    AfterKeepsStructure(first, circuits, cfg, now, load, eps, k);
    CorridorTotals(first, circuits, cfg, now, load, eps);
    forall id | id in eligible
      ensures lo[id] <= Plugs(later)[id] <= hi[id]
    {
      Arrived(first, circuits, cfg, now, load, eps, k, id);
    }
    SumLe(eligible, lo, Plugs(later));
    SumLe(eligible, Plugs(later), hi);
  }

  lemma {:induction false} TimesMonotone(j: nat, k: nat, rate: real)
    requires j <= k && rate >= 0.0
    ensures Times(j, rate) <= Times(k, rate)
  {
    if j < k {
      TimesMonotone(j, k - 1, rate);
    }
  }

  lemma ProductMonotone(n: real, m: real, rate: real)
    requires n < m && rate > 0.0
    ensures n * rate < m * rate
  {
    assert (m - n) * rate > 0.0;
  }

  lemma QuotientTimesRate(d: real, rate: real)
    requires rate > 0.0
    ensures d / rate * rate == d && (d >= 0.0 ==> d / rate >= 0.0)
  {
  }

  lemma EnoughTicks(distance: real, rate: real) returns (k: nat)
    requires rate > 0.0
    ensures k > 0 && distance < Times(k, rate)
  {
    var d := Max(distance, 0.0);
    var n := d / rate;
    QuotientTimesRate(d, rate);
    k := n.Floor + 1;
    ProductMonotone(n, k as real, rate);
    TimesIsProduct(k, rate);
    assert Times(k, rate) > d;
  }

  lemma {:induction false} ArrivalOf(s: set<Id>, gaps: map<Id, real>, rate: real) returns (k: nat)
    requires s <= gaps.Keys && rate > 0.0
    ensures k > 0 && forall id :: id in s ==> gaps[id] <= Times(k, rate)
    decreases s
  {
    k := 1;
    if s != {} {
      var x :| x in s;
      var rest := ArrivalOf(s - {x}, gaps, rate);
      var own := EnoughTicks(gaps[x], rate);
      k := if rest < own then own else rest;
      TimesMonotone(rest, k, rate);
      TimesMonotone(own, k, rate);
    }
  }

  /** There is a tick from which on everybody has arrived. */
  lemma SomeArrival(first: Batteries, circuits: Circuits, cfg: DispatcherConfig, now: Time, load: real, eps: real)
    returns (arrival: nat)
    ensures forall k: nat :: k >= arrival ==> ArrivesIn(first, circuits, cfg, now, load, eps, k)
  {
    hide Eligible, Lowest, Highest, RateLimit, Gap;
    var lo, hi := Lowest(first, circuits, cfg, now, load, eps), Highest(first, circuits, cfg, now, load, eps);
    var gaps := map id | id in first :: Gap(PlugOf(first[id]), lo[id], hi[id]);
    arrival := ArrivalOf(Heard(first, circuits, now), gaps, RateLimit(cfg));
    forall k: nat | k >= arrival
      ensures ArrivesIn(first, circuits, cfg, now, load, eps, k)
    {
      TimesMonotone(arrival, k, RateLimit(cfg));
    }
  }

  /** From it on the grid stays in the band for good. */
  lemma GridSettlesForGood(first: Batteries, circuits: Circuits, cfg: DispatcherConfig, now: Time, load: real,
                           eps: real)
    returns (arrival: nat)
    requires WellFormed(first, circuits) && eps >= 0.0 && Unobstructed(first, circuits, cfg, now, load, eps)
    requires NobodyEverMissed(first, circuits, cfg, now, load, eps)
    ensures ArrivesIn(first, circuits, cfg, now, load, eps, arrival)
    ensures forall k: nat :: k >= arrival ==>
      Abs(GridReading(After(first, circuits, cfg, now, load, eps, k), circuits, now, load))
        <= Band(first, circuits, now, eps)
  {
    hide After, WellFormed, Unobstructed, Band, ArrivesIn, NobodyEverMissed, GridReading;
    arrival := SomeArrival(first, circuits, cfg, now, load, eps);
    forall k: nat | k >= arrival
      ensures Abs(GridReading(After(first, circuits, cfg, now, load, eps, k), circuits, now, load))
                <= Band(first, circuits, now, eps)
    {
      GridSettles(first, circuits, cfg, now, load, eps, k);
    }
  }
}
