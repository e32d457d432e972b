/** `compute_deltas`: corrections relative to the plug readings, for Pulse mode,
    with the circuit cap enforced on reading plus correction. */
module Deltas {
  import opened Prelude
  import opened Sums
  import opened Config
  import opened State
  import opened WaterFill
  import opened Demand
  import opened Redistribution
  import opened Targets
  import opened TargetLaws

  /** An unmuted circuit on which one battery discharges while another charges. */
  predicate Conflicted(c: Circuit, bats: Batteries, now: Time) {
    && !Pending(c.silentUntil, now)
    && (exists m :: m in c.memberIds && m in bats && PlugOf(bats[m]) > MARSTEK_MIN_W)
    && (exists m :: m in c.memberIds && m in bats && PlugOf(bats[m]) < -MARSTEK_MIN_W)
  }

  predicate HasConflict(bats: Batteries, circuits: Circuits, now: Time) {
    exists c :: c in circuits && Conflicted(circuits[c], bats, now)
  }

  /** The grid is where it should be and no circuit works against itself. */
  ghost predicate NothingToDo(bats: Batteries, circuits: Circuits, gridW: real, now: Time) {
    var eligible := Eligible(bats, circuits, now);
    || eligible == {}
    || (&& Abs(GridCorrection(gridW, Sum(eligible, Plugs(bats)), |eligible|)) < CUTOFF
        && !HasConflict(bats, circuits, now))
  }

  /** Corrections before the circuit cap. */
  ghost function RawDeltas(bats: Batteries, circuits: Circuits, cfg: DispatcherConfig, gridW: real, now: Time):
      (d: map<Id, real>)
    ensures d.Keys == bats.Keys
  {
    var eligible := Eligible(bats, circuits, now);
    var desired := DesiredTotal(bats, eligible, gridW);
    var own := Allocate(Slots(bats, cfg, now, desired < 0.0), eligible, desired, CUTOFF);
    map id | id in bats :: if id in eligible then own[id] - PlugOf(bats[id]) else 0.0
  }

  /** Share of the corrections that the cap lets through: 1 unless the circuit
      would end up over its cap, never negative. */
  function CapShare(cap: real, measured: real, delta: real): real {
    var post := measured + delta;
    if Abs(post) > cap && Abs(delta) > CUTOFF then
      var targetPost := if post < 0.0 then -Abs(cap) else Abs(cap);
      Clamp((targetPost - measured) / delta, 0.0, 1.0)
    else 1.0
  }

  ghost function CircuitShare(c: Circuit, bats: Batteries, d: map<Id, real>): real
    requires Members(c) <= bats.Keys && Members(c) <= d.Keys
  {
    CapShare(CapW(c.config), Sum(Members(c), Plugs(bats)), Sum(Members(c), d))
  }

  ghost function CappedDeltas(bats: Batteries, circuits: Circuits, d: map<Id, real>, visited: set<Id>):
      (u: map<Id, real>)
    requires WellFormed(bats, circuits) && d.Keys == bats.Keys
    ensures u.Keys == bats.Keys
  {
    map id | id in bats ::
      if bats[id].circuit in visited then Mul(CircuitShare(circuits[bats[id].circuit], bats, d), d[id]) else d[id]
  }

  ghost function DeltasFor(bats: Batteries, circuits: Circuits, cfg: DispatcherConfig, gridW: real, now: Time):
      (d: map<Id, real>)
    requires WellFormed(bats, circuits)
    ensures d.Keys == bats.Keys
  {
    if NothingToDo(bats, circuits, gridW, now) then map id | id in bats :: 0.0
    else CappedDeltas(bats, circuits, RawDeltas(bats, circuits, cfg, gridW, now), circuits.Keys)
  }

  // ------------------------------------------------------------------
  // The loops of the source
  // ------------------------------------------------------------------

  method CapDeltaCircuit(c: Circuit, bats: Batteries, d: map<Id, real>) returns (u: map<Id, real>)
    requires Distinct(c.memberIds) && Members(c) <= bats.Keys == d.Keys
    requires forall m :: m in c.memberIds && bats[m].lastPlugW.None? ==> d[m] == 0.0
    ensures u.Keys == d.Keys
    ensures forall id :: id in d ==> u[id] == if id in c.memberIds then Mul(CircuitShare(c, bats, d), d[id]) else d[id]
  {
    hide CapW, Sum, Mul, CapShare;
    u := d;
    var anyReading := exists m :: m in c.memberIds && bats[m].lastPlugW.Some?;
    if anyReading {
      var measuredSum := MemberSum(c, Plugs(bats));
      var deltaSum := MemberSum(c, d);
      u := ScaleMembers(c.memberIds, d, CapShare(CapW(c.config), measuredSum, deltaSum));
    } else {
      forall id | id in d && id in c.memberIds
        ensures Mul(CircuitShare(c, bats, d), d[id]) == d[id]
      {
        MulLaws(CircuitShare(c, bats, d), d[id]);
      }
    }
  }

  lemma VisitDeltaCap(bats: Batteries, circuits: Circuits, d: map<Id, real>, before: map<Id, real>,
                      after: map<Id, real>, visited: set<Id>, c: Id)
    requires WellFormed(bats, circuits) && d.Keys == bats.Keys == after.Keys && c in circuits && c !in visited
    requires before == CappedDeltas(bats, circuits, d, visited)
    requires forall id :: id in bats ==>
      after[id] == if id in circuits[c].memberIds then Mul(CircuitShare(circuits[c], bats, before), before[id])
                   else before[id]
    ensures after == CappedDeltas(bats, circuits, d, visited + {c})
  {
    hide CapW, Mul, Sum, CapShare;
    SumEqual(Members(circuits[c]), d, before);
    forall id | id in bats
      ensures after[id] == CappedDeltas(bats, circuits, d, visited + {c})[id]
    {
      assert Homed(id, bats[id], circuits);
    }
  }

  method CapAllDeltas(bats: Batteries, circuits: Circuits, d: map<Id, real>) returns (u: map<Id, real>)
    requires WellFormed(bats, circuits) && d.Keys == bats.Keys
    requires forall m :: m in bats && bats[m].lastPlugW.None? ==> d[m] == 0.0
    ensures u == CappedDeltas(bats, circuits, d, circuits.Keys)
  {
    hide CircuitShare, Mul, Homed;
    u := d;
    var todo := circuits.Keys;
    assert circuits.Keys - todo == {};
    while todo != {}
      invariant todo <= circuits.Keys
      invariant u == CappedDeltas(bats, circuits, d, circuits.Keys - todo)
      invariant forall m :: m in bats && bats[m].lastPlugW.None? ==> u[m] == 0.0
      decreases todo
    {
      var c :| c in todo;
      ghost var before := u;
      u := CapDeltaCircuit(circuits[c], bats, u);
      assert circuits.Keys - (todo - {c}) == (circuits.Keys - todo) + {c};
      VisitDeltaCap(bats, circuits, d, before, u, circuits.Keys - todo, c);
      forall m | m in bats && bats[m].lastPlugW.None?
        ensures u[m] == 0.0
      {
        MulLaws(CircuitShare(circuits[c], bats, before), before[m]);
      }
      todo := todo - {c};
    }
    assert circuits.Keys - todo == circuits.Keys;
  }

  method SubtractPlugs(bats: Batteries, eligible: set<Id>, targets: map<Id, real>) returns (d: map<Id, real>)
    requires eligible <= bats.Keys && eligible <= targets.Keys
    ensures d == map id | id in bats :: if id in eligible then targets[id] - PlugOf(bats[id]) else 0.0
  {
    d := map id | id in bats :: 0.0;
    var todo := eligible;
    while todo != {}
      invariant todo <= eligible
      invariant d == map id | id in bats :: if id in eligible - todo then targets[id] - PlugOf(bats[id]) else 0.0
      decreases todo
    {
      var id :| id in todo;
      d := d[id := targets[id] - PlugOf(bats[id])];
      todo := todo - {id};
    }
    assert eligible - todo == eligible;
  }

  /** `compute_deltas`. */
  method ComputeDeltas(bats: Batteries, circuits: Circuits, cfg: DispatcherConfig, gridW: real, now: Time)
    returns (deltas: map<Id, real>)
    requires WellFormed(bats, circuits)
    ensures deltas == DeltasFor(bats, circuits, cfg, gridW, now)
  {
    hide SlotOf, GridCorrection, Allocate, CappedDeltas, Sum, WellFormed, HasConflict, Muted;
    deltas := map id | id in bats :: 0.0;
    var eligible := Eligible(bats, circuits, now);
    if eligible == {} {
      return;
    }
    var currentTotal := Total(eligible, Plugs(bats));
    var gridCorrection := GridCorrection(gridW, currentTotal, |eligible|);
    if Abs(gridCorrection) < CUTOFF && !HasConflict(bats, circuits, now) {
      return;
    }
    var desiredTotal := currentTotal + gridCorrection;
    var targets := DistributeEligible(Slots(bats, cfg, now, desiredTotal < 0.0), eligible, desiredTotal);
    deltas := SubtractPlugs(bats, eligible, targets);
    deltas := CapAllDeltas(bats, circuits, deltas);
  }

  // ------------------------------------------------------------------
  // Laws
  // ------------------------------------------------------------------

  /** Both modes allocate alike: reading plus correction, before the cap, is the
      share that `compute_targets` starts from. */
  lemma ModesAgree(bats: Batteries, circuits: Circuits, cfg: DispatcherConfig, gridW: real, now: Time, id: Id)
    requires id in Eligible(bats, circuits, now)
    ensures PlugOf(bats[id]) + RawDeltas(bats, circuits, cfg, gridW, now)[id]
         == Shares(bats, circuits, cfg, now, DesiredTotal(bats, Eligible(bats, circuits, now), gridW), CUTOFF)[id]
  {
    hide Allocate, SlotOf, Eligible, GridCorrection, Sum;
  }

  /** A correction asks every battery for a power inside its bounds and on the
      side of the desired total: opposing flows are realigned. */
  lemma CorrectionsAlign(bats: Batteries, circuits: Circuits, cfg: DispatcherConfig, gridW: real, now: Time, id: Id)
    requires WellFormed(bats, circuits) && id in Eligible(bats, circuits, now)
    ensures Admissible(bats[id], cfg, now, PlugOf(bats[id]) + RawDeltas(bats, circuits, cfg, gridW, now)[id],
                       DesiredTotal(bats, Eligible(bats, circuits, now), gridW))
  {
    hide Allocate, SlotOf, Eligible, DesiredTotal, Sum, WellFormed, Admissible;
    ModesAgree(bats, circuits, cfg, gridW, now, id);
    SharesAreAdmissible(bats, circuits, cfg, now, DesiredTotal(bats, Eligible(bats, circuits, now), gridW), CUTOFF);
  }

  lemma ProductSign(a: real, b: real, p: real)
    requires b != 0.0 && a * b == p
    ensures a > 0.0 <==> (p > 0.0 && b > 0.0) || (p < 0.0 && b < 0.0)
    ensures a < 0.0 <==> (p < 0.0 && b > 0.0) || (p > 0.0 && b < 0.0)
  {
  }

  lemma DivideBack(x: real, y: real)
    requires y != 0.0
    ensures Mul(x / y, y) == x
    ensures 0.0 < x / y <==> (x > 0.0 && y > 0.0) || (x < 0.0 && y < 0.0)
    ensures x / y < 1.0 <==> (y > 0.0 && x < y) || (y < 0.0 && x > y)
  {
    var q := x / y;
    assert q * y == x;
    ProductSign(q, y, x);
    var p := q - 1.0;
    assert p * y == x - y;
    ProductSign(p, y, x - y);
  }

  /** The correction takes load off without crossing zero. */
  predicate Relieves(measured: real, delta: real) {
    0.0 <= measured + delta <= measured || measured <= measured + delta <= 0.0
  }

  /** What the cap makes of a circuit that reads `measured` and is to change by
      `delta`: the power it ends up with. A change that fits, or is too small to
      divide by, or takes load off, goes through in full. One that would load an
      overloaded circuit even more is cancelled. Any other lands on the cap, on
      the side it was going to. */
  function LandsAt(cap: real, measured: real, delta: real): real {
    var post := measured + delta;
    if -cap <= post <= cap || -CUTOFF <= delta <= CUTOFF || Relieves(measured, delta) then post
    else if (measured > cap && delta > 0.0) || (measured < -cap && delta < 0.0) then measured
    else if post > cap then cap
    else -cap
  }

  lemma CapShareLands(cap: real, measured: real, delta: real)
    requires cap >= 0.0
    ensures var k := CapShare(cap, measured, delta);
            && 0.0 <= k <= 1.0 && measured + Mul(k, delta) == LandsAt(cap, measured, delta)
            && (LandsAt(cap, measured, delta) == measured + delta ==> k == 1.0)
  {
    hide Mul;
    var k := CapShare(cap, measured, delta);
    MulLaws(k, delta);
    MulLaws(1.0, delta);
    MulLaws(0.0, delta);
    if Abs(measured + delta) > cap && Abs(delta) > CUTOFF {
      var gap := (if measured + delta < 0.0 then -cap else cap) - measured;
      DivideBack(gap, delta);
    }
    if k < 1.0 {
      MulSign(1.0 - k, delta);
    }
  }

  /** No share above the one chosen would do better: every larger one takes the
      circuit beyond the cap, and further than it was. */
  lemma CapShareIsLargest(cap: real, measured: real, delta: real, share: real)
    requires cap >= 0.0 && CapShare(cap, measured, delta) < share <= 1.0
    ensures Abs(measured + Mul(share, delta)) > cap
    ensures Abs(measured + Mul(share, delta)) > Abs(LandsAt(cap, measured, delta))
  {
    hide Mul;
    var k := CapShare(cap, measured, delta);
    CapShareLands(cap, measured, delta);
    MulAdd(delta, k, share - k);
    MulSign(share - k, delta);
    MulLaws(k, delta);
    MulSign(1.0 - k, delta);
    MulCommutes(share, delta);
    MulCommutes(k, delta);
    MulCommutes(share - k, delta);
    MulLaws(1.0, delta);
  }

  lemma MulCommutes(x: real, y: real)
    ensures Mul(x, y) == Mul(y, x)
  {
  }

  lemma CorrectedCircuit(bats: Batteries, circuits: Circuits, d: map<Id, real>, c: Id)
    requires WellFormed(bats, circuits) && d.Keys == bats.Keys && c in circuits && circuits[c].memberIds != []
    ensures var m := Members(circuits[c]);
            && m <= bats.Keys
            && Sum(m, Plugs(bats)) + Sum(m, CappedDeltas(bats, circuits, d, circuits.Keys))
                 == LandsAt(CapW(circuits[c].config), Sum(m, Plugs(bats)), Sum(m, d))
  {
    hide CapW, Mul, Sum, CapShare, LandsAt, LimitsOk;
    var m := Members(circuits[c]);
    PopulatedCapIsNonNegative(bats, circuits, c);
    SumScaled(m, d, CircuitShare(circuits[c], bats, d), CappedDeltas(bats, circuits, d, circuits.Keys));
    CapShareLands(CapW(circuits[c].config), Sum(m, Plugs(bats)), Sum(m, d));
  }

  // ------------------------------------------------------------------
  // A whole tick
  // ------------------------------------------------------------------

  /** The members of the circuit are not muted, and one of them discharges more
      than the firmware minimum while another charges more than that. */
  ghost predicate WorksAgainstItself(c: Circuit, bats: Batteries, now: Time) {
    && (c.silentUntil.None? || c.silentUntil.value <= now)
    && exists a, b :: (&& a in c.memberIds && b in c.memberIds && a in bats && b in bats
                       && bats[a].lastPlugW.Some? && bats[a].lastPlugW.value > MARSTEK_MIN_W
                       && bats[b].lastPlugW.Some? && bats[b].lastPlugW.value < -MARSTEK_MIN_W)
  }

  /** The grid is where it should be: 10 W of export while the fleet of n as a
      whole charges, 10 W of import while it discharges, anything in between while
      it idles, which it does below 25 W a battery. */
  predicate GridInPlace(gridW: real, total: real, n: nat) {
    var idle := Max(25.0 * n as real, SAFETY_MARGIN_W);
    if total < -idle then -CUTOFF < gridW + SAFETY_MARGIN_W < CUTOFF
    else if total > idle then -CUTOFF < gridW - SAFETY_MARGIN_W < CUTOFF
    else -SAFETY_MARGIN_W - CUTOFF < gridW < SAFETY_MARGIN_W + CUTOFF
  }

  /** Nobody can act, or nobody needs to. */
  ghost predicate AtRest(bats: Batteries, circuits: Circuits, gridW: real, now: Time) {
    var eligible := Eligible(bats, circuits, now);
    || eligible == {}
    || (&& GridInPlace(gridW, Sum(eligible, Plugs(bats)), |eligible|)
        && !exists c :: c in circuits && WorksAgainstItself(circuits[c], bats, now))
  }

  lemma RestMeansNothingToDo(bats: Batteries, circuits: Circuits, gridW: real, now: Time)
    ensures AtRest(bats, circuits, gridW, now) <==> NothingToDo(bats, circuits, gridW, now)
  {
    hide Eligible, Sum;
    var eligible := Eligible(bats, circuits, now);
    IdleIsHalfTheMinimum(|eligible|);
    forall c | c in circuits
      ensures WorksAgainstItself(circuits[c], bats, now) <==> Conflicted(circuits[c], bats, now)
    {
    }
  }

  lemma IdleIsHalfTheMinimum(n: nat)
    ensures IdleThreshold(n) == Max(25.0 * n as real, SAFETY_MARGIN_W)
  {
  }

  /** Main result, on a whole Pulse tick: at rest nobody is told anything;
      otherwise every circuit ends up where the cap lets the wanted change take
      it, and its members share that change in proportion to what they want. */
  lemma PulseTickLands(bats: Batteries, circuits: Circuits, cfg: DispatcherConfig, gridW: real, now: Time, c: Id)
    requires WellFormed(bats, circuits) && c in circuits && circuits[c].memberIds != []
    ensures var m := Members(circuits[c]);
            var d, raw := DeltasFor(bats, circuits, cfg, gridW, now), RawDeltas(bats, circuits, cfg, gridW, now);
            && m <= bats.Keys
            && if AtRest(bats, circuits, gridW, now) then forall id :: id in bats ==> d[id] == 0.0
               else
                 && Sum(m, Plugs(bats)) + Sum(m, d)
                      == LandsAt(CapW(circuits[c].config), Sum(m, Plugs(bats)), Sum(m, raw))
                 && (forall id :: id in m ==> Mul(Sum(m, raw), d[id]) == Mul(Sum(m, d), raw[id]))
                 && (Sum(m, d) == Sum(m, raw) ==> forall id :: id in m ==> d[id] == raw[id])
                 && forall id :: id in m && id !in Eligible(bats, circuits, now) ==> d[id] == 0.0
  {
    hide CapW, CappedDeltas, RawDeltas, Sum, LandsAt, AtRest, NothingToDo, Eligible;
    RestMeansNothingToDo(bats, circuits, gridW, now);
    if !NothingToDo(bats, circuits, gridW, now) {
      CorrectedCircuit(bats, circuits, RawDeltas(bats, circuits, cfg, gridW, now), c);
      OthersStay(bats, circuits, cfg, gridW, now);
      SharedInProportion(bats, circuits, RawDeltas(bats, circuits, cfg, gridW, now), c);
    }
  }

  lemma OthersStay(bats: Batteries, circuits: Circuits, cfg: DispatcherConfig, gridW: real, now: Time)
    ensures forall id :: id in bats && id !in Eligible(bats, circuits, now) ==>
      RawDeltas(bats, circuits, cfg, gridW, now)[id] == 0.0
  {
    hide Eligible, SlotOf, Allocate, GridCorrection, Sum;
  }

  lemma SharedInProportion(bats: Batteries, circuits: Circuits, raw: map<Id, real>, c: Id)
    requires WellFormed(bats, circuits) && raw.Keys == bats.Keys && c in circuits && circuits[c].memberIds != []
    ensures Members(circuits[c]) <= bats.Keys
    ensures var m, d := Members(circuits[c]), CappedDeltas(bats, circuits, raw, circuits.Keys);
            && (forall id :: id in m ==> Mul(Sum(m, raw), d[id]) == Mul(Sum(m, d), raw[id]))
            && (Sum(m, d) == Sum(m, raw) ==> forall id :: id in m ==> d[id] == raw[id])
            && (forall id :: id in m && raw[id] == 0.0 ==> d[id] == 0.0)
  {
    hide CapW, CapShare, LandsAt, Sum, Mul, LimitsOk;
    var m, d := Members(circuits[c]), CappedDeltas(bats, circuits, raw, circuits.Keys);
    var k := CircuitShare(circuits[c], bats, raw);
    SumScaled(m, raw, k, d);
    PopulatedCapIsNonNegative(bats, circuits, c);
    CapShareLands(CapW(circuits[c].config), Sum(m, Plugs(bats)), Sum(m, raw));
    forall id | id in m
      ensures Mul(Sum(m, raw), d[id]) == Mul(Sum(m, d), raw[id]) && Mul(1.0, raw[id]) == raw[id]
      ensures raw[id] == 0.0 ==> Mul(k, raw[id]) == 0.0
    {
      MulMoves(Sum(m, raw), k, raw[id]);
      MulLaws(1.0, raw[id]);
      MulLaws(k, raw[id]);
    }
  }

  lemma MulMoves(w: real, k: real, x: real)
    ensures Mul(w, Mul(k, x)) == Mul(Mul(k, w), x)
  {
  }

  /** So reading plus correction of a circuit exceeds the larger of cap and
      reading by no more than the cut-off. */
  lemma PulseCapHolds(bats: Batteries, circuits: Circuits, cfg: DispatcherConfig, gridW: real, now: Time, c: Id)
    requires WellFormed(bats, circuits) && c in circuits && circuits[c].memberIds != []
    ensures var m := Members(circuits[c]);
            var measured := Sum(m, Plugs(bats));
            && m <= bats.Keys
            && Abs(measured + Sum(m, DeltasFor(bats, circuits, cfg, gridW, now)))
                 <= Max(CapW(circuits[c].config), Abs(measured)) + CUTOFF
  {
    hide CapW, DeltasFor, RawDeltas, Sum, AtRest, LimitsOk, Mul;
    PopulatedCapIsNonNegative(bats, circuits, c);
    PulseTickLands(bats, circuits, cfg, gridW, now, c);
    if AtRest(bats, circuits, gridW, now) {
      SumZero(Members(circuits[c]), DeltasFor(bats, circuits, cfg, gridW, now));
    }
  }
}
