/** One Modbus-mode tick, `step_modbus`: targets are computed, compensated,
    rounded and sent to every battery that is neither cut off nor muted, while
    the commanded watts are added up per circuit for the over-cap alarm. */
module ModbusMode {
  import opened Prelude
  import opened Sums
  import opened Config
  import opened State
  import opened WaterFill
  import opened Demand
  import opened Mute
  import opened Targets
  import opened Setpoints
  import opened CapSafety
  import PulseMode
  import TargetLaws

  /** Batteries on circuit c. */
  function On(bats: Batteries, c: Id): (s: set<Id>)
    ensures s <= bats.Keys
  {
    set id | id in bats && bats[id].circuit == c
  }

  ghost function CommandedOn(bats: Batteries, t: map<Id, real>, c: Id, visited: set<Id>): real
    requires t.Keys == bats.Keys
  {
    Sum(On(bats, c) * visited, Commands(bats, t))
  }

  /** The batteries that can be told anything. */
  function Writers(bats: Batteries): set<Id> {
    set id | id in bats && bats[id].hasWriter
  }

  /** What a tick sends: one setpoint per dispatched battery that has a writer. */
  function Plan(bats: Batteries, t: map<Id, real>, dispatched: set<Id>): map<Id, Setpoint>
    requires dispatched <= bats.Keys == t.Keys
  {
    map id | id in dispatched && bats[id].hasWriter && CommandFor(bats[id], t[id]).Some? ::
      CommandFor(bats[id], t[id]).value
  }

  /** No setpoint of the tick hits the clamp panic. */
  predicate NoPanic(bats: Batteries, t: map<Id, real>, dispatched: set<Id>)
    requires dispatched <= bats.Keys == t.Keys
  {
    forall id :: id in dispatched ==> CommandFor(bats[id], t[id]).Some?
  }

  /** The circuits whose commanded sum is over their cap. */
  ghost function OverCap(bats: Batteries, circuits: Circuits, t: map<Id, real>, dispatched: set<Id>): set<Id>
    requires t.Keys == bats.Keys
  {
    set c | c in circuits && On(bats, c) * dispatched != {}
            && Abs(CommandedOn(bats, t, c, dispatched)) > CapW(circuits[c].config)
  }

  lemma VisitCommand(bats: Batteries, t: map<Id, real>, c: Id, visited: set<Id>, id: Id)
    requires t.Keys == bats.Keys && visited <= bats.Keys && id in bats && id !in visited
    ensures CommandedOn(bats, t, c, visited + {id}) == CommandedOn(bats, t, c, visited)
              + (if bats[id].circuit == c then Commands(bats, t)[id] else 0.0)
  {
    hide CommandedW;
    var before, after := On(bats, c) * visited, On(bats, c) * (visited + {id});
    if bats[id].circuit == c {
      SumPick(after, Commands(bats, t), id);
      assert after - {id} == before;
    } else {
      assert after == before;
    }
  }

  /** The send loop with its per-circuit accumulators; None is the panic. */
  method SendAll(bats: Batteries, circuits: Circuits, t: map<Id, real>, now: Time)
    returns (sent: Option<map<Id, Setpoint>>, commandedPerCircuit: map<Id, real>)
    requires t.Keys == bats.Keys
    ensures var dispatched := Dispatched(bats, circuits, now);
            && (sent.Some? <==> NoPanic(bats, t, dispatched))
            && (sent.Some? ==>
                  && sent.value == Plan(bats, t, dispatched)
                  && commandedPerCircuit.Keys == (set id | id in dispatched :: bats[id].circuit)
                  && forall c :: c in commandedPerCircuit ==>
                       commandedPerCircuit[c] == CommandedOn(bats, t, c, dispatched))
  {
    hide CommandFor, CommandedOn, Muted;
    ghost var dispatched := Dispatched(bats, circuits, now);
    var sends: map<Id, Setpoint> := map[];
    commandedPerCircuit := map[];
    var todo := bats.Keys;
    ghost var visited: set<Id> := {};
    while todo != {}
      invariant todo <= bats.Keys && visited == dispatched - todo
      invariant NoPanic(bats, t, visited)
      invariant sends == Plan(bats, t, visited)
      invariant commandedPerCircuit.Keys == set id | id in visited :: bats[id].circuit
      invariant forall c :: c in commandedPerCircuit ==> commandedPerCircuit[c] == CommandedOn(bats, t, c, visited)
      decreases todo
    {
      var id :| id in todo;
      todo := todo - {id};
      var b := bats[id];
      if IsCut(b, now) || Muted(circuits, b.circuit, now) {
        assert dispatched - todo == visited;
        continue;
      }
      assert dispatched - todo == visited + {id};
      var sp := CommandFor(b, t[id]);
      if sp.None? {
        return None, map[];
      }
      if b.hasWriter {
        sends := sends[id := sp.value];
      }
      var soFar := if b.circuit in commandedPerCircuit then commandedPerCircuit[b.circuit] else 0.0;
      AccumulatorStep(bats, t, visited, id, commandedPerCircuit, soFar);
      commandedPerCircuit := commandedPerCircuit[b.circuit := soFar + ToSignedWatts(sp.value)];
      visited := visited + {id};
    }
    assert visited == dispatched;
    return Some(sends), commandedPerCircuit;
  }

  lemma AccumulatorStep(bats: Batteries, t: map<Id, real>, visited: set<Id>, id: Id, sums: map<Id, real>, soFar: real)
    requires t.Keys == bats.Keys && visited <= bats.Keys && id in bats && id !in visited
    requires sums.Keys == set v | v in visited :: bats[v].circuit
    requires forall c :: c in sums ==> sums[c] == CommandedOn(bats, t, c, visited)
    requires soFar == if bats[id].circuit in sums then sums[bats[id].circuit] else 0.0
    ensures soFar == CommandedOn(bats, t, bats[id].circuit, visited)
    ensures forall c :: CommandedOn(bats, t, c, visited + {id}) == CommandedOn(bats, t, c, visited)
                          + (if bats[id].circuit == c then CommandedW(bats[id], t[id]) else 0.0)
  {
    hide CommandedW;
    var home := bats[id].circuit;
    if home !in sums {
      assert On(bats, home) * visited == {};
    }
    forall c
      ensures CommandedOn(bats, t, c, visited + {id}) == CommandedOn(bats, t, c, visited)
                + (if home == c then CommandedW(bats[id], t[id]) else 0.0)
    {
      VisitCommand(bats, t, c, visited, id);
    }
  }

  /** `step_modbus`, for a fleet that has a writer pool. */
  method StepModbus(state: AppState, cfg: DispatcherConfig, gridAt: Option<Time>, gridW: real, now: Time)
    returns (sent: Option<map<Id, Setpoint>>, alarms: set<Id>)
    requires WellFormed(state.batteries, state.circuits)
    modifies state`circuits
    ensures state.circuits == MuteAll(old(state.circuits), state.batteries, cfg, gridAt, now)
    ensures WellFormed(state.batteries, state.circuits)
    ensures !GridFresh(gridAt, cfg, now) ==>
      sent == Some(map id | id in Writers(state.batteries) :: Standby) && alarms == {}
    ensures var t := TargetsFor(state.batteries, state.circuits, cfg, gridW, now, CUTOFF);
            var dispatched := Dispatched(state.batteries, state.circuits, now);
            GridFresh(gridAt, cfg, now) ==>
              && (sent.None? <==> !NoPanic(state.batteries, t, dispatched))
              && (sent.Some? ==> sent.value == Plan(state.batteries, t, dispatched)
                                 && alarms == OverCap(state.batteries, state.circuits, t, dispatched))
  {
    hide MuteAll, WellFormed, TargetsFor, NoPanic, Plan, Dispatched, CapW, CommandedOn;
    alarms := {};
    PulseMode.MutedIsWellFormed(state.batteries, state.circuits, cfg, gridAt, now);
    var gridFresh := UpdateCircuitMute(state, cfg, gridAt, now);
    if !gridFresh {
      return Some(map id | id in Writers(state.batteries) :: Standby), {};
    }
    var targets := ComputeTargets(state.batteries, state.circuits, cfg, gridW, now);
    var commanded;
    sent, commanded := SendAll(state.batteries, state.circuits, targets, now);
    alarms := set c | c in commanded.Keys && c in state.circuits && Abs(commanded[c]) > CapW(state.circuits[c].config);
    if sent.Some? {
      forall c
        ensures c in commanded <==> On(state.batteries, c) * Dispatched(state.batteries, state.circuits, now) != {}
      {
        if c in commanded {
          var id :| id in Dispatched(state.batteries, state.circuits, now) && state.batteries[id].circuit == c;
          assert id in On(state.batteries, c) * Dispatched(state.batteries, state.circuits, now);
        }
      }
    }
  }

  /** No cut of the battery is pending, and its circuit is not muted. */
  predicate Addressed(b: Battery, circuits: Circuits, now: Time) {
    && (b.plugCutUntil.None? || b.plugCutUntil.value <= now)
    && (b.circuit in circuits ==>
          circuits[b.circuit].silentUntil.None? || circuits[b.circuit].silentUntil.value <= now)
  }

  /** Whom a tick tells what: every battery that has a writer, no pending cut and
      no muted circuit, its target less the overhead, in the bounds of the
      firmware and of the battery. */
  lemma ToldIff(bats: Batteries, circuits: Circuits, t: map<Id, real>, now: Time, id: Id)
    requires t.Keys == bats.Keys && NoPanic(bats, t, Dispatched(bats, circuits, now))
    ensures var plan := Plan(bats, t, Dispatched(bats, circuits, now));
            && (id in plan <==> id in bats && bats[id].hasWriter && Addressed(bats[id], circuits, now))
            && (id in plan ==>
                  var overhead := if bats[id].plugOverheadWSmoothed.None? then 0.0
                                  else bats[id].plugOverheadWSmoothed.value;
                  Some(plan[id]) == FromSignedWatts(Compensated(t[id], overhead), bats[id].maxChargeW,
                                                    bats[id].maxDischargeW))
  {
    hide FromSignedWatts, Compensated;
  }

  /** The watts that a plan puts on circuit c. */
  ghost function PlannedOn(bats: Batteries, plan: map<Id, Setpoint>, c: Id): real {
    Sum(set id | id in plan && id in bats && bats[id].circuit == c, map id | id in plan :: ToSignedWatts(plan[id]))
  }

  /** The alarm on a circuit whose batteries all have writers: it goes off exactly
      when what the tick sends there adds up to more than the fuse carries. */
  lemma AlarmIff(bats: Batteries, circuits: Circuits, t: map<Id, real>, now: Time, c: Id)
    requires t.Keys == bats.Keys && NoPanic(bats, t, Dispatched(bats, circuits, now))
    requires c in circuits && forall id :: id in bats && bats[id].circuit == c ==> bats[id].hasWriter
    ensures c in OverCap(bats, circuits, t, Dispatched(bats, circuits, now))
       <==> var plan, fuse := Plan(bats, t, Dispatched(bats, circuits, now)), circuits[c].config;
            && (exists id :: id in plan && bats[id].circuit == c)
            && Abs(PlannedOn(bats, plan, c)) > fuse.fuseAmps * fuse.voltage * fuse.phases as real
  {
    hide CommandFor, Muted, IsCut, Sum;
    var dispatched := Dispatched(bats, circuits, now);
    var plan := Plan(bats, t, dispatched);
    var on := On(bats, c) * dispatched;
    assert on == set id | id in plan && id in bats && bats[id].circuit == c;
    SumEqual(on, Commands(bats, t), map id | id in plan :: ToSignedWatts(plan[id]));
    assert PlannedOn(bats, plan, c) == CommandedOn(bats, t, c, dispatched);
    var sent := exists id :: id in plan && bats[id].circuit == c;
    if id :| id in plan && bats[id].circuit == c {
      assert id in on;
    }
    if id :| id in on {
      assert id in plan && bats[id].circuit == c;
    }
    assert sent <==> on != {};
  }

  /** No tick panics on a fleet whose dispatched batteries all have limits of at
      least the firmware minimum in both directions ... */
  lemma LimitsPreventPanic(bats: Batteries, t: map<Id, real>, dispatched: set<Id>)
    requires dispatched <= bats.Keys == t.Keys
    requires forall id :: id in dispatched ==>
      bats[id].maxChargeW >= MARSTEK_MIN_W && bats[id].maxDischargeW >= MARSTEK_MIN_W
    ensures NoPanic(bats, t, dispatched)
  {
    hide FromSignedWatts, Compensated, OverheadOf;
    forall id | id in dispatched
      ensures CommandFor(bats[id], t[id]).Some?
    {
      PanicsBelowMinimum(Compensated(t[id], OverheadOf(bats[id])), bats[id].maxChargeW, bats[id].maxDischargeW);
    }
  }

  /** ... and a battery that cannot discharge that much panics the tick as soon as
      its plug reads 50 W more discharge than one ramp step can take back,
      whatever the grid reads. */
  lemma ReadingPanics(bats: Batteries, circuits: Circuits, cfg: DispatcherConfig, gridW: real, now: Time, id: Id)
    requires WellFormed(bats, circuits) && id in Eligible(bats, circuits, now) * Dispatched(bats, circuits, now)
    requires bats[id].maxDischargeW < MARSTEK_MIN_W && OverheadOf(bats[id]) == 0.0
    requires bats[id].circuit in circuits && Members(circuits[bats[id].circuit]) == {id}
    requires RateLimit(cfg) + MARSTEK_MIN_W <= PlugOf(bats[id]) <= CapW(circuits[bats[id].circuit].config)
    ensures !NoPanic(bats, TargetsFor(bats, circuits, cfg, gridW, now, CUTOFF), Dispatched(bats, circuits, now))
  {
    hide Wanted, WellFormed, Eligible, DesiredTotal, RateLimit, CapW, ScaleTo, Mul, LowBound, HighBound, LimitsOk, Sum;
    hide FromSignedWatts;
    var eligible := Eligible(bats, circuits, now);
    var c, desired := circuits[bats[id].circuit], DesiredTotal(bats, eligible, gridW);
    var wanted := Wanted(bats, circuits, cfg, now, desired, CUTOFF);
    var limited := RateLimited(bats, eligible, wanted, RateLimit(cfg));
    TargetLaws.WantedIsAdmissible(bats, circuits, cfg, now, desired, CUTOFF);
    TargetLaws.LimitsOfWellFormed(bats, circuits);
    BoundsOrdered(bats[id], cfg, now);
    SumOfMember(id, limited);
    SumOfMember(id, Plugs(bats));
    ScaleIsAFraction(CapW(c.config), WorstCase(c, bats, limited));
    MulLaws(1.0, limited[id]);
    assert TargetsFor(bats, circuits, cfg, gridW, now, CUTOFF)[id] == PlugOf(bats[id]) - RateLimit(cfg);
    PanicsBelowMinimum(PlugOf(bats[id]) - RateLimit(cfg), bats[id].maxChargeW, bats[id].maxDischargeW);
  }

  lemma SumOfMember(id: Id, f: map<Id, real>)
    requires id in f
    ensures Sum({id}, f) == f[id]
  {
    SumPick({id}, f, id);
    assert {id} - {id} == {};
  }

  /** Main result: the "commanded sum OVER cap" alarm cannot fire on a circuit
      where no reading opposes the dispatch by more than the rate limit and no
      overhead exceeds its target by the firmware minimum. */
  lemma NoAlarm(bats: Batteries, circuits: Circuits, cfg: DispatcherConfig, gridW: real, now: Time, c: Id)
    requires WellFormed(bats, circuits) && c in circuits
    requires var eligible := Eligible(bats, circuits, now);
             NoOpposition(circuits[c], bats, eligible, DesiredTotal(bats, eligible, gridW), RateLimit(cfg))
    requires var t := TargetsFor(bats, circuits, cfg, gridW, now, CUTOFF);
             forall m :: m in circuits[c].memberIds && m in bats ==> OverheadFits(t[m], OverheadOf(bats[m]))
    ensures c !in OverCap(bats, circuits, TargetsFor(bats, circuits, cfg, gridW, now, CUTOFF),
                          Dispatched(bats, circuits, now))
  {
    hide TargetsFor, NoOpposition, OverheadFits, CapW, Commands, Sum, Dispatched, DesiredTotal, Eligible, RateLimit;
    MembersAreOn(bats, circuits, c);
    if circuits[c].memberIds != [] {
      CommandedUnderCap(bats, circuits, cfg, gridW, now, CUTOFF, c);
    }
  }

  lemma MembersAreOn(bats: Batteries, circuits: Circuits, c: Id)
    requires WellFormed(bats, circuits) && c in circuits
    ensures On(bats, c) == Members(circuits[c])
  {
    hide CapW, LimitsOk;
    forall id | id in bats
      ensures id in circuits[c].memberIds <==> bats[id].circuit == c
    {
      assert Homed(id, bats[id], circuits);
    }
  }
}
