# Dispatcher verification

A Dafny model of the multi-battery dispatcher with proofs of what it promises.
`dafny verify dfyconfig.toml` checks the whole project.

The dispatcher reads the grid meter and one smart plug per battery, decides how
many watts every battery should deliver, and tells the batteries so: by writing
inverter registers over Modbus, or, in the older Pulse mode, by feeding each
battery a short burst of fake meter readings. Circuits share fuses, so their
totals are capped, and an overload that will not go away is ended by opening
plug relays. Watts are positive when a battery discharges.

## What is modelled, and how

| file | part of the system |
|---|---|
| Prelude, Sums | numeric vocabulary, order-free sums over hash maps |
| Config, State | configuration, validation, start-up, battery and circuit records, bounds |
| WaterFill, WaterFillLaws, SixRounds, Redistribution | the redistribution loop of both modes |
| Demand, Limits, Preference | grid correction, eligibility, bounds and weights and what they favour |
| Targets, TargetLaws, CapSafety, Setpoints, ModbusMode, CapOverruns | Modbus mode, from shares to commands |
| ClosedLoop, Settling, Convergence, Resting, Clock, SteadyState | the dispatcher in its loop with a constant load |
| Unreached, CutCell | batteries that get a share and no command |
| CoarseLoop, CoarseSettling | the loop through setpoints and writer |
| Deltas, Mute, Pulses, PulseMode | Pulse mode, one tick |
| MuteRuns, PlugReadings, Bursts | mutes, readings and bursts over time |
| PulseRuns, PulseHistory | Pulse mode, every interleaving of ticks, polls and readings |
| Escalation, EscalationRuns, Remediation | emergency standby and relay trips |
| Registers, Writer, WriterRuns | inverter register sequences and the writer task |
| Overhead | the loop of command, plug reading and overhead estimate |
| Cache | register refreshes and the virtual Modbus server |

Watts and seconds are reals. Hash maps are maps, iterated in arbitrary order. Code
that updates state is a method proved equal to a specification function; the laws
are lemmas about those functions. The code's 1e-3 cut-off is `CUTOFF`; laws that
do not depend on its value take a cut-off `eps >= 0`. `Times(n, eps)` is n times
`eps`, and `Mul` is a product under a name. A tick reads the clock once; the
settle gate, which reads it again, takes that reading as a parameter. The
configuration can be replaced between ticks: runs of the pulse protocol and of the
safety check carry the one that each tick loaded.

In the loop the load is constant and a battery that a tick sends a setpoint lands
on it before the next: on its target in ClosedLoop, on the setpoint written last
in CoarseLoop. A cut battery delivers nothing, and one without a writer goes on as
before.

## Where code and comments differ

The model follows the code.

- src/dispatcher.rs:1451-1455 says the rate limit only shrinks targets. It can
  enlarge and reverse them; `TargetLaws.LimitedShrinksIff`,
  `TargetLaws.LimitedLeavesBounds` and `TargetLaws.TargetFollowsDispatch` say
  exactly when.
- src/dispatcher.rs:890-893 says Modbus mode mutes the current cycle when a reading
  is stale. It mutes nothing (`Mute.ModbusNeverMutes`).
- src/dispatcher.rs:611-615 says parallel writes cannot exceed the cap. They can when
  a reading opposes the dispatch or an overhead exceeds its target by 50 W
  (`CapSafety.CommandedUnderCap`, and a state for each in CapOverruns).
- src/dispatcher.rs:456-458 says the dispatch math of the cycle sees that a battery
  is cut. The allocation does not look: it goes on asking for the share of a cut
  battery, and of one without a writer (`CutCell.CutCellIsMissed`, and
  `Unreached.SettlesIffNobodyAsked` for exactly when this matters).
- src/config.rs:248-250 says a ramp to 2 kW takes 2000 / rate_limit cycles. Below
  50 W per cycle it never starts (`CoarseSettling.SlowRampNeverStarts`).
- src/modbus.rs:401-416 relies on registers that start from a clean slate, which
  initialisation does not establish (`Registers.InitParksIff`).
- src/dispatcher.rs:319-320 says the phase timestamps reset when the circuit drops
  back under cap. They do not while the margin is 0
  (`EscalationRuns.FrozenTimersTrip`).
- src/plug.rs:111-141 means to keep readings that the command did not cause out of the
  overhead estimate. A plug at exactly 0 W counts as charging, and under a charge
  command is taken for overhead (`PlugReadings.ZeroCountsAsCharge`).
- src/config.rs:1108-1118 compares the two charge cut-offs of a battery only when it
  sets both (`Limits.FullAndEmpty`).
- Six redistribution rounds suffice for six batteries and for no larger fleet
  (`SixRounds.SixRoundsSufficeIff`).

## Model

Rows that start with "Main:" are the results the rest builds up to, those with
"Code:" the modelled operations; the others are laws used on the way.

| member | source | states |
|---|---|---|
| WaterFill.RoundKeepsLevel | src/dispatcher.rs:1334-1361 | after every round there is one level lambda, on the side of the desired total and never nearer to 0 than before, at which every target is lambda times its weight clamped to its bounds; targets and remainder add up to the desired total; a round that clamps nobody leaves at most one cut-off per battery |
| WaterFill.AllocateIsWaterFill | src/dispatcher.rs:1324-1362 | Main: for any number of batteries and any cut-off the loop ends in a water-filling inside all bounds, pointing one way and never overshooting; it falls short by more than the cut-offs only when every weighted battery is at its bound or six rounds each filled one |
| WaterFillLaws.WaterFillIsUnique | src/dispatcher.rs:1324-1362 | Main: two water-fillings with the same total are the same map, so hash-map order and round structure cannot matter |
| WaterFillLaws.AllocateConserves | src/dispatcher.rs:1327-1362 | Main: with at most six eligible batteries the allocation adds up to the desired total, or to all the weighted room when that is less, within one cut-off per battery |
| WaterFillLaws.AllocateIsExact | src/dispatcher.rs:1327-1362 | Main: without cut-offs the total is exact, and a map is the allocation if and only if it is a water-filling with that total |
| SixRounds.SixRoundsSufficeIff | src/dispatcher.rs:1327-1327 | Main: every fleet of n batteries is handed its reachable total, within one cut-off each, if and only if n is at most six; for any cut-off below 1 W, as long as the n cut-offs stay below 1 W |
| SixRounds.FleetFallsShort | src/dispatcher.rs:1327-1327 | counterexample for every larger fleet: seven given batteries and any number of full ones, 7000 W reachable, 6999 W handed out |
| Redistribution.DistributeEligible | src/dispatcher.rs:1148-1185 | Code: the Pulse-mode loop, which sums all targets as assigned, computes the allocation |
| Redistribution.DistributeAmongAll | src/dispatcher.rs:1324-1362 | Code: the Modbus-mode loop, which sums active and other targets separately over all batteries, computes the same allocation and 0 W for everyone else |
| State.BoundsOrdered | src/dispatcher.rs:1006-1037 | the bounds enclose 0 and stay inside the hardware limits, whatever taper, cut-off or lockout is in force |
| Limits.ChargeBoundIff | src/dispatcher.rs:1024-1037 | charging is shut exactly when it is locked out, has no hardware power, or the charge has reached the cut-off, which is the battery's own, else the BMS's, else the fleet's; when open it is bounded by the taper power inside a configured taper and by the hardware limit outside |
| Limits.DischargeBoundIff | src/dispatcher.rs:1006-1019 | the same for discharging |
| Limits.WeightIsEnergyLeft | src/dispatcher.rs:1121-1146 | a battery that is not locked out weighs priority times capacity times the points left to its cut-off, 50 when the charge is unknown |
| Limits.FreshBatteryObeysConfig | src/state.rs:211-260 | a battery starts without reading, lock, cut, estimate or burst, and from then on its bounds and its claim are those of its configuration at every state of charge |
| Limits.NeverFullAndEmpty | src/config.rs:1108-1190 | a validated battery that sets both cut-offs, none, or a taper is never full and empty at once |
| Limits.FullAndEmpty | src/config.rs:1108-1118 | counterexample for one that sets a single cut-off: full at 5 % under a fleet default of empty at 10 %, it is shut both ways in between |
| Preference.SharesAreProportional | src/dispatcher.rs:1338-1345 | Main: two eligible batteries held back by no bound share in proportion to priority times capacity times points left, and neither is locked out |
| Preference.EmptierChargesMore | src/dispatcher.rs:48-52 | Main: of two otherwise equal eligible batteries the emptier one is given no less charge and no more discharge |
| Demand.OneTickReachesTheBand | src/dispatcher.rs:962-1000 | if the corrected total is delivered, the next grid reading is within the 10 W margin, from any total and load |
| Demand.TotalStopsAfterTwoTicks | src/dispatcher.rs:967-1000 | Main: the total asked for is constant from the second tick on: the import and export targets never alternate |
| TargetLaws.PrimaryIsBest | src/dispatcher.rs:1403-1427 | the primary has the largest share in size, then the largest priority, then the last place in the list, among the members with a reading and an open bound; there is none exactly when no member has both |
| Targets.ConsolidateCircuit | src/dispatcher.rs:1383-1444 | Code: one circuit is consolidated: everything to the primary, clamped, 0 W to its siblings, or nothing changes |
| Targets.ConsolidationIsLocal | src/dispatcher.rs:1383-1444 | what consolidation does to a member depends on its own circuit only |
| Targets.ConsolidateAll | src/dispatcher.rs:1383-1444 | Code: the loop over circuits, in any order, consolidates each circuit of the original shares |
| TargetLaws.ConsolidationKeepsCircuitTotal | src/dispatcher.rs:1364-1382 | Main: consolidation never enlarges or reverses a circuit total, keeps it exactly when the primary has room for it, and otherwise leaves the primary at its bound |
| TargetLaws.ConsolidationPicksTheBest | src/dispatcher.rs:1383-1444 | Main: a circuit asked for less than 50 W as a whole, or for 50 W of some member, or without a member that can, is left alone; on any other the best candidate gets as much of the total as its bound lets it take and everybody else 0 W |
| Preference.WorthyCommandFires | src/dispatcher.rs:1364-1382 | Main: when a circuit's shares add up to at least 50 W some member is asked for at least 50 W, unless the primary has no room |
| TargetLaws.WantedIsAdmissible | src/dispatcher.rs:1377-1382 | every consolidated power lies within the battery's bounds and on the side of the desired total: consolidation cannot violate charge gates or hardware caps |
| Targets.RateLimitAll | src/dispatcher.rs:1456-1464 | Code: the loop limits every eligible battery and leaves the others alone |
| TargetLaws.LimitedStep | src/dispatcher.rs:1442-1464 | a limited target lies between reading and wanted power, exactly min(limit, distance) from the reading |
| TargetLaws.StepPerTick | src/dispatcher.rs:1456-1464 | on a tick that step is the configured limit, at least 1 W, and the target is reached when it is no further away |
| TargetLaws.LimitedLeavesBounds | src/dispatcher.rs:1451-1464 | a limited target is inside the bounds if and only if the reading is outside them by at most the limit |
| TargetLaws.LimitedShrinksIff | src/dispatcher.rs:1451-1455 | a limited target is no larger in size than the wanted power if and only if the reading exceeds that size by at most the limit |
| TargetLaws.RateLimitCanEnlarge | src/dispatcher.rs:1451-1455 | counterexample to the comment: the limit turns a wanted -300 W into +700 W |
| TargetLaws.TargetFollowsDispatch | src/dispatcher.rs:1456-1511 | Main: a final target opposes the dispatch direction if and only if the reading did so by more than the limit |
| Targets.CapCircuit | src/dispatcher.rs:1482-1511 | Code: one circuit of the cap loop scales all members alike, by cap over the larger of target sum and plug sum when that exceeds the cap |
| Targets.CapAll | src/dispatcher.rs:1482-1511 | Code: the loop over circuits, in any order, scales each circuit of the limited targets |
| Targets.ComputeTargets | src/dispatcher.rs:1261-1514 | Code: the whole computation equals the composition of the four specified stages |
| CapSafety.CapHolds | src/dispatcher.rs:1466-1511 | Main: after scaling every populated circuit adds up to at most its cap, for every state and grid reading |
| CapSafety.CapIsTight | src/dispatcher.rs:1478-1511 | a circuit whose target sum and plug sum both fit is untouched; otherwise every target is scaled by cap over the larger of the two, so targets that are the larger land exactly on the cap and plugs that over-deliver pull them below it by just that ratio |
| CapSafety.TargetsFitTheFuse | src/dispatcher.rs:1466-1511 | Main: on a whole tick, the final targets are the rate-limited ones scaled just so |
| Setpoints.PanicsBelowMinimum | src/modbus.rs:337-348 | the conversion panics exactly when a dispatchable power meets a limit below 50 W in its direction |
| Setpoints.CommandWithinRequest | src/modbus.rs:325-348 | a command never exceeds request, battery limit or 2500 W, keeps the direction, is 0 exactly below 50 W, and is less than 1 W short inside the limits |
| Setpoints.SignedWattsRoundTrip | src/modbus.rs:337-357 | a setpoint survives the round trip through signed watts exactly when it is one the conversion can produce |
| Setpoints.CompensationShrinks | src/dispatcher.rs:545-552 | the compensated power shrinks without crossing zero exactly when the railed overhead is no larger than the target or points the other way |
| Setpoints.CompensationIsRailed | src/dispatcher.rs:536-552 | compensation takes the overhead, at most 200 W of it, off a target of the same direction and leaves any other alone |
| Setpoints.CommandShrinksIff | src/dispatcher.rs:645-659 | the command finally sent does so exactly when a railed overhead that points the way of the target exceeds it by less than 50 W, or the conversion panics |
| Setpoints.RestingBatteryIsCharged | src/dispatcher.rs:545-552 | a 0 W target with a discharge overhead of at least 50 W becomes a charge command |
| CapSafety.OneWayIffNoOpposition | src/dispatcher.rs:1456-1511 | Main: on a circuit with a positive cap all targets point the way of the dispatch if and only if no reading opposes it by more than the rate limit |
| CapSafety.CommandedUnderCap | src/dispatcher.rs:645-671 | Main: end to end, what is commanded on a circuit weighs no more than its targets and those no more than its cap, if no reading opposes the dispatch beyond the rate limit and no overhead exceeds its target by 50 W; battery by battery both provisos are exact |
| CapOverruns.OppositionOverrunsTheCap | src/dispatcher.rs:611-615 | Main: counterexample without the first proviso: from readings 2000, 2000 and -1500 W, grid 3510 W and rate limit 500 W, one tick commands 3200 W on a 3000 W circuit and the alarm fires |
| CapOverruns.OverheadOverrunsTheCap | src/dispatcher.rs:611-615 | Main: counterexample without the second proviso: two resting batteries with 200 W of overhead and a balanced grid are commanded -200 W on a 100 W circuit and the alarm fires, whatever the configuration |
| ModbusMode.SendAll | src/dispatcher.rs:630-672 | Code: the send loop sends exactly the planned setpoints and its accumulators hold the commanded sum of every circuit; it fails exactly when a setpoint panics |
| ModbusMode.StepModbus | src/dispatcher.rs:559-713 | Code: one tick: standby to everyone on a stale grid, else the planned setpoints and an alarm for exactly the circuits commanded over cap |
| ModbusMode.ToldIff | src/dispatcher.rs:630-671 | the plan names exactly the batteries with a writer, no pending cut and no muted circuit, each with its compensated target in its own limits |
| ModbusMode.AlarmIff | src/dispatcher.rs:681-698 | on a circuit whose batteries all have writers the alarm goes off exactly when the setpoints sent there add up to more than amps times volts times phases |
| ModbusMode.NoAlarm | src/dispatcher.rs:681-698 | Main: the over-cap alarm cannot fire under the two provisos |
| ModbusMode.LimitsPreventPanic | src/modbus.rs:337-347 | no tick panics on a fleet whose dispatched batteries all have limits of at least 50 W both ways |
| ModbusMode.ReadingPanics | src/modbus.rs:337-347 | a battery with a smaller discharge limit, alone on its circuit, panics the tick as soon as its plug reads 50 W more discharge than one ramp step can take back, whatever the grid reads |
| CapOverruns.ChargeOnlyPanics | src/config.rs:1086-1088 | counterexample: a valid charge-only battery read at 600 W under a rate limit of 500 W |
| ClosedLoop.UnimpededTotal | src/dispatcher.rs:1291-1514 | an unimpeded tick delivers the total it asked for, less what is wanted of batteries that no command reaches beyond what they deliver, up to one cut-off per battery |
| Unreached.HeardAreSent | src/dispatcher.rs:630-671 | the batteries that the plant moves are exactly the eligible ones that the tick sends a setpoint |
| Unreached.BandIffNobodyMissed | src/dispatcher.rs:630-634 | Main: an otherwise unimpeded tick that asks for the load less the margin ends in the band if and only if nothing is wanted of any battery that is cut or has no writer |
| Unreached.SettlesIffNobodyAsked | src/dispatcher.rs:1281-1287 | Main: under a load beyond the margin, with nothing else in the way and cut-offs aside, the grid settles in the band for good if and only if every silent battery without a command is weightless or shut in the direction of the load; otherwise it ends outside for good |
| CutCell.CutCellIsMissed | src/dispatcher.rs:456-458 | Main: counterexample to the comment: two equal batteries, one cut, and 505 W come from the grid at every tick of the cut, whatever the configuration |
| ClosedLoop.UnhinderedTotal | src/dispatcher.rs:1291-1514 | with nobody missed such a tick delivers all of it |
| Settling.GridInBand | src/dispatcher.rs:2785-2840 | Main: after any unhindered tick of the plant, one that misses nobody, the grid is within the margin, plus one cut-off per battery |
| Settling.RestsForGood | src/dispatcher.rs:3040-3069 | Main: without cut-offs, from the second unhindered tick on every battery keeps its power and the grid stays within the margin |
| Resting.RestsFromAnywhere | src/dispatcher.rs:3040-3069 | Main: the same from any readings, with all hypotheses about the first state: after arrival every tick is unhindered when no corridor is wider than the rate limit |
| Clock.ClockDoesNotMatter | src/dispatcher.rs:1261-1514 | Main: ticks at any times compute what as many ticks at one instant do, as long as no lockout, silence or cut begins or ends, so the settling results hold of a moving clock |
| Convergence.GridSettles | src/dispatcher.rs:2785-2840 | Main: from any readings, through changes of direction class and under the rate limit, the grid is in the band, plus one cut-off per battery, once every battery has had time to ramp into a corridor computed from the first state; batteries that no command reaches must be wanted just what they deliver |
| Convergence.GridSettlesForGood | src/dispatcher.rs:2793-2840 | Main: there is such a tick, and the grid stays in the band at every later one; all hypotheses are about the first state |
| Convergence.SharesInCorridor | src/dispatcher.rs:1291-1362 | whatever total inside the band is asked for, also across zero, every share lies between the shares of the two ends of the band |
| Settling.ClassFixesAsked | src/dispatcher.rs:962-1000 | the direction class alone fixes the total asked for, except in balance |
| Settling.RampArrives | src/dispatcher.rs:1446-1450 | Main: while the direction class stays what it was, every tick asks for the same total and each commanded battery's distance to its wanted power after k ticks is exactly the initial distance less k limits, or 0, without overshoot |
| CoarseLoop.TellIsPlanned | src/dispatcher.rs:645-671 | what the coarse loop tells a battery is the planned setpoint put to the writer's decision |
| CoarseLoop.TellIsDelivered | src/modbus.rs:971-980 | and what the inverter delivers when the write succeeds |
| CoarseLoop.ToldIsClose | src/modbus.rs:1043-1052 | told or not, the inverter ends up within 26 W of a target, or within 50 W of one below the firmware floor |
| CoarseSettling.GridSettlesCoarselyForGood | src/dispatcher.rs:645-671 | Main: from any readings, through whole-watt setpoints, firmware floor and write deadband, the grid settles for good in the band plus 26 W per commanded battery, 50 W where the corridor reaches below the floor |
| CoarseSettling.OneMoreWrite | src/modbus.rs:1043-1052 | Main: after arrival a battery whose corridor stays on one side of the floor and within 24 W is written at most once more |
| CoarseSettling.WritingCeases | src/modbus.rs:1043-1052 | Main: and when that holds of all, from some tick on nothing is written any more |
| CoarseLoop.StartsIff | src/config.rs:248-250 | a resting battery is started if and only if both rate limit and wanted power are at least 50 W |
| CoarseSettling.SlowRampNeverStarts | src/config.rs:248-250 | a rate limit below 50 W, which validation allows, leaves a resting battery at rest for any number of ticks |
| SteadyState.LoneBatterySettles | src/dispatcher.rs:2785-2840 | a lone commanded battery meets those hypotheses from any reading |
| SteadyState.SteadyStays | src/dispatcher.rs:3040-3069 | in equilibrium it meets those of the resting result and stays put for ever |
| Deltas.ComputeDeltas | src/dispatcher.rs:1043-1244 | Code: the whole Pulse-mode computation, early return and cap included, equals its specification |
| Deltas.ModesAgree | src/dispatcher.rs:1187-1192 | corollary of the two loops computing one allocation: reading plus correction, before the cap, is the share Modbus mode starts from |
| Deltas.CorrectionsAlign | src/dispatcher.rs:39-46 | every battery is corrected to a power inside its bounds on the side of the desired total, so opposing flows are realigned |
| Deltas.CapShareLands | src/dispatcher.rs:1194-1241 | where the scale, which is in [0, 1], takes a circuit: a change that fits, is within the cut-off or takes load off goes through in full, one that loads an overloaded circuit further is cancelled, any other lands on the cap on the side it was going to |
| Deltas.CapShareIsLargest | src/dispatcher.rs:1220-1230 | every larger scale takes the circuit beyond the cap and further than the one chosen |
| Deltas.RestMeansNothingToDo | src/dispatcher.rs:1065-1112 | the early return is taken exactly when nobody can act, or the grid is in place for what the fleet does and no audible circuit has one battery above 50 W and another below -50 W |
| Deltas.PulseTickLands | src/dispatcher.rs:1043-1244 | Main: a whole tick: at rest all corrections are 0; otherwise every circuit lands where the cap lets the wanted change take it, its members sharing that in proportion to what they want, and who is not eligible is told nothing |
| Deltas.PulseCapHolds | src/dispatcher.rs:1194-1241 | reading plus corrections of every circuit stay within the larger of cap and reading, up to the cut-off |
| Mute.UpdateCircuitMute | src/dispatcher.rs:858-907 | Code: every circuit gets its new silence deadline, and the result tells whether the grid reading is fresh |
| Mute.ModbusNeverMutes | src/dispatcher.rs:867-898 | in Modbus mode staleness mutes nothing, not even the current cycle, contrary to the comment |
| MuteRuns.MutedIffStaleNow | src/dispatcher.rs:858-907 | after a Pulse-mode tick a circuit is silent exactly when it still was, or the grid reading or some member's plug reading is missing or too old |
| MuteRuns.SilentIffStaleLately | src/dispatcher.rs:858-907 | Main: after any run of ticks, through any reconfiguration, a circuit is silent at an instant exactly when some Pulse-mode tick less than 60 s before found one of them so |
| Pulses.QueuePulses | src/dispatcher.rs:1520-1575 | Code: muted batteries lose burst and bookkeeping, others are armed from the deadband up, the rest are unchanged |
| Pulses.DetectPulseOutcomes | src/dispatcher.rs:764-829 | Code: every battery's last burst is judged landed, too small, refused or undecided, with the locks that go with it |
| Pulses.AnyPulseInFlight | src/dispatcher.rs:836-850 | Code: true exactly when some battery on an audible circuit is not settled |
| Pulses.DrainPulse | src/virtual_shelly.rs:150-167 | Code: a poll takes one sample, and the last one clears the burst and stamps completion |
| Pulses.HandlePoll | src/virtual_shelly.rs:105-169 | Code: a muted battery gets no answer, an unknown peer 0 W, any other its next sample |
| Pulses.IngestPlug | src/plug.rs:87-142 | Code: a reading updates power, time, movement stamp, relay state and the overhead average as specified |
| Bursts.QueueArms | src/dispatcher.rs:1520-1575 | a tick forgets everything about bursts on a muted circuit, and on an audible one arms exactly the corrections of at least 25 W, with the plug reading of the moment kept for the verdict |
| Bursts.BurstIsSentOut | src/virtual_shelly.rs:150-167 | Main: the first three polls after arming are each answered with the correction and all later ones with 0 W, whatever readings come in between |
| Bursts.QuietHoldsNothingUp | src/state.rs:281-288 | a battery never pulsed since start-up or its last mute sends nothing, is not judged, and counts as settled at any time |
| Bursts.BurstSettles | src/state.rs:261-298 | Main: after a burst a battery is settled exactly when all samples are gone and either the timeout has passed since the last of them, or the plug has moved since then and held still for the stability period |
| Bursts.GateOpensIff | src/dispatcher.rs:831-850 | the gate opens exactly when every battery is settled or on a muted circuit |
| Bursts.LocksFollowThePlug | src/dispatcher.rs:746-829 | for any state, what a tick makes of both locks: nothing until the burst is out and everything is known; a plug 10 W or more from the snapshot clears just the lock of the burst's direction; one within 10 W sets just that, once a burst of at least 25 W has had its timeout |
| Bursts.BurstVerdict | src/dispatcher.rs:746-829 | Main: from arming to verdict, over any polls and readings: a direction is locked exactly when the burst pushed that way, three polls took it, the last reading is within 10 W of the one at arming and the timeout has passed since the third poll; it is unlocked exactly when the burst is out and the plug has moved; otherwise nothing changes |
| Bursts.RefusalShutsDirection | src/dispatcher.rs:804-826 | such a lock gives its direction weight 0 and bound 0 until it expires and leaves weight and bound of the other direction alone |
| PulseMode.StepPulse | src/dispatcher.rs:715-745 | Code: one tick: nothing but mutes on a stale grid; otherwise bursts are judged, and corrections are armed only if every audible battery is settled |
| PulseRuns.StepKeepsInv | src/dispatcher.rs:1529-1574 | every lock section of tick, poll or reading keeps pulse state consistent, the books balanced and the gate's promise |
| PulseRuns.TickInOneGo | src/dispatcher.rs:715-745 | the five steps of a tick with nothing in between leave the state that `PulseMode.StepPulse` leaves; in Modbus mode they touch no pulse state |
| PulseRuns.PollInOneGo | src/virtual_shelly.rs:105-169 | the two steps of a poll leave the state and send the sample that `Pulses.HandlePoll` does |
| PulseRuns.PulsesAreConserved | src/virtual_shelly.rs:150-167 | Main: over every interleaving, samples sent, owed and dropped add up to three times the corrections armed; a burst is pending exactly while samples remain, equals the last correction, is at least the deadband, and is unstamped |
| PulseHistory.ArmingWasGated | src/dispatcher.rs:715-744 | Main: whenever a burst is armed, its tick was gated and no audible battery has samples left at that moment |
| PulseHistory.SilentForAMinute | src/dispatcher.rs:858-907 | Main: after a tick that sees a stale member or grid, no sample reaches a member through any events of the next 60 s if and only if no poll of that member was already past its mute check with samples left for it |
| PlugReadings.LastReadingCounts | src/plug.rs:90-110 | Main: after any series of readings power, age and relay are those of the last, power out of the battery counted positive, and the plug is fresh exactly until that one is too old |
| PlugReadings.MovementIsStamped | src/plug.rs:96-107 | the movement stamp is the time of the last reading that differs from its predecessor by more than 10 W |
| PlugReadings.EstimateStep | src/plug.rs:124-142 | a reading moves the overhead estimate to seven tenths of its distance, or sets the first one, only if at least 50 W are commanded and the plug goes that way |
| PlugReadings.EstimateStaysWithin | src/plug.rs:110-142 | Main: a series without such a reading leaves the estimate alone; otherwise it is known and stays inside all bounds that hold what those readings say and what was known before |
| PlugReadings.ZeroCountsAsCharge | src/plug.rs:92-131 | counterexample to the comment: a plug at exactly 0 W under a charge command feeds the whole command into the estimate |
| Escalation.FindWorst | src/dispatcher.rs:393-407 | Code: the strongest closed, uncut member in the direction of the sum, the last of equals |
| Escalation.CheckCircuit | src/dispatcher.rs:344-419 | Code: one circuit's new timers, standby set and trip |
| Escalation.EnforceCircuitSafety | src/dispatcher.rs:322-465 | Code: the whole check: all timers, the stamped trips, the standby set and the expired cuts; nothing when the margin is 0 |
| EscalationRuns.SoftDueIffHistory | src/dispatcher.rs:371-388 | standby is pushed if and only if the overload has been seen by every tick for the grace period |
| EscalationRuns.TripDueIffHistory | src/dispatcher.rs:371-394 | a trip is due if and only if the overload is unbroken since a tick, a later one is past the grace period, and that one is past the second |
| EscalationRuns.TripIffHistory | src/dispatcher.rs:322-420 | over any run and any reconfiguration on the way, a tick trips a relay if and only if the check is enabled, an uncut closed member pushes with the sum, and the ticks that had it enabled show an unbroken overload through both grace periods |
| EscalationRuns.TripNeedsUnbrokenHistory | src/dispatcher.rs:345-420 | Main: while the margin stays positive, any trip is preceded by at least 15 s of ticks that all saw the circuit over cap plus the margin of the time |
| EscalationRuns.FrozenTimersTrip | src/dispatcher.rs:328-331 | Main: counterexample without that: switching the check off freezes the timers, and the first overloaded tick after switching it on again trips, however calm the circuit was meanwhile |
| EscalationRuns.OneTripPerCircuit | src/dispatcher.rs:407-419 | at most one member of a circuit is tripped per tick |
| Remediation.SoftenedIffHistory | src/dispatcher.rs:344-388 | Main: over any run from start-up and any reconfiguration, a tick tells a battery to stand by if and only if the check is enabled, the battery is a member of some circuit with its relay closed or unknown and no pending cut, and the enabled ticks show that fuse over amps times volts times phases plus margin without a break for 5 s |
| Remediation.TrippedIffHistory | src/dispatcher.rs:344-420 | Main: and it trips a battery if and only if it is the last of the strongest offenders on a circuit whose enabled ticks show an unbroken overload through both grace periods |
| Remediation.DueBackAfterTenMinutes | src/dispatcher.rs:424-465 | a tripped battery counts as cut for ten minutes and is due back exactly from then on, and nobody else's cut is touched |
| EscalationRuns.TripIffOffender | src/dispatcher.rs:395-419 | a due trip finds someone if and only if an uncut closed member pushes in the direction of the sum |
| EscalationRuns.OverloadClears | src/dispatcher.rs:351-420 | Main: with fixed readings and working relays the overload is gone within one tick per closed member, whatever the sign does |
| Registers.PrefixIsSafe | src/modbus.rs:401-416 | from parked registers every prefix is parked, uses one power register at most, and delivers the old power, 0 or the new one |
| Registers.SafeIffStaleIsHarmless | src/modbus.rs:446-486 | Main: from arbitrary registers that holds of all prefixes if and only if the direction asked for is in force or stores no other power |
| Registers.InitParksIff | src/modbus.rs:554-561 | initialisation stops the inverter and parks it if and only if no power was stored |
| Registers.ForgottenPowerReturns | src/modbus.rs:554-561 | after a crash at 2000 W a first 100 W command passes through 2000 W |
| Registers.RestartAfterPanic | src/modbus.rs:629-638 | after the failsafe alone a restart is parked if and only if nothing was being delivered |
| Registers.RestartAfterShutdown | src/modbus.rs:962-970 | after an orderly shutdown, whose standby write may stop anywhere unnoticed, a restart is parked if and only if nothing was delivered or enough writes arrived to stop it |
| Registers.RestartAfterStandby | src/modbus.rs:962-970 | a complete standby write parks it whatever the registers held |
| Registers.ReversalPassesZero | src/modbus.rs:401-416 | Main: over any run of complete and aborted sequences no single write reverses the direction or uses both power registers |
| Registers.ControlIsHeld | src/modbus.rs:554-561 | from initialisation on, through any run of complete and aborted sequences, remote control stays on, and the failsafe turns it and the force mode off and touches nothing else |
| Registers.RetriesStayInThree | src/modbus.rs:1082-1118 | retries of one setpoint never leave old power, 0 and new power |
| Registers.PrefixDelivers | src/modbus.rs:446-486 | from parked registers the delivered power alone decides what a prefix does, and it is unchanged if and only if the prefix is within a bound of 1 to 4 writes given by the two powers |
| Registers.PrefixTwice | src/modbus.rs:1082-1118 | two attempts at one setpoint leave exactly what the longer one alone would |
| Writer.BatteryWriter.constructor | src/modbus.rs:895-903 | Code: the writer starts out agreeing with the inverter: standby recorded, nothing delivered |
| Writer.BatteryWriter.DoWrite | src/modbus.rs:1067-1145 | Code: up to three attempts; success records the setpoint, failure leaves the record alone, and every write is counted once |
| Writer.WriteAgreesIff | src/modbus.rs:1067-1145 | a write that succeeds makes belief and inverter agree from any registers; one that fails for good leaves them agreeing if and only if no attempt got further than the bound above |
| Writer.BatteryWriter.HandleChanged | src/modbus.rs:971-980 | Code: one channel event: success delivers the request, failure keeps agreement exactly within the bound, and an event not worth a write is already served within the deadband |
| WriterRuns.WriterAgreement | src/modbus.rs:1043-1145 | Main: over any run of channel events and connection troubles belief and inverter agree if and only if the failed writes since the last success were harmless: none beyond its bound while power is in use, no undisturbed complete one while at rest; agreeing, the inverter serves every request not waiting to be written within the deadband |
| WriterRuns.FailedWriteIsForgotten | src/modbus.rs:1043-1052 | after a failed write the belief can be wrong for ever: the battery stays at 0 W and nothing is written again |
| Overhead.PlugIsClose | src/dispatcher.rs:645-659 | the plug lands within 1 W plus the estimate's error of its target, despite rails, sign check and truncation |
| Overhead.RoomyIsTrackable | src/dispatcher.rs:645-659 | targets with 50 W to spare above the larger of first estimate and true overhead need no clamping when their turn comes, whatever the estimates on the way |
| Overhead.ErrorDecays | src/plug.rs:120-131 | Main: after k readings under such targets the error is exactly 0.7^k of what it was |
| Overhead.PlugConverges | src/plug.rs:124-131 | Main: so the plug is within 1 W plus 0.7^k of the initial error of any such target |
| Overhead.FreshBatteryIsExact | src/plug.rs:127-130 | a fresh battery's estimate is exact from its first reading on |
| Cache.RegisterCache.TierRefresh | src/modbus.rs:1211-1393 | Code: a refresh merges exactly what it collected and succeeds exactly when that is something |
| Cache.StreakCountsWireErrors | src/modbus.rs:1234-1310 | a refresh gives up exactly at a failed connect or at the third wire error in a row |
| Cache.CollectedIsWhatAnswered | src/modbus.rs:1236-1310 | it collects exactly the registers that answered before it gave up, each with its last answer |
| Cache.OtherTierSurvives | src/modbus.rs:1367-1391 | merging one tier keeps the values of the other |
| Cache.CacheHoldsLatest | src/modbus.rs:1367-1391 | Main: a register is cached exactly when some refresh read it, with the value of the last that did |
| Cache.VirtualServer.HandleRequest | src/modbus_server.rs:87-235 | Code: every request gets the one right answer, and exactly the counter of its outcome moves |
| Cache.OneAnswer | src/modbus_server.rs:111-183 | there is exactly one right answer to every request |
| Cache.NamedRegister | src/modbus_server.rs:50-54 | which register a read names: addresses count on around 65536, and only a V3 is asked for 34002 in place of 32104 |
| Cache.ReadsAreLatest | src/modbus_server.rs:111-183 | Main: a read returns exactly count values, each the latest successful read of the aliased register, or an exception and nothing |
| Cache.ProbeFindsCharge | src/modbus_server.rs:37-49 | the Home Assistant probe gets the latest state of charge of every variant |
| Config.Validate | src/config.rs:1042-1300 | Code: the validation loops accept exactly the configurations with distinct ids, addresses and units, placed batteries under their cap, and sane limits, intervals and location |
| Config.DefaultUnitsIff | src/config.rs:1005-1013 | without explicit unit ids batteries are numbered from 1 in file order, and are distinct if and only if there are at most 247 |
| State.AppState.constructor | src/state.rs:517-557 | Code: from a validated configuration the circuits partition the batteries, each under its cap, and addresses and unit ids route to their battery |

## Left out

- Sockets, HTTP, timers, task spawning, retry sleeps, logging, the web interface, mDNS and Home Assistant: input and output. A register write, a connection or a relay call is a step that succeeds or fails.
- Floating-point rounding, NaN and negative zero: reals are used, and `Signum` counts 0 as positive, as `f64::signum` does for +0.0; the one place where code negates a reading before taking its sign is modelled as such.
- enforce_night_cutoff: sunrise times come from an external crate, and what remains is one hysteresis per battery.
- Failed relay calls, which clear the cut stamp from a spawned task, and re-closing after recovery: `EscalationRuns.OverloadClears` assumes that trips succeed and nobody recovers during the countdown.
- Whether soft standby persists: in Modbus mode the same tick may overwrite it with a computed setpoint, so nothing is claimed about it.
- Config validation messages and their order, and white space outside ASCII; whether the bind address parses is a parameter.
- modbus_decode tables and the register lists per variant: finite data. The tier to refresh is a parameter.
- State of charge and battery power derived from the fast tier, and the refresh timestamps.
- modbus_settled, refresh_activity, EnergyCounters and the display predicates: no dispatch decision depends on them.
- CapSafety.CommandedUnderCap: its two provisos are exact for every single target and command (`CapSafety.OneWayIffNoOpposition`, `Setpoints.CommandShrinksIff`), but only sufficient for the circuit sum, where an opposing command can happen to balance another.
- Settling.RestsForGood: stated for cut-off 0, because a cut-off may leave up to 1 mW per battery unassigned anew at every tick; the band of `Settling.GridInBand` and `Convergence.GridSettlesForGood` holds for the cut-off of the code too.
- Convergence.GridSettles: the fuses must have room for the largest power each battery reads or is asked for on the way, and consolidation must not engage in the corridor; `Settling.GridInBand` covers ticks with consolidation.
- Unreached.SettlesIffNobodyAsked: stated for cut-off 0 and a load beyond the margin; within the margin the fleet may rest wherever it is.
- CoarseSettling.GridSettlesCoarselyForGood: plugs read their command without overhead, limits are at least 50 W, and writes succeed; `Overhead.PlugConverges` and `WriterRuns.WriterAgreement` treat overhead and failures by themselves.
- EscalationRuns.OverloadClears: the cap plus margin is taken to be non-negative, which validation guarantees for populated circuits.
- WriterRuns.WriterAgreement: until the first write succeeds, the equivalence takes registers that hold no power at start-up; with stored power `Registers.SafeIffStaleIsHarmless` says what a first sequence may do.
