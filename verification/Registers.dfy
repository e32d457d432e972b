/** The inverter's control registers and the write sequences sent to them. A
    sequence may stop after any prefix: the connection can break between two
    writes, and a write that timed out may or may not have arrived. */
module Registers {
  import opened Setpoints

  const RS485_CTRL_ON: nat := 21930
  const RS485_CTRL_OFF: nat := 21947

  datatype Reg = Rs485ControlMode | ForceMode | ChargePower | DischargePower

  datatype Registers = Registers(rs485: nat, forceMode: nat, charge: nat, discharge: nat)

  datatype RegWrite = RegWrite(reg: Reg, value: nat)

  function WriteReg(r: Registers, w: RegWrite): Registers {
    match w.reg
    case Rs485ControlMode => r.(rs485 := w.value)
    case ForceMode => r.(forceMode := w.value)
    case ChargePower => r.(charge := w.value)
    case DischargePower => r.(discharge := w.value)
  }

  /** What the inverter does: force mode picks the direction. */
  function EffectiveW(r: Registers): real {
    if r.forceMode == 1 then -(r.charge as real)
    else if r.forceMode == 2 then r.discharge as real
    else 0.0
  }

  /** `write_setpoint_on`. */
  function Sequence(sp: Setpoint): (ws: seq<RegWrite>)
    ensures |ws| == 4
  {
    [RegWrite(Rs485ControlMode, RS485_CTRL_ON)] +
    match sp
    case Standby => [RegWrite(ChargePower, 0), RegWrite(DischargePower, 0), RegWrite(ForceMode, 0)]
    case Charge(watts) => [RegWrite(DischargePower, 0), RegWrite(ForceMode, 1), RegWrite(ChargePower, watts)]
    case Discharge(watts) => [RegWrite(ChargePower, 0), RegWrite(ForceMode, 2), RegWrite(DischargePower, watts)]
  }

  function WriteAll(r: Registers, ws: seq<RegWrite>): Registers
    decreases |ws|
  {
    if ws == [] then r else WriteReg(WriteAll(r, ws[..|ws| - 1]), ws[|ws| - 1])
  }

  /** After the first n writes of the sequence for `sp`. */
  function AfterPrefix(r: Registers, sp: Setpoint, n: nat): Registers
    requires n <= 4
  {
    WriteAll(r, Sequence(sp)[..n])
  }

  /** Registers as the dispatcher knows them to be: a known mode, and no power
      stored for a direction that is not in force. */
  predicate Parked(r: Registers) {
    && r.forceMode <= 2
    && (r.forceMode != 1 ==> r.charge == 0)
    && (r.forceMode != 2 ==> r.discharge == 0)
  }

  /** The four states a write sequence goes through. */
  lemma PrefixStates(r: Registers, sp: Setpoint, n: nat)
    requires n <= 4
    ensures var s := AfterPrefix(r, sp, n);
            && s.rs485 == (if n >= 1 then RS485_CTRL_ON else r.rs485)
            && (sp.Standby? ==>
                  && s.charge == (if n >= 2 then 0 else r.charge)
                  && s.discharge == (if n >= 3 then 0 else r.discharge)
                  && s.forceMode == (if n >= 4 then 0 else r.forceMode))
            && (sp.Charge? ==>
                  && s.discharge == (if n >= 2 then 0 else r.discharge)
                  && s.forceMode == (if n >= 3 then 1 else r.forceMode)
                  && s.charge == (if n >= 4 then sp.watts else r.charge))
            && (sp.Discharge? ==>
                  && s.charge == (if n >= 2 then 0 else r.charge)
                  && s.forceMode == (if n >= 3 then 2 else r.forceMode)
                  && s.discharge == (if n >= 4 then sp.watts else r.discharge))
  {
    var ws := Sequence(sp);
    if n > 0 {
      PrefixStates(r, sp, n - 1);
      assert ws[..n][..n - 1] == ws[..n - 1];
      assert AfterPrefix(r, sp, n) == WriteReg(AfterPrefix(r, sp, n - 1), ws[n - 1]);
    }
  }

  /** A complete sequence puts the setpoint into effect, from any registers. */
  lemma CompleteTakesEffect(r: Registers, sp: Setpoint)
    ensures EffectiveW(AfterPrefix(r, sp, 4)) == ToSignedWatts(sp) && Parked(AfterPrefix(r, sp, 4))
  {
    PrefixStates(r, sp, 4);
  }

  /** From parked registers every prefix leaves parked registers, with at most
      one power register in use and an effective power that is the old one, 0,
      or the new one. */
  lemma PrefixIsSafe(r: Registers, sp: Setpoint, n: nat)
    requires Parked(r) && n <= 4
    ensures var s := AfterPrefix(r, sp, n);
            && Parked(s) && (s.charge == 0 || s.discharge == 0)
            && EffectiveW(s) in {EffectiveW(r), 0.0, ToSignedWatts(sp)}
  {
    PrefixStates(r, sp, n);
  }

  /** From arbitrary registers the last claim holds of all prefixes exactly when
      the direction asked for is already in force, or stores no power, or
      stores just the power asked for or already delivered. */
  predicate StaleIsHarmless(r: Registers, sp: Setpoint) {
    match sp
    case Standby => true
    case Charge(watts) =>
      r.forceMode == 1 || -(r.charge as real) in {EffectiveW(r), 0.0, ToSignedWatts(sp)}
    case Discharge(watts) =>
      r.forceMode == 2 || r.discharge as real in {EffectiveW(r), 0.0, ToSignedWatts(sp)}
  }

  lemma SafeIffStaleIsHarmless(r: Registers, sp: Setpoint)
    ensures (forall n :: 0 <= n <= 4 ==> EffectiveW(AfterPrefix(r, sp, n)) in {EffectiveW(r), 0.0, ToSignedWatts(sp)})
       <==> StaleIsHarmless(r, sp)
  {
    hide AfterPrefix;
    forall n | 0 <= n <= 4
      ensures StaleIsHarmless(r, sp) ==> EffectiveW(AfterPrefix(r, sp, n)) in {EffectiveW(r), 0.0, ToSignedWatts(sp)}
    {
      PrefixStates(r, sp, n);
    }
    PrefixStates(r, sp, 3);
    var third := EffectiveW(AfterPrefix(r, sp, 3));
  }

  /** How many writes of the sequence for `sp` an inverter that delivers `watts`
      can take and still deliver them. */
  function Spared(watts: real, sp: Setpoint): nat {
    if watts == ToSignedWatts(sp) then 4
    else if watts == 0.0 then 3
    else
      match sp
      case Standby => if watts < 0.0 then 1 else 2
      case Charge(_) => if watts < 0.0 then 3 else 1
      case Discharge(_) => if watts < 0.0 then 1 else 3
  }

  /** What it delivers after n of them. */
  function Through(watts: real, sp: Setpoint, n: nat): real {
    if n <= Spared(watts, sp) then watts else if n == 4 then ToSignedWatts(sp) else 0.0
  }

  /** From parked registers the delivered power alone decides what a prefix
      does: four registers behave like one signed number. */
  lemma PrefixDelivers(r: Registers, sp: Setpoint, n: nat)
    requires Parked(r) && n <= 4
    ensures var s := AfterPrefix(r, sp, n);
            && Parked(s) && EffectiveW(s) == Through(EffectiveW(r), sp, n)
            && (EffectiveW(s) == EffectiveW(r) <==> n <= Spared(EffectiveW(r), sp))
  {
    PrefixStates(r, sp, n);
  }

  /** Two attempts at one setpoint leave what the longer one alone would. */
  lemma PrefixTwice(r: Registers, sp: Setpoint, a: nat, b: nat)
    requires a <= 4 && b <= 4
    ensures AfterPrefix(AfterPrefix(r, sp, a), sp, b) == AfterPrefix(r, sp, if a < b then b else a)
  {
    hide AfterPrefix;
    PrefixStates(r, sp, a);
    PrefixStates(r, sp, b);
    PrefixStates(AfterPrefix(r, sp, a), sp, b);
  }

  // ------------------------------------------------------------------
  // Start-up and shutdown
  // ------------------------------------------------------------------

  /** `init_dispatch_on` turns control on and force mode off, and leaves the
      power registers as an earlier run left them. */
  function AfterInit(r: Registers): Registers {
    WriteReg(WriteReg(r, RegWrite(Rs485ControlMode, RS485_CTRL_ON)), RegWrite(ForceMode, 0))
  }

  /** `failsafe_shutdown`. */
  function AfterFailsafe(r: Registers): Registers {
    WriteReg(WriteReg(r, RegWrite(ForceMode, 0)), RegWrite(Rs485ControlMode, RS485_CTRL_OFF))
  }

  /** So initialisation parks the inverter exactly when nothing was stored. */
  lemma InitParksIff(r: Registers)
    ensures EffectiveW(AfterInit(r)) == 0.0
    ensures Parked(AfterInit(r)) <==> r.charge == 0 && r.discharge == 0
  {
  }

  /** A restart after the panic hook, which only runs the failsafe, finds the
      inverter parked exactly when it was delivering nothing ... */
  lemma RestartAfterPanic(r: Registers)
    requires Parked(r)
    ensures EffectiveW(AfterFailsafe(r)) == 0.0
    ensures Parked(AfterInit(AfterFailsafe(r))) <==> EffectiveW(r) == 0.0
  {
  }

  /** ... whereas an orderly shutdown writes a standby sequence first, and does
      not look at the outcome: it leaves the inverter parked exactly when nothing
      was being delivered or enough of the sequence arrived to stop it. */
  lemma RestartAfterShutdown(r: Registers, n: nat)
    requires Parked(r) && n <= 4
    ensures Parked(AfterInit(AfterFailsafe(AfterPrefix(r, Standby, n))))
       <==> EffectiveW(r) == 0.0 || n > Spared(EffectiveW(r), Standby)
  {
    PrefixStates(r, Standby, n);
  }

  /** A complete one parks it whatever the registers held. */
  lemma RestartAfterStandby(r: Registers)
    ensures Parked(AfterInit(AfterFailsafe(AfterPrefix(r, Standby, 4))))
  {
    PrefixStates(r, Standby, 4);
  }

  /** A crash while charging at 2000 W, then a first command of 100 W: between
      its last two writes the inverter charges at the forgotten 2000 W. */
  lemma ForgottenPowerReturns(r: Registers)
    requires r.charge == 2000
    ensures EffectiveW(AfterPrefix(AfterInit(r), Charge(100), 3)) == -2000.0
  {
    PrefixStates(AfterInit(r), Charge(100), 3);
  }

  // ------------------------------------------------------------------
  // Runs of complete and aborted sequences
  // ------------------------------------------------------------------

  /** One attempt: the setpoint, and how many of its writes arrived. */
  datatype Attempt = Attempt(sp: Setpoint, arrived: nat)

  predicate Attempts(run: seq<Attempt>) {
    forall i :: 0 <= i < |run| ==> run[i].arrived <= 4
  }

  /** The register writes that reach the inverter, in order. */
  function Wire(run: seq<Attempt>): seq<RegWrite>
    requires Attempts(run)
  {
    if run == [] then []
    else Wire(run[..|run| - 1]) + Sequence(run[|run| - 1].sp)[..run[|run| - 1].arrived]
  }

  lemma {:induction false} WriteAllConcat(r: Registers, a: seq<RegWrite>, b: seq<RegWrite>)
    ensures WriteAll(r, a + b) == WriteAll(WriteAll(r, a), b)
    decreases |b|
  {
    if b == [] {
      assert a + b == a;
    } else {
      assert (a + b)[..|a + b| - 1] == a + b[..|b| - 1];
      WriteAllConcat(r, a, b[..|b| - 1]);
    }
  }

  /** Any run keeps the registers parked. */
  lemma {:induction false} RunKeepsParked(r: Registers, run: seq<Attempt>)
    requires Parked(r) && Attempts(run)
    ensures Parked(WriteAll(r, Wire(run)))
    decreases |run|
  {
    if run != [] {
      var last := run[|run| - 1];
      RunKeepsParked(r, run[..|run| - 1]);
      WriteAllConcat(r, Wire(run[..|run| - 1]), Sequence(last.sp)[..last.arrived]);
      PrefixIsSafe(WriteAll(r, Wire(run[..|run| - 1])), last.sp, last.arrived);
    }
  }

  /** No two consecutive states of the inverter lie on opposite sides of 0. */
  predicate SameSide(a: real, b: real) {
    !(a < 0.0 < b) && !(b < 0.0 < a)
  }

  lemma SingleWriteKeepsSide(r: Registers, sp: Setpoint, n: nat)
    requires Parked(r) && n < 4
    ensures SameSide(EffectiveW(AfterPrefix(r, sp, n)), EffectiveW(AfterPrefix(r, sp, n + 1)))
  {
    PrefixStates(r, sp, n);
    PrefixStates(r, sp, n + 1);
  }

  /** Main result: over any run of complete and aborted sequences, looked at
      write by write, at most one power register is ever in use, and no single
      write reverses the direction, so every reversal passes through 0 W. */
  lemma {:induction false} ReversalPassesZero(r: Registers, run: seq<Attempt>, n: nat)
    requires Parked(r) && Attempts(run) && n < |Wire(run)|
    ensures var before, after := WriteAll(r, Wire(run)[..n]), WriteAll(r, Wire(run)[..n + 1]);
            && Parked(before) && Parked(after)
            && (after.charge == 0 || after.discharge == 0)
            && SameSide(EffectiveW(before), EffectiveW(after))
    decreases |run|
  {
    hide Sequence, EffectiveW, Parked;
    var head, last := run[..|run| - 1], run[|run| - 1];
    var wire, tail := Wire(head), Sequence(last.sp)[..last.arrived];
    if n < |wire| {
      ReversalPassesZero(r, head, n);
      assert Wire(run)[..n] == wire[..n] && Wire(run)[..n + 1] == wire[..n + 1];
    } else {
      var k, mid := n - |wire|, WriteAll(r, wire);
      RunKeepsParked(r, head);
      assert Wire(run)[..n] == wire + Sequence(last.sp)[..k];
      assert Wire(run)[..n + 1] == wire + Sequence(last.sp)[..k + 1];
      WriteAllConcat(r, wire, Sequence(last.sp)[..k]);
      WriteAllConcat(r, wire, Sequence(last.sp)[..k + 1]);
      PrefixIsSafe(mid, last.sp, k);
      PrefixIsSafe(mid, last.sp, k + 1);
      SingleWriteKeepsSide(mid, last.sp, k);
    }
  }

  /** Retries of one setpoint: the effective power stays old, 0 or new. */
  lemma {:induction false} RetriesStayInThree(r: Registers, sp: Setpoint, run: seq<Attempt>)
    requires Parked(r) && Attempts(run) && forall i :: 0 <= i < |run| ==> run[i].sp == sp
    ensures EffectiveW(WriteAll(r, Wire(run))) in {EffectiveW(r), 0.0, ToSignedWatts(sp)}
    decreases |run|
  {
    hide Sequence, EffectiveW, Parked;
    if run != [] {
      var head, last := run[..|run| - 1], run[|run| - 1];
      RetriesStayInThree(r, sp, head);
      RunKeepsParked(r, head);
      WriteAllConcat(r, Wire(head), Sequence(last.sp)[..last.arrived]);
      PrefixIsSafe(WriteAll(r, Wire(head)), sp, last.arrived);
    }
  }

  /** From initialisation on the dispatcher holds the control of the inverter,
      through any run, and the failsafe hands it back with the inverter stopped. */
  lemma {:induction false} ControlIsHeld(r: Registers, run: seq<Attempt>)
    requires Attempts(run)
    ensures var held := WriteAll(AfterInit(r), Wire(run));
            held.rs485 == 21930 && AfterFailsafe(held) == held.(rs485 := 21947, forceMode := 0)
    decreases |run|
  {
    hide Sequence;
    if run != [] {
      var head, last := run[..|run| - 1], run[|run| - 1];
      ControlIsHeld(r, head);
      WriteAllConcat(AfterInit(r), Wire(head), Sequence(last.sp)[..last.arrived]);
      PrefixStates(WriteAll(AfterInit(r), Wire(head)), last.sp, last.arrived);
    }
  }
}
