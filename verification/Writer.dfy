/** The writer task of one battery: it decides whether a setpoint deserves a
    write, retries the write sequence, and remembers what it wrote last. */
module Writer {
  import opened Prelude
  import opened Config
  import opened Setpoints
  import opened Registers

  const MAX_ATTEMPTS: nat := MODBUS_WRITE_RETRIES + 1

  /** What happens to one attempt: no connection, an error after some writes
      took effect (perhaps all, if only the last answer was lost), or success. */
  datatype Link = Unreachable | Broken(arrived: nat) | Sound

  predicate Plausible(links: seq<Link>) {
    |links| == MAX_ATTEMPTS && forall i :: 0 <= i < |links| && links[i].Broken? ==> links[i].arrived <= 4
  }

  predicate SameKind(a: Setpoint, b: Setpoint) {
    a.Standby? == b.Standby? && a.Charge? == b.Charge?
  }

  /** `should_write`. */
  predicate ShouldWrite(lastWritten: Option<Setpoint>, desired: Setpoint) {
    || lastWritten.None?
    || !SameKind(desired, lastWritten.value)
    || Abs(ToSignedWatts(desired) - ToSignedWatts(lastWritten.value)) >= WRITE_DEADBAND_W
  }

  // ------------------------------------------------------------------
  // The writer as a state machine
  // ------------------------------------------------------------------

  datatype WriterState = WriterState(lastWritten: Option<Setpoint>, device: Registers)

  /** The registers after the first n attempts, and whether one succeeded. */
  function Tried(device: Registers, sp: Setpoint, links: seq<Link>, n: nat): (Registers, bool)
    requires Plausible(links) && n <= MAX_ATTEMPTS
  {
    if n == 0 then (device, false)
    else
      var (before, done) := Tried(device, sp, links, n - 1);
      if done then (before, true)
      else
        match links[n - 1]
        case Unreachable => (before, false)
        case Broken(arrived) => (AfterPrefix(before, sp, arrived), false)
        case Sound => (AfterPrefix(before, sp, 4), true)
  }

  function OnChanged(w: WriterState, desired: Setpoint, links: seq<Link>): WriterState
    requires Plausible(links)
  {
    if ShouldWrite(w.lastWritten, desired) then
      var (device, done) := Tried(w.device, desired, links, MAX_ATTEMPTS);
      WriterState(if done then Some(desired) else w.lastWritten, device)
    else w
  }

  /** The registers do what the writer believes it wrote last. */
  predicate Agrees(w: WriterState) {
    w.lastWritten.Some? && EffectiveW(w.device) == ToSignedWatts(w.lastWritten.value)
  }

  // ------------------------------------------------------------------
  // One write with its retries
  // ------------------------------------------------------------------

  predicate Succeeds(links: seq<Link>) {
    exists i :: 0 <= i < |links| && links[i].Sound?
  }

  function Arrived(link: Link): nat {
    match link
    case Unreachable => 0
    case Broken(arrived) => arrived
    case Sound => 4
  }

  /** The most register writes that any of the first n attempts got through. */
  function Furthest(links: seq<Link>, n: nat): (most: nat)
    requires Plausible(links) && n <= MAX_ATTEMPTS
    ensures most <= 4
    ensures (exists i :: 0 <= i < n && links[i].Sound?) ==> most == 4
  {
    if n == 0 then 0
    else
      var most, last := Furthest(links, n - 1), Arrived(links[n - 1]);
      if most < last then last else most
  }

  /** All attempts together leave what the furthest of them alone would. */
  lemma {:induction false} TriedIsFurthest(device: Registers, sp: Setpoint, links: seq<Link>, n: nat)
    requires Plausible(links) && n <= MAX_ATTEMPTS
    ensures var (after, done) := Tried(device, sp, links, n);
            && after == AfterPrefix(device, sp, Furthest(links, n))
            && (done <==> exists i :: 0 <= i < n && links[i].Sound?)
  {
    hide AfterPrefix;
    if n == 0 {
      NothingArrived(device, sp);
    } else {
      TriedIsFurthest(device, sp, links, n - 1);
      PrefixTwice(device, sp, Furthest(links, n - 1), Arrived(links[n - 1]));
    }
  }

  lemma NothingArrived(device: Registers, sp: Setpoint)
    ensures AfterPrefix(device, sp, 0) == device
  {
  }

  /** Register writes that got through, out of four. */
  function Reached(links: seq<Link>): (most: nat)
    requires Plausible(links)
    ensures most <= 4
  {
    Furthest(links, MAX_ATTEMPTS)
  }

  /** A write that reaches its end makes belief and inverter agree, from any
      registers. One that fails for good leaves them agreeing exactly when no
      attempt got further than the delivered power can take. */
  lemma WriteAgreesIff(w: WriterState, desired: Setpoint, links: seq<Link>)
    requires Plausible(links) && ShouldWrite(w.lastWritten, desired)
    ensures var after := OnChanged(w, desired, links);
            && (Succeeds(links) ==>
                  after.lastWritten == Some(desired) && Agrees(after) && Parked(after.device))
            && (!Succeeds(links) ==> after.lastWritten == w.lastWritten)
            && (Parked(w.device) ==>
                  && Parked(after.device)
                  && EffectiveW(after.device) == Through(EffectiveW(w.device), desired, Reached(links)))
            && (!Succeeds(links) && Parked(w.device) && Agrees(w) ==>
                  (Agrees(after) <==> Reached(links) <= Spared(ToSignedWatts(w.lastWritten.value), desired)))
  {
    hide AfterPrefix, EffectiveW, Parked, Through, Spared, Tried;
    TriedIsFurthest(w.device, desired, links, MAX_ATTEMPTS);
    assert Succeeds(links) <==> exists i :: 0 <= i < MAX_ATTEMPTS && links[i].Sound?;
    if Succeeds(links) {
      CompleteTakesEffect(w.device, desired);
    }
    if Parked(w.device) {
      PrefixDelivers(w.device, desired, Reached(links));
    }
  }

  // ------------------------------------------------------------------
  // The writer
  // ------------------------------------------------------------------

  class BatteryWriter {
    var lastWritten: Option<Setpoint>
    var lastModbusSetpointW: Option<real>
    var device: Registers
    var outboundWritesTotal: nat
    var outboundWritesOk: nat
    var outboundWritesFailed: nat

    ghost function State(): WriterState
      reads this
    {
      WriterState(lastWritten, device)
    }

    ghost predicate Valid()
      reads this
    {
      && (lastModbusSetpointW == if lastWritten.Some? then Some(ToSignedWatts(lastWritten.value)) else None)
      && outboundWritesTotal == outboundWritesOk + outboundWritesFailed
    }

    /** After the init loop: control on, force mode off, standby recorded. */
    constructor (found: Registers)
      ensures Valid() && State() == WriterState(Some(Standby), AfterInit(found)) && Agrees(State())
    {
      lastWritten, lastModbusSetpointW := Some(Standby), Some(0.0);
      device := AfterInit(found);
      outboundWritesTotal, outboundWritesOk, outboundWritesFailed := 0, 0, 0;
    }

    /** `do_write`: up to three attempts. */
    method DoWrite(sp: Setpoint, links: seq<Link>) returns (ok: bool)
      requires Valid() && Plausible(links)
      modifies this
      ensures Valid()
      ensures (device, ok) == Tried(old(device), sp, links, MAX_ATTEMPTS)
      ensures lastWritten == if ok then Some(sp) else old(lastWritten)
      ensures outboundWritesTotal == old(outboundWritesTotal) + 1
      ensures outboundWritesOk == old(outboundWritesOk) + (if ok then 1 else 0)
    {
      hide AfterPrefix, EffectiveW;
      outboundWritesTotal := outboundWritesTotal + 1;
      ok := false;
      for attempt := 0 to MAX_ATTEMPTS
        invariant (device, false) == Tried(old(device), sp, links, attempt)
        invariant lastWritten == old(lastWritten) && lastModbusSetpointW == old(lastModbusSetpointW)
        invariant outboundWritesTotal == old(outboundWritesTotal) + 1
        invariant outboundWritesOk == old(outboundWritesOk) && outboundWritesFailed == old(outboundWritesFailed)
      {
        match links[attempt]
        case Unreachable =>
        case Broken(arrived) =>
          device := AfterPrefix(device, sp, arrived);
        case Sound =>
          device := AfterPrefix(device, sp, 4);
          outboundWritesOk := outboundWritesOk + 1;
          lastWritten, lastModbusSetpointW := Some(sp), Some(ToSignedWatts(sp));
          ok := true;
          OnceDoneStaysDone(old(device), sp, links, attempt + 1, MAX_ATTEMPTS);
          return;
      }
      outboundWritesFailed := outboundWritesFailed + 1;
    }

    /** One channel event of the writer loop. */
    method HandleChanged(desired: Setpoint, links: seq<Link>)
      requires Valid() && Plausible(links)
      modifies this
      ensures Valid() && State() == OnChanged(old(State()), desired, links)
      ensures ShouldWrite(old(lastWritten), desired) && Succeeds(links) ==>
        Agrees(State()) && Parked(device) && EffectiveW(device) == ToSignedWatts(desired)
      ensures ShouldWrite(old(lastWritten), desired) && !Succeeds(links) && old(Agrees(State()) && Parked(device)) ==>
        && Parked(device)
        && (Agrees(State()) <==> Reached(links) <= Spared(ToSignedWatts(lastWritten.value), desired))
      ensures !ShouldWrite(old(lastWritten), desired) && old(Agrees(State())) ==>
        && Agrees(State()) && SameKind(desired, lastWritten.value)
        && Abs(ToSignedWatts(desired) - EffectiveW(device)) < WRITE_DEADBAND_W
    {
      hide EffectiveW, Tried, Parked, Spared, Reached;
      if ShouldWrite(lastWritten, desired) {
        WriteAgreesIff(State(), desired, links);
        var ok := DoWrite(desired, links);
      }
    }
  }

  lemma {:induction false} OnceDoneStaysDone(device: Registers, sp: Setpoint, links: seq<Link>, n: nat, m: nat)
    requires Plausible(links) && n <= m <= MAX_ATTEMPTS && Tried(device, sp, links, n).1
    ensures Tried(device, sp, links, m) == Tried(device, sp, links, n)
    decreases m
  {
    if n < m {
      OnceDoneStaysDone(device, sp, links, n, m - 1);
    }
  }
}
