/** The pulse protocol over whole runs. The dispatcher tick, the UDP poll
    handler and the plug pollers interleave at lock granularity: every event
    below is one lock section, a tick is five of them, a poll two, and any
    number of polls may be under way at once. */
module PulseRuns {
  import opened Prelude
  import opened Config
  import opened State
  import opened Mute
  import opened Pulses

  /** Where the dispatcher is in its tick, with the configuration that the tick
      loaded: an administrator may have stored another one since. */
  datatype Phase =
    | Idle
    | Judging(now: Time, cfg: DispatcherConfig)
    | Gating(now: Time, cfg: DispatcherConfig)
    | Computing(now: Time)
    | Queueing(now: Time, deltas: map<Id, real>)

  /** A poll that passed the mute check at `at` and has not drained yet. */
  datatype Poll = Poll(id: Id, at: Time)

  /** History of one battery: the sum of the corrections armed, of the samples
      sent, and of the samples a mute threw away. */
  datatype Ledger = Ledger(armed: real, drained: real, dropped: real)

  datatype System = System(
    bats: Batteries,
    circuits: Circuits,
    phase: Phase,
    polls: multiset<Poll>,
    books: map<Id, Ledger>)

  datatype Event =
    | TickMute(now: Time, gridAt: Option<Time>, cfg: DispatcherConfig)
    | TickJudge
    | TickGate(clock: Time)
    | TickCompute(deltas: map<Id, real>)
    | TickQueue
    | PollArrives(id: Id, at: Time)
    | PollDrains(poll: Poll)
    | PlugReading(id: Id, apower: real, relayOn: Option<bool>, at: Time)

  // ------------------------------------------------------------------
  // Bookkeeping
  // ------------------------------------------------------------------

  /** Samples still to be sent, in watts. */
  function Owed(b: Battery): real {
    b.pulseRemaining as real * b.pendingPulseW
  }

  function BookQueue(l: Ledger, b: Battery, silent: bool, delta: real): Ledger {
    if silent then l.(dropped := l.dropped + Owed(b))
    else if Abs(delta) < WRITE_DEADBAND_W then l
    else l.(armed := l.armed + delta)
  }

  function BookDrain(l: Ledger, b: Battery): Ledger {
    l.(drained := l.drained + SampleOf(b))
  }

  // ------------------------------------------------------------------
  // Steps
  // ------------------------------------------------------------------

  function DeltaOf(deltas: map<Id, real>, id: Id): real {
    if id in deltas then deltas[id] else 0.0
  }

  /** One lock section. The corrections of `TickCompute` are arbitrary: what
      follows holds whatever the allocator comes up with. A tick whose
      configuration says Modbus mode touches no pulse state after the mute. */
  function Step(s: System, e: Event): (t: System)
    requires s.books.Keys == s.bats.Keys
    ensures t.books.Keys == t.bats.Keys == s.bats.Keys
  {
    match e
    case TickMute(now, gridAt, cfg) =>
      if s.phase.Idle? then
        s.(circuits := MuteAll(s.circuits, s.bats, cfg, gridAt, now),
           phase := if GridFresh(gridAt, cfg, now) && cfg.mode == Pulse then Judging(now, cfg) else Idle)
      else s
    case TickJudge =>
      if s.phase.Judging? then
        s.(bats := DetectAll(s.bats, s.phase.cfg, s.phase.now), phase := Gating(s.phase.now, s.phase.cfg))
      else s
    case TickGate(clock) =>
      if s.phase.Gating? then
        s.(phase := if AllSettled(s.bats, s.circuits, s.phase.cfg, s.phase.now, clock) then Computing(s.phase.now)
                    else Idle)
      else s
    case TickCompute(deltas) =>
      if s.phase.Computing? then s.(phase := Queueing(s.phase.now, deltas)) else s
    case TickQueue =>
      if s.phase.Queueing? then
        s.(bats := QueueAll(s.bats, s.circuits, s.phase.deltas, s.phase.now),
           books := map id | id in s.bats ::
             BookQueue(s.books[id], s.bats[id], Muted(s.circuits, s.bats[id].circuit, s.phase.now),
                       DeltaOf(s.phase.deltas, id)),
           phase := Idle)
      else s
    case PollArrives(id, at) =>
      if id in s.bats && !Muted(s.circuits, s.bats[id].circuit, at) then s.(polls := s.polls + multiset{Poll(id, at)})
      else s
    case PollDrains(poll) =>
      if poll in s.polls && poll.id in s.bats then
        s.(bats := s.bats[poll.id := DrainOne(s.bats[poll.id], poll.at)],
           books := s.books[poll.id := BookDrain(s.books[poll.id], s.bats[poll.id])],
           polls := s.polls - multiset{poll})
      else s
    case PlugReading(id, apower, relayOn, at) =>
      if id in s.bats then s.(bats := s.bats[id := IngestOne(s.bats[id], apower, relayOn, at)]) else s
  }

  // ------------------------------------------------------------------
  // The invariant
  // ------------------------------------------------------------------

  /** A burst is pending exactly when samples remain; while it is, it is the
      last correction armed, worth sending, and not stamped as completed. */
  predicate PulseOk(b: Battery) {
    && b.pulseRemaining <= PULSE_COUNT
    && (b.pulseRemaining == 0 <==> b.pendingPulseW == 0.0)
    && (b.pulseRemaining > 0 ==>
          && b.lastPulseDeltaW == Some(b.pendingPulseW)
          && Abs(b.pendingPulseW) >= WRITE_DEADBAND_W
          && b.lastPulseCompletedAt.None?)
  }

  /** Conservation: every armed correction is sent PULSE_COUNT times, except
      for what is still owed and what a mute dropped. */
  predicate Balanced(b: Battery, l: Ledger) {
    l.drained + Owed(b) + l.dropped == PULSE_COUNT as real * l.armed
  }

  /** Once past the gate, nothing is in flight on an audible circuit. */
  ghost predicate GateHolds(s: System) {
    s.phase.Computing? || s.phase.Queueing? ==>
      forall id :: id in s.bats && !Muted(s.circuits, s.bats[id].circuit, s.phase.now) ==>
        s.bats[id].pulseRemaining == 0
  }

  ghost predicate Inv(s: System) {
    && s.books.Keys == s.bats.Keys
    && (forall id :: id in s.bats ==> PulseOk(s.bats[id]) && Balanced(s.bats[id], s.books[id]))
    && GateHolds(s)
  }

  /** The state after start-up. */
  ghost predicate Initial(s: System) {
    && s.books.Keys == s.bats.Keys && s.phase == Idle && s.polls == multiset{}
    && forall id :: id in s.bats ==>
      s.bats[id].pulseRemaining == 0 && s.bats[id].pendingPulseW == 0.0 && s.books[id] == Ledger(0.0, 0.0, 0.0)
  }

  lemma InitialInv(s: System)
    requires Initial(s)
    ensures Inv(s)
  {
  }

  lemma QueueKeepsBooks(b: Battery, l: Ledger, silent: bool, delta: real)
    requires PulseOk(b) && Balanced(b, l) && (!silent ==> b.pulseRemaining == 0)
    ensures PulseOk(QueueOne(b, silent, delta)) && Balanced(QueueOne(b, silent, delta), BookQueue(l, b, silent, delta))
  {
  }

  lemma DrainKeepsBooks(b: Battery, l: Ledger, now: Time)
    requires PulseOk(b) && Balanced(b, l)
    ensures PulseOk(DrainOne(b, now)) && Balanced(DrainOne(b, now), BookDrain(l, b))
    ensures b.pulseRemaining == 0 ==> DrainOne(b, now).pulseRemaining == 0
    ensures DrainOne(b, now).circuit == b.circuit
  {
    if b.pulseRemaining > 0 {
      var n := b.pulseRemaining;
      assert (n - 1) as real * b.pendingPulseW == n as real * b.pendingPulseW - b.pendingPulseW;
    }
  }

  lemma JudgeKeepsBooks(b: Battery, l: Ledger, cfg: DispatcherConfig, now: Time)
    requires PulseOk(b) && Balanced(b, l)
    ensures PulseOk(DetectOne(b, cfg, now)) && Balanced(DetectOne(b, cfg, now), l)
    ensures DetectOne(b, cfg, now).pulseRemaining == b.pulseRemaining && DetectOne(b, cfg, now).circuit == b.circuit
  {
  }

  lemma ReadingKeepsBooks(b: Battery, l: Ledger, apower: real, relayOn: Option<bool>, at: Time)
    requires PulseOk(b) && Balanced(b, l)
    ensures var r := IngestOne(b, apower, relayOn, at);
            PulseOk(r) && Balanced(r, l) && r.pulseRemaining == b.pulseRemaining && r.circuit == b.circuit
  {
    hide OverheadAfter;
  }

  lemma JudgeStep(s: System)
    requires Inv(s)
    ensures Inv(Step(s, TickJudge)) && Step(s, TickJudge).bats.Keys == s.bats.Keys
  {
    hide PulseOk, Balanced, DetectOne;
    if s.phase.Judging? {
      forall id | id in s.bats
        ensures PulseOk(DetectOne(s.bats[id], s.phase.cfg, s.phase.now))
        ensures Balanced(DetectOne(s.bats[id], s.phase.cfg, s.phase.now), s.books[id])
      {
        JudgeKeepsBooks(s.bats[id], s.books[id], s.phase.cfg, s.phase.now);
      }
    }
  }

  lemma GateStep(s: System, clock: Time)
    requires Inv(s)
    ensures Inv(Step(s, TickGate(clock))) && Step(s, TickGate(clock)).bats.Keys == s.bats.Keys
  {
    hide PulseOk, Balanced, PulseSettled;
    if s.phase.Gating? && AllSettled(s.bats, s.circuits, s.phase.cfg, s.phase.now, clock) {
      forall id | id in s.bats && !Muted(s.circuits, s.bats[id].circuit, s.phase.now)
        ensures s.bats[id].pulseRemaining == 0
      {
        SettledIsEmpty(s.bats[id], clock, PLUG_STABLE_DURATION_S, s.phase.cfg.settleTimeoutS);
      }
    }
  }

  lemma QueueStep(s: System)
    requires Inv(s)
    ensures Inv(Step(s, TickQueue)) && Step(s, TickQueue).bats.Keys == s.bats.Keys
  {
    hide PulseOk, Balanced, QueueOne, BookQueue, Muted;
    if s.phase.Queueing? {
      forall id | id in s.bats
        ensures var silent := Muted(s.circuits, s.bats[id].circuit, s.phase.now);
                var delta := DeltaOf(s.phase.deltas, id);
                && PulseOk(QueueOne(s.bats[id], silent, delta))
                && Balanced(QueueOne(s.bats[id], silent, delta), BookQueue(s.books[id], s.bats[id], silent, delta))
      {
        QueueKeepsBooks(s.bats[id], s.books[id], Muted(s.circuits, s.bats[id].circuit, s.phase.now),
                        DeltaOf(s.phase.deltas, id));
      }
    }
  }

  lemma DrainStep(s: System, poll: Poll)
    requires Inv(s)
    ensures Inv(Step(s, PollDrains(poll))) && Step(s, PollDrains(poll)).bats.Keys == s.bats.Keys
  {
    hide PulseOk, Balanced, DrainOne, BookDrain;
    if poll in s.polls && poll.id in s.bats {
      DrainKeepsBooks(s.bats[poll.id], s.books[poll.id], poll.at);
    }
  }

  lemma ReadingStep(s: System, id: Id, apower: real, relayOn: Option<bool>, at: Time)
    requires Inv(s)
    ensures var t := Step(s, PlugReading(id, apower, relayOn, at));
            Inv(t) && t.bats.Keys == s.bats.Keys
  {
    hide PulseOk, Balanced, IngestOne;
    if id in s.bats {
      ReadingKeepsBooks(s.bats[id], s.books[id], apower, relayOn, at);
    }
  }

  lemma StepKeepsInv(s: System, e: Event)
    requires Inv(s)
    ensures Inv(Step(s, e)) && Step(s, e).bats.Keys == s.bats.Keys
  {
    hide PulseOk, Balanced, MuteOne;
    match e
    case TickMute(now, gridAt, cfg) =>
    case TickJudge => JudgeStep(s);
    case TickGate(clock) => GateStep(s, clock);
    case TickCompute(deltas) =>
    case TickQueue => QueueStep(s);
    case PollArrives(id, at) =>
    case PollDrains(poll) => DrainStep(s, poll);
    case PlugReading(id, apower, relayOn, at) => ReadingStep(s, id, apower, relayOn, at);
  }

  lemma SettledIsEmpty(b: Battery, clock: Time, stableS: real, timeoutS: real)
    requires PulseSettled(b, clock, stableS, timeoutS)
    ensures b.pulseRemaining == 0
  {
  }

  // ------------------------------------------------------------------
  // Steps and methods
  // ------------------------------------------------------------------

  lemma GateInOneGo(s: System, gridAt: Option<Time>, cfg: DispatcherConfig, now: Time, clock: Time)
    requires s.books.Keys == s.bats.Keys && s.phase == Idle
    ensures var t := Step(Step(Step(s, TickMute(now, gridAt, cfg)), TickJudge), TickGate(clock));
            var judged := DetectAll(s.bats, cfg, now);
            && t.polls == s.polls && t.books == s.books && t.circuits == MuteAll(s.circuits, s.bats, cfg, gridAt, now)
            && if cfg.mode.Modbus? || !GridFresh(gridAt, cfg, now) then t.phase == Idle && t.bats == s.bats
               else && t.bats == judged
                    && t.phase == if AllSettled(judged, t.circuits, cfg, now, clock) then Computing(now) else Idle
  {
    hide MuteAll, DetectAll, QueueAll, AllSettled, GridFresh;
  }

  lemma QueueInOneGo(s: System, deltas: map<Id, real>)
    requires s.books.Keys == s.bats.Keys && (s.phase.Idle? || s.phase.Computing?)
    ensures var t := Step(Step(s, TickCompute(deltas)), TickQueue);
            && t.phase == Idle && t.polls == s.polls && t.circuits == s.circuits
            && t.bats == if s.phase.Idle? then s.bats else QueueAll(s.bats, s.circuits, deltas, s.phase.now)
  {
    hide QueueAll, BookQueue, Muted;
  }

  /** The five steps of a tick with nothing in between do what `StepPulse` does,
      the corrections being those it computes; in Modbus mode only the mute is left. */
  lemma TickInOneGo(s: System, gridAt: Option<Time>, cfg: DispatcherConfig, now: Time, clock: Time,
                    deltas: map<Id, real>)
    requires s.books.Keys == s.bats.Keys && s.phase == Idle
    ensures var gated := Step(Step(Step(s, TickMute(now, gridAt, cfg)), TickJudge), TickGate(clock));
            var t, judged := Step(Step(gated, TickCompute(deltas)), TickQueue), DetectAll(s.bats, cfg, now);
            && t.phase == Idle && t.polls == s.polls && t.circuits == MuteAll(s.circuits, s.bats, cfg, gridAt, now)
            && t.bats == (if cfg.mode.Modbus? || !GridFresh(gridAt, cfg, now) then s.bats
                          else if AllSettled(judged, t.circuits, cfg, now, clock) then
                            QueueAll(judged, t.circuits, deltas, now)
                          else judged)
  {
    hide Step, MuteAll, DetectAll, QueueAll, AllSettled, GridFresh;
    GateInOneGo(s, gridAt, cfg, now, clock);
    QueueInOneGo(Step(Step(Step(s, TickMute(now, gridAt, cfg)), TickJudge), TickGate(clock)), deltas);
  }

  /** The two steps of a poll do what `HandlePoll` does. */
  lemma PollInOneGo(s: System, id: Id, at: Time)
    requires s.books.Keys == s.bats.Keys && id in s.bats && s.polls == multiset{}
    ensures var t := Step(Step(s, PollArrives(id, at)), PollDrains(Poll(id, at)));
            && t.polls == multiset{} && t.circuits == s.circuits && t.phase == s.phase
            && if Muted(s.circuits, s.bats[id].circuit, at) then t.bats == s.bats && t.books == s.books
               else && t.bats == s.bats[id := DrainOne(s.bats[id], at)]
                    && t.books[id].drained == s.books[id].drained + SampleOf(s.bats[id])
  {
    hide DrainOne, SampleOf, Muted;
  }

  // ------------------------------------------------------------------
  // Runs
  // ------------------------------------------------------------------

  ghost function Run(s: System, events: seq<Event>): (t: System)
    requires Inv(s)
    ensures Inv(t) && t.bats.Keys == s.bats.Keys
    decreases |events|
  {
    if events == [] then s
    else
      var before := Run(s, events[..|events| - 1]);
      StepKeepsInv(before, events[|events| - 1]);
      Step(before, events[|events| - 1])
  }

  /** Main result: from start-up, through any interleaving of ticks, polls and
      plug readings, no burst is overwritten while part-sent. Per battery the
      samples sent, owed and dropped add up to PULSE_COUNT times what was
      armed, and pending state is consistent. */
  lemma PulsesAreConserved(s: System, events: seq<Event>, id: Id)
    requires Initial(s) && id in s.bats
    ensures Inv(s)
    ensures var t := Run(s, events);
            && t.books[id].drained + Owed(t.bats[id]) + t.books[id].dropped == PULSE_COUNT as real * t.books[id].armed
            && (t.bats[id].pulseRemaining == 0 <==> t.bats[id].pendingPulseW == 0.0)
            && (t.bats[id].pulseRemaining > 0 ==>
                  && t.bats[id].lastPulseDeltaW == Some(t.bats[id].pendingPulseW)
                  && Abs(t.bats[id].pendingPulseW) >= WRITE_DEADBAND_W && t.bats[id].lastPulseCompletedAt.None?)
  {
    hide Run, Owed;
    InitialInv(s);
    var t := Run(s, events);
    assert Balanced(t.bats[id], t.books[id]) && PulseOk(t.bats[id]);
  }
}
