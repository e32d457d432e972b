/** What a run of the pulse protocol says about its past: bursts are armed only
    by a tick whose gate saw every battery settled, and a stale tick silences a
    circuit for a minute. */
module PulseHistory {
  import opened Prelude
  import opened Config
  import opened State
  import opened Mute
  import opened Pulses
  import opened PulseRuns

  // ------------------------------------------------------------------
  // The global gate
  // ------------------------------------------------------------------

  predicate PastGate(p: Phase) {
    p.Computing? || p.Queueing?
  }

  /** Event number g is the gate of the tick under way, and it saw every
      battery on an audible circuit settled. */
  ghost predicate GatedAt(s: System, events: seq<Event>, now: Time, g: nat)
    requires Inv(s)
  {
    && g < |events| && events[g].TickGate?
    && var u := Run(s, events[..g]);
       && u.phase.Gating? && u.phase.now == now
       && AllSettled(u.bats, u.circuits, u.phase.cfg, now, events[g].clock)
  }

  lemma OnlyTheGateLetsPass(s: System, e: Event)
    requires Inv(s) && PastGate(Step(s, e).phase)
    ensures var t := Step(s, e);
            || (PastGate(s.phase) && s.phase.now == t.phase.now)
            || (e.TickGate? && s.phase.Gating? && s.phase.now == t.phase.now
                && AllSettled(s.bats, s.circuits, s.phase.cfg, s.phase.now, e.clock))
  {
    hide MuteOne, DetectOne, QueueOne, DrainOne, IngestOne, AllSettled, PulseOk, Balanced;
  }

  lemma {:induction false} TheTickWasGated(s: System, events: seq<Event>) returns (g: nat)
    requires Inv(s) && !PastGate(s.phase) && PastGate(Run(s, events).phase)
    ensures GatedAt(s, events, Run(s, events).phase.now, g)
    decreases |events|
  {
    hide Step, AllSettled, Inv;
    var n := |events| - 1;
    var before := Run(s, events[..n]);
    OnlyTheGateLetsPass(before, events[n]);
    if PastGate(before.phase) {
      g := TheTickWasGated(s, events[..n]);
      assert events[..n][..g] == events[..g];
    } else {
      g := n;
    }
  }

  lemma OnlyQueueingArms(s: System, e: Event, id: Id)
    requires Inv(s) && id in s.bats
    requires Step(s, e).books[id].armed != s.books[id].armed
    ensures e == TickQueue && s.phase.Queueing? && !Muted(s.circuits, s.bats[id].circuit, s.phase.now)
  {
    hide MuteOne, DetectOne, QueueOne, DrainOne, IngestOne, AllSettled, PulseOk, Balanced;
  }

  ghost predicate Arms(t: System, e: Event, id: Id)
    requires Inv(t)
  {
    id in t.bats && Step(t, e).books[id].armed != t.books[id].armed
  }

  ghost predicate NothingInFlight(t: System, now: Time) {
    forall id :: id in t.bats && !Muted(t.circuits, t.bats[id].circuit, now) ==> t.bats[id].pulseRemaining == 0
  }

  lemma QueueingIsClear(t: System)
    requires Inv(t)
    ensures t.phase.Queueing? ==> NothingInFlight(t, t.phase.now)
  {
    hide PulseOk, Balanced;
  }

  /** Main result: whenever a burst is armed for any battery, the tick that arms
      it passed a gate at which every battery on an audible circuit was settled,
      and at the moment of arming still none of them has samples to send. */
  lemma ArmingWasGated(s: System, events: seq<Event>, e: Event, id: Id)
    requires Inv(s) && s.phase == Idle && Arms(Run(s, events), e, id)
    ensures var t := Run(s, events);
            && e == TickQueue && t.phase.Queueing?
            && (exists g: nat :: GatedAt(s, events, t.phase.now, g))
            && NothingInFlight(t, t.phase.now)
  {
    hide Run, Step, Inv, NothingInFlight, GatedAt;
    var t := Run(s, events);
    QueueingIsClear(t);
    OnlyQueueingArms(t, e, id);
    var g := TheTickWasGated(s, events);
  }

  // ------------------------------------------------------------------
  // Silence
  // ------------------------------------------------------------------

  /** The event happens before the deadline. */
  predicate Early(e: Event, deadline: Time) {
    match e
    case TickMute(now, _, _) => now < deadline
    case PollArrives(_, at) => at < deadline
    case _ => true
  }

  predicate AllEarly(events: seq<Event>, deadline: Time) {
    forall i :: 0 <= i < |events| ==> Early(events[i], deadline)
  }

  /** Circuit `c` is silent until the deadline, also for the tick under way. */
  ghost predicate Silent(s: System, c: Id, deadline: Time) {
    && c in s.circuits && s.circuits[c].silentUntil.Some? && s.circuits[c].silentUntil.value >= deadline
    && (s.phase.Idle? || s.phase.now < deadline)
  }

  /** A poll of the battery that is past its mute check finds no sample left. */
  ghost predicate NothingForPolls(s: System, id: Id)
    requires id in s.bats
  {
    forall p :: p in s.polls && p.id == id ==> s.bats[id].pulseRemaining == 0
  }

  lemma JudgedBattery(b: Battery, cfg: DispatcherConfig, now: Time)
    ensures DetectOne(b, cfg, now).circuit == b.circuit && DetectOne(b, cfg, now).pulseRemaining == b.pulseRemaining
  {
  }

  lemma SameBattery(b: Battery, now: Time, silent: bool, delta: real, apower: real, relayOn: Option<bool>)
    ensures QueueOne(b, silent, delta).circuit == b.circuit
    ensures silent ==> QueueOne(b, silent, delta).pulseRemaining == 0
    ensures DrainOne(b, now).circuit == b.circuit
    ensures b.pulseRemaining == 0 ==> DrainOne(b, now).pulseRemaining == 0 && SampleOf(b) == 0.0
    ensures var r := IngestOne(b, apower, relayOn, now); r.circuit == b.circuit && r.pulseRemaining == b.pulseRemaining
  {
    hide OverheadAfter;
  }

  lemma SilenceSurvivesStep(s: System, e: Event, c: Id, deadline: Time)
    requires Inv(s) && Silent(s, c, deadline) && Early(e, deadline)
    ensures Silent(Step(s, e), c, deadline)
  {
    hide DetectOne, QueueOne, DrainOne, IngestOne, AllSettled, PulseOk, Balanced, Stale, NextSilentUntil;
    if e.TickMute? {
      var cs := s.circuits[c];
      SilenceOnlyGrows(cs.silentUntil, Stale(cs, s.bats, e.cfg, e.gridAt, e.now), e.now, Silence(e.cfg));
    }
  }

  /** What a step must not do to a member of a silent circuit. */
  ghost predicate Spares(s: System, t: System, c: Id, id: Id)
    requires s.books.Keys == s.bats.Keys && t.books.Keys == t.bats.Keys && id in s.bats
  {
    && id in t.bats && t.bats[id].circuit == c && NothingForPolls(t, id)
    && t.books[id].drained == s.books[id].drained
  }

  lemma SilentTick(s: System, e: Event, c: Id, deadline: Time, id: Id)
    requires Inv(s) && Silent(s, c, deadline) && Early(e, deadline)
    requires id in s.bats && s.bats[id].circuit == c && NothingForPolls(s, id)
    requires e.TickMute? || e.TickJudge? || e.TickGate? || e.TickCompute? || e.TickQueue?
    ensures Spares(s, Step(s, e), c, id)
  {
    hide MuteOne, DetectOne, QueueOne, AllSettled, PulseOk, Balanced, Owed, GateHolds;
    var b := s.bats[id];
    if e.TickJudge? && s.phase.Judging? {
      JudgedBattery(b, s.phase.cfg, s.phase.now);
    } else if e.TickQueue? && s.phase.Queueing? {
      SameBattery(b, 0.0, true, DeltaOf(s.phase.deltas, id), 0.0, None);
    }
  }

  /** On a silent circuit no step admits a poll of a member, arms a burst for it
      or, unless a poll under way found samples, sends it any. */
  lemma SilentStep(s: System, e: Event, c: Id, deadline: Time, id: Id)
    requires Inv(s) && Silent(s, c, deadline) && Early(e, deadline)
    requires id in s.bats && s.bats[id].circuit == c && NothingForPolls(s, id)
    ensures Spares(s, Step(s, e), c, id)
  {
    hide DrainOne, IngestOne, AllSettled, PulseOk, Balanced, SampleOf, Owed, MuteAll, DetectAll, QueueAll, GateHolds;
    var b := s.bats[id];
    match e
    case PollArrives(_, _) =>
    case PollDrains(poll) => SameBattery(b, poll.at, false, 0.0, 0.0, None);
    case PlugReading(_, apower, relayOn, at) => SameBattery(b, at, false, 0.0, apower, relayOn);
    case _ => SilentTick(s, e, c, deadline, id);
  }

  lemma {:induction false} SilentRun(s: System, events: seq<Event>, c: Id, deadline: Time, id: Id)
    requires Inv(s) && Silent(s, c, deadline) && AllEarly(events, deadline)
    requires id in s.bats && s.bats[id].circuit == c && NothingForPolls(s, id)
    ensures var t := Run(s, events);
            && Silent(t, c, deadline) && NothingForPolls(t, id)
            && t.bats[id].circuit == c && t.books[id].drained == s.books[id].drained
    decreases |events|
  {
    hide Step, Early, Silent, NothingForPolls, PulseOk, Balanced;
    if events != [] {
      var n := |events| - 1;
      SilentRun(s, events[..n], c, deadline, id);
      var before := Run(s, events[..n]);
      SilenceSurvivesStep(before, events[n], c, deadline);
      SilentStep(before, events[n], c, deadline, id);
    }
  }

  /** A poll that passed its check before the mute carries a sample to a battery
      whose circuit is silent. */
  lemma RacingPollDrains(s: System, p: Poll)
    requires Inv(s) && p in s.polls && p.id in s.bats && s.bats[p.id].pulseRemaining > 0
    ensures Run(s, [PollDrains(p)]).books[p.id].drained != s.books[p.id].drained
  {
    hide Run, Step, PulseOk, Balanced;
    RunOfOne(s, PollDrains(p));
    DrainIsBooked(s, p);
  }

  lemma RunOfOne(s: System, e: Event)
    requires Inv(s)
    ensures Run(s, [e]) == Step(s, e)
  {
    hide Step, Inv;
    assert [e][..0] == [];
    assert Run(s, []) == s;
  }

  lemma DrainIsBooked(s: System, p: Poll)
    requires Inv(s) && p in s.polls && p.id in s.bats && s.bats[p.id].pulseRemaining > 0
    ensures Step(s, PollDrains(p)).books[p.id].drained != s.books[p.id].drained
  {
    hide Balanced, DrainOne, Owed;
    assert PulseOk(s.bats[p.id]);
  }

  /** Main result: after a Pulse-mode tick that sees a stale member plug or a
      stale grid reading, no CT sample reaches a member of the circuit for
      GROUP_SILENT_AFTER_STALE_S, whatever ticks, polls and readings follow, if
      and only if no poll of that member had already passed its mute check
      while samples were left for it. */
  lemma SilentForAMinute(s: System, now: Time, gridAt: Option<Time>, cfg: DispatcherConfig, c: Id, id: Id)
    requires Inv(s) && s.phase == Idle && cfg.mode == Pulse
    requires c in s.circuits && Stale(s.circuits[c], s.bats, cfg, gridAt, now)
    requires id in s.bats && s.bats[id].circuit == c
    ensures var muted, deadline := Step(s, TickMute(now, gridAt, cfg)), now + GROUP_SILENT_AFTER_STALE_S;
            && Inv(muted) && Muted(muted.circuits, c, now)
            && ((forall events :: AllEarly(events, deadline) ==>
                   Run(muted, events).books[id].drained == s.books[id].drained)
                <==> NothingForPolls(s, id))
  {
    hide PulseOk, Balanced, Stale, Run, AllEarly;
    var muted, deadline := Step(s, TickMute(now, gridAt, cfg)), now + GROUP_SILENT_AFTER_STALE_S;
    StepKeepsInv(s, TickMute(now, gridAt, cfg));
    if NothingForPolls(s, id) {
      forall events | AllEarly(events, deadline)
        ensures Run(muted, events).books[id].drained == s.books[id].drained
      {
        SilentRun(muted, events, c, deadline, id);
      }
    } else {
      var p :| p in s.polls && p.id == id && s.bats[id].pulseRemaining != 0;
      RacingPollDrains(muted, p);
      PollIsEarly(p, deadline);
    }
  }

  lemma PollIsEarly(p: Poll, deadline: Time)
    ensures AllEarly([PollDrains(p)], deadline)
  {
  }
}
