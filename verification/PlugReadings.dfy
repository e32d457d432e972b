/** What a series of plug readings leaves behind in a battery's state: the
    latest power, its age, the relay, the time of the last movement, and the
    running estimate of the overhead. */
module PlugReadings {
  import opened Prelude
  import opened Config
  import opened State
  import opened Pulses

  /** One answer of the plug; `apower` is positive into the battery. */
  datatype Reading = Reading(apower: real, relayOn: Option<bool>, at: Time)

  /** The battery after a series of plug readings. */
  function Readings(b: Battery, rs: seq<Reading>): Battery
    decreases |rs|
  {
    if rs == [] then b
    else
      var last := rs[|rs| - 1];
      IngestOne(Readings(b, rs[..|rs| - 1]), last.apower, last.relayOn, last.at)
  }

  // ------------------------------------------------------------------
  // The latest reading
  // ------------------------------------------------------------------

  /** Main result: power, age and relay are those of the last reading, with
      power out of the battery counted positive; the plug counts as fresh
      exactly as long as that reading is not too old. */
  lemma LastReadingCounts(b: Battery, rs: seq<Reading>, now: Time, staleS: real)
    requires rs != []
    ensures var last, after := rs[|rs| - 1], Readings(b, rs);
            && after.lastPlugW == Some(-last.apower) && after.lastPlugAt == Some(last.at)
            && after.plugRelayState == last.relayOn
            && (IsPlugFresh(after, now, staleS) <==> now - last.at <= staleS)
  {
    hide OverheadAfter;
  }

  /** Readings touch nothing else but the movement stamp and the overhead. */
  lemma {:induction false} ReadingsTouchOnly(b: Battery, rs: seq<Reading>)
    ensures var after := Readings(b, rs);
            after == b.(lastPlugW := after.lastPlugW, lastPlugAt := after.lastPlugAt,
                        plugRelayState := after.plugRelayState, lastPlugMovementAt := after.lastPlugMovementAt,
                        plugOverheadWSmoothed := after.plugOverheadWSmoothed)
    decreases |rs|
  {
    hide OverheadAfter;
    if rs != [] {
      ReadingsTouchOnly(b, rs[..|rs| - 1]);
    }
  }

  // ------------------------------------------------------------------
  // Movement
  // ------------------------------------------------------------------

  /** Reading i differs from the one before by more than the stability band;
      the first one also when there was none before. */
  predicate Moves(b: Battery, rs: seq<Reading>, i: int) {
    && 0 <= i < |rs|
    && if i > 0 then Abs(rs[i].apower - rs[i - 1].apower) > PLUG_STABLE_W
       else b.lastPlugW.Some? ==> Abs(rs[0].apower + b.lastPlugW.value) > PLUG_STABLE_W
  }

  /** Reading i moved, and no later one did. */
  predicate LastMove(b: Battery, rs: seq<Reading>, i: int) {
    0 <= i < |rs| && Moves(b, rs, i) && forall j :: i < j < |rs| ==> !Moves(b, rs, j)
  }

  /** The movement stamp is the time of the last reading that moved. */
  lemma {:induction false} MovementIsStamped(b: Battery, rs: seq<Reading>)
    ensures var after := Readings(b, rs);
            && (after.lastPlugMovementAt == b.lastPlugMovementAt || exists i :: LastMove(b, rs, i))
            && (forall i :: LastMove(b, rs, i) ==> after.lastPlugMovementAt == Some(rs[i].at))
    decreases |rs|
  {
    hide Moves, Readings;
    if rs == [] {
      NothingMoves(b);
    } else {
      var n := |rs| - 1;
      MovementIsStamped(b, rs[..n]);
      MovesInPrefix(b, rs);
      LastReadingStamps(b, rs);
      if Moves(b, rs, n) {
        assert LastMove(b, rs, n);
      } else {
        forall i
          ensures LastMove(b, rs, i) <==> LastMove(b, rs[..n], i)
        {
          assert forall j :: i < j < |rs| && Moves(b, rs, j) ==> Moves(b, rs[..n], j) && j < n;
          assert forall j :: i < j < n && Moves(b, rs[..n], j) ==> Moves(b, rs, j);
        }
      }
    }
  }

  lemma NothingMoves(b: Battery)
    ensures Readings(b, []) == b && forall i :: !Moves(b, [], i)
  {
  }

  lemma MovesInPrefix(b: Battery, rs: seq<Reading>)
    requires rs != []
    ensures forall i :: Moves(b, rs[..|rs| - 1], i) <==> Moves(b, rs, i) && i < |rs| - 1
    ensures forall i :: Moves(b, rs, i) ==> 0 <= i < |rs|
  {
    var before := rs[..|rs| - 1];
    assert forall i :: 0 <= i < |before| ==> before[i] == rs[i];
    forall i | 0 <= i < |before|
      ensures Moves(b, before, i) <==> Moves(b, rs, i)
    {
      assert i > 0 ==> before[i - 1] == rs[i - 1];
    }
  }

  lemma LastReadingStamps(b: Battery, rs: seq<Reading>)
    requires rs != []
    ensures Readings(b, rs).lastPlugMovementAt
         == if Moves(b, rs, |rs| - 1) then Some(rs[|rs| - 1].at) else Readings(b, rs[..|rs| - 1]).lastPlugMovementAt
  {
    hide OverheadAfter;
    var before := rs[..|rs| - 1];
    if before != [] {
      LastReadingCounts(b, before, 0.0, 0.0);
    }
  }

  // ------------------------------------------------------------------
  // The overhead estimate
  // ------------------------------------------------------------------

  /** The reading says something about the overhead: at least the firmware
      minimum is commanded, and the plug goes that way. A plug at 0 W goes the
      way of a charge. */
  predicate Telling(b: Battery, r: Reading) {
    && b.lastModbusSetpointW.Some?
    && var command := b.lastModbusSetpointW.value;
       || (command >= MARSTEK_MIN_W && r.apower < 0.0)
       || (command <= -MARSTEK_MIN_W && r.apower >= 0.0)
  }

  /** What the plug reads beyond the command, counted out of the battery. */
  function Beyond(b: Battery, r: Reading): real
    requires b.lastModbusSetpointW.Some?
  {
    -r.apower - b.lastModbusSetpointW.value
  }

  predicate Within(x: Option<real>, lo: real, hi: real) {
    x.Some? ==> lo <= x.value <= hi
  }

  lemma EstimateStep(b: Battery, r: Reading)
    ensures var after := IngestOne(b, r.apower, r.relayOn, r.at).plugOverheadWSmoothed;
            if !Telling(b, r) then after == b.plugOverheadWSmoothed
            else if b.plugOverheadWSmoothed.None? then after == Some(Beyond(b, r))
            else && after.Some?
                 && after.value - Beyond(b, r) == Mul(0.7, b.plugOverheadWSmoothed.value - Beyond(b, r))
  {
  }

  /** A charging battery whose plug reads 0 W has its whole command taken for
      overhead; a discharging one has not. */
  lemma ZeroCountsAsCharge(b: Battery, command: real, relayOn: Option<bool>, at: Time)
    requires b.lastModbusSetpointW == Some(command) && Abs(command) >= MARSTEK_MIN_W && b.plugOverheadWSmoothed.None?
    ensures IngestOne(b, 0.0, relayOn, at).plugOverheadWSmoothed == if command < 0.0 then Some(-command) else None
  {
  }

  /** Main result: a series in which no reading is telling leaves the estimate
      alone; otherwise it becomes known, and stays inside any bounds that hold
      what the telling readings say and what was known before. */
  lemma {:induction false} EstimateStaysWithin(b: Battery, rs: seq<Reading>, lo: real, hi: real)
    requires Within(b.plugOverheadWSmoothed, lo, hi)
    requires forall i :: 0 <= i < |rs| && Telling(b, rs[i]) ==> lo <= Beyond(b, rs[i]) <= hi
    ensures var after := Readings(b, rs).plugOverheadWSmoothed;
            && Within(after, lo, hi)
            && (after.Some? <==> b.plugOverheadWSmoothed.Some? || exists i :: 0 <= i < |rs| && Telling(b, rs[i]))
            && ((forall i :: 0 <= i < |rs| ==> !Telling(b, rs[i])) ==> after == b.plugOverheadWSmoothed)
    decreases |rs|
  {
    hide IngestOne, Mul;
    if rs != [] {
      var n := |rs| - 1;
      var before := Readings(b, rs[..n]);
      EstimateStaysWithin(b, rs[..n], lo, hi);
      ReadingsTouchOnly(b, rs[..n]);
      EstimateStep(before, rs[n]);
      assert Telling(before, rs[n]) <==> Telling(b, rs[n]);
      if Telling(before, rs[n]) && before.plugOverheadWSmoothed.Some? {
        Between(before.plugOverheadWSmoothed.value, Beyond(b, rs[n]), lo, hi);
      }
    }
  }

  lemma Between(x: real, y: real, lo: real, hi: real)
    requires lo <= x <= hi && lo <= y <= hi
    ensures lo <= y + Mul(0.7, x - y) <= hi
  {
  }
}
