/** The register cache between the writer task, which refreshes it tier by
    tier, and the virtual Modbus server, which answers reads from it. */
module Cache {
  import opened Prelude

  type U16 = x: nat | x < 0x1_0000

  type Cached = map<U16, U16>

  // ------------------------------------------------------------------
  // Refreshing a tier
  // ------------------------------------------------------------------

  const WIRE_ERROR_DROP_THRESHOLD: nat := 3

  /** What becomes of reading one register. */
  datatype ReadResult = NoConnection | Value(v: U16) | EmptyAnswer | FirmwareException | WireError

  /** The refresh so far: values read, wire errors in a row, connection given up. */
  datatype Sweep = Sweep(collected: Cached, streak: nat, dead: bool)

  function Read(s: Sweep, reg: U16, result: ReadResult): Sweep {
    if s.dead then s
    else
      match result
      case NoConnection => s.(dead := true)
      case Value(v) => s.(collected := s.collected[reg := v], streak := 0)
      case EmptyAnswer => s.(streak := 0)
      case FirmwareException => s.(streak := 0)
      case WireError => s.(streak := s.streak + 1, dead := s.streak + 1 >= WIRE_ERROR_DROP_THRESHOLD)
  }

  /** After the first n registers of the tier. */
  function SweepTo(regs: seq<U16>, results: seq<ReadResult>, n: nat): Sweep
    requires n <= |regs| == |results|
  {
    if n == 0 then Sweep(map[], 0, false) else Read(SweepTo(regs, results, n - 1), regs[n - 1], results[n - 1])
  }

  function Collected(regs: seq<U16>, results: seq<ReadResult>): Cached
    requires |regs| == |results|
  {
    SweepTo(regs, results, |regs|).collected
  }

  /** The refresh gives up at register i. */
  predicate Fatal(results: seq<ReadResult>, i: nat)
    requires i < |results|
  {
    || results[i].NoConnection?
    || (i >= 2 && results[i].WireError? && results[i - 1].WireError? && results[i - 2].WireError?)
  }

  predicate AliveAt(results: seq<ReadResult>, n: nat)
    requires n <= |results|
  {
    forall i :: 0 <= i < n ==> !Fatal(results, i)
  }

  /** The streak counts the wire errors just seen, so the connection is given up
      exactly at a failed connect or at three wire errors in a row. */
  lemma {:induction false} StreakCountsWireErrors(regs: seq<U16>, results: seq<ReadResult>, n: nat)
    requires n <= |regs| == |results|
    ensures var s := SweepTo(regs, results, n);
            && (s.dead <==> !AliveAt(results, n))
            && (!s.dead ==> s.streak <= 2 && s.streak <= n)
            && (!s.dead ==> forall i :: n - s.streak <= i < n ==> results[i].WireError?)
            && (!s.dead && s.streak < n ==> !results[n - s.streak - 1].WireError?)
  {
    if n > 0 {
      StreakCountsWireErrors(regs, results, n - 1);
      var s := SweepTo(regs, results, n - 1);
      if !s.dead {
        assert Fatal(results, n - 1) <==> SweepTo(regs, results, n).dead;
      }
    }
  }

  /** The last read of `reg` among the first n that came back with a value
      while the connection was still alive. */
  predicate LastGoodRead(regs: seq<U16>, results: seq<ReadResult>, n: nat, reg: U16, i: int)
    requires n <= |regs| == |results|
  {
    && 0 <= i < n && regs[i] == reg && results[i].Value? && AliveAt(results, i)
    && forall j :: i < j < n && AliveAt(results, j) && regs[j] == reg ==> !results[j].Value?
  }

  /** A refresh collects exactly the registers that answered before it gave up. */
  lemma {:induction false} CollectedIsWhatAnswered(regs: seq<U16>, results: seq<ReadResult>, n: nat, reg: U16)
    requires n <= |regs| == |results|
    ensures var c := SweepTo(regs, results, n).collected;
            && (reg in c <==> exists i :: LastGoodRead(regs, results, n, reg, i))
            && (forall i :: LastGoodRead(regs, results, n, reg, i) ==> reg in c && c[reg] == results[i].v)
  {
    if n > 0 {
      CollectedIsWhatAnswered(regs, results, n - 1, reg);
      StreakCountsWireErrors(regs, results, n - 1);
      var before := SweepTo(regs, results, n - 1);
      if !before.dead && results[n - 1].Value? && regs[n - 1] == reg {
        assert LastGoodRead(regs, results, n, reg, n - 1);
      } else {
        assert forall i :: LastGoodRead(regs, results, n, reg, i) <==> LastGoodRead(regs, results, n - 1, reg, i);
        var m := n - 1;
        if i :| LastGoodRead(regs, results, m, reg, i) {
          assert LastGoodRead(regs, results, n, reg, i);
        }
      }
    }
  }

  class RegisterCache {
    var regs: Cached

    constructor ()
      ensures regs == map[]
    {
      regs := map[];
    }

    /** `tier_refresh`: read the tier one register at a time, merge what came
        back, report failure when nothing did. */
    method TierRefresh(tier: seq<U16>, results: seq<ReadResult>) returns (ok: bool)
      requires |tier| == |results|
      modifies this
      ensures regs == old(regs) + Collected(tier, results)
      ensures ok <==> Collected(tier, results) != map[]
    {
      var collected: Cached, streak, dead := map[], 0, false;
      var k := 0;
      while k < |tier|
        invariant 0 <= k <= |tier| && !dead && regs == old(regs)
        invariant SweepTo(tier, results, k) == Sweep(collected, streak, dead)
        decreases |tier| - k
      {
        match results[k] {
          case NoConnection =>
            dead := true;
          case Value(v) =>
            collected := collected[tier[k] := v];
            streak := 0;
          case EmptyAnswer =>
            streak := 0;
          case FirmwareException =>
            streak := 0;
          case WireError =>
            streak := streak + 1;
            if streak >= WIRE_ERROR_DROP_THRESHOLD {
              dead := true;
            }
        }
        k := k + 1;
        if dead {
          break;
        }
      }
      if dead {
        DeadStaysDead(tier, results, k, |tier|);
      }
      if collected == map[] {
        return false;
      }
      regs := regs + collected;
      return true;
    }
  }

  lemma {:induction false} DeadStaysDead(regs: seq<U16>, results: seq<ReadResult>, n: nat, m: nat)
    requires n <= m <= |regs| == |results| && SweepTo(regs, results, n).dead
    ensures SweepTo(regs, results, m) == SweepTo(regs, results, n)
    decreases m
  {
    if n < m {
      DeadStaysDead(regs, results, n, m - 1);
    }
  }

  // ------------------------------------------------------------------
  // Answering reads
  // ------------------------------------------------------------------

  datatype MarstekModel = VenusEV1V2 | VenusEV3 | VenusD | VenusA

  /** Home Assistant probes the V1/V2 state-of-charge register whatever the
      variant; on V3 the probe is answered from the V3 register. */
  function AliasProbeRegister(model: MarstekModel, addr: U16): U16 {
    if model == VenusEV3 && addr == 32104 then 34002 else addr
  }

  /** The address counter wraps at 16 bits. */
  function RegisterAt(model: MarstekModel, addr: U16, offset: nat): U16 {
    AliasProbeRegister(model, (addr + offset) % 0x1_0000)
  }

  /** Register k of a read from `addr` is the one k further on, around the end of
      the address space; only a V3 is asked for 34002 in place of 32104. */
  lemma NamedRegister(model: MarstekModel, addr: U16, k: nat)
    requires k < 0x1_0000
    ensures var reg, plain := RegisterAt(model, addr, k), if addr + k < 0x1_0000 then addr + k else addr + k - 0x1_0000;
            match model
            case VenusEV3 => reg == if plain == 32104 then 34002 else plain
            case VenusEV1V2 => reg == plain
            case VenusD => reg == plain
            case VenusA => reg == plain
  {
  }

  datatype Request = ReadHolding(addr: U16, count: U16) | ReadInput(addr: U16, count: U16) | AnyOther

  datatype Response =
    | Values(out: seq<U16>)
    | GatewayPathUnavailable
    | ServerDeviceBusy
    | IllegalDataAddress
    | IllegalFunction

  datatype Unit = Unit(model: MarstekModel, regs: Cached)

  /** What a read of a known unit must answer. */
  ghost predicate AnswersRead(u: Unit, addr: U16, count: U16, r: Response) {
    match r
    case Values(out) =>
      && u.regs != map[] && |out| == count
      && forall k :: 0 <= k < count ==> RegisterAt(u.model, addr, k) in u.regs
                                        && out[k] == u.regs[RegisterAt(u.model, addr, k)]
    case ServerDeviceBusy => u.regs == map[]
    case IllegalDataAddress => u.regs != map[] && exists k :: 0 <= k < count && RegisterAt(u.model, addr, k) !in u.regs
    case _ => false
  }

  /** What any request must answer, given the unit it is addressed to. */
  ghost predicate Answers(target: Option<Unit>, req: Request, r: Response) {
    match target
    case None => r == GatewayPathUnavailable
    case Some(u) =>
      match req
      case ReadHolding(addr, count) => AnswersRead(u, addr, count, r)
      case ReadInput(addr, count) => AnswersRead(u, addr, count, r)
      case AnyOther => r == IllegalFunction
  }

  /** There is exactly one right answer to every request. */
  lemma OneAnswer(target: Option<Unit>, req: Request, r: Response, q: Response)
    requires Answers(target, req, r) && Answers(target, req, q)
    ensures r == q
  {
    if target.Some? && r.Values? && q.Values? {
      assert r.out == q.out;
    }
  }

  class VirtualServer {
    var total: nat
    var ok: nat
    var illegalAddress: nat
    var busy: nat
    var illegalFunction: nat
    var gatewayUnavailable: nat

    /** Every request is counted under exactly one outcome. */
    ghost predicate Valid()
      reads this
    {
      total == ok + illegalAddress + busy + illegalFunction + gatewayUnavailable
    }

    constructor ()
      ensures Valid() && total == 0
    {
      total, ok, illegalAddress, busy, illegalFunction, gatewayUnavailable := 0, 0, 0, 0, 0, 0;
    }

    /** `handle_request`, after the unit id was looked up. */
    method HandleRequest(target: Option<Unit>, req: Request) returns (r: Response)
      requires Valid()
      modifies this
      ensures Valid() && total == old(total) + 1
      ensures Answers(target, req, r)
      ensures ok == old(ok) + (if r.Values? then 1 else 0)
      ensures illegalAddress == old(illegalAddress) + (if r.IllegalDataAddress? then 1 else 0)
      ensures busy == old(busy) + (if r.ServerDeviceBusy? then 1 else 0)
      ensures illegalFunction == old(illegalFunction) + (if r.IllegalFunction? then 1 else 0)
      ensures gatewayUnavailable == old(gatewayUnavailable) + (if r.GatewayPathUnavailable? then 1 else 0)
    {
      total := total + 1;
      if target.None? {
        gatewayUnavailable := gatewayUnavailable + 1;
        return GatewayPathUnavailable;
      }
      if req.AnyOther? {
        illegalFunction := illegalFunction + 1;
        return IllegalFunction;
      }
      var u, addr, count := target.value, req.addr, req.count;
      if u.regs == map[] {
        busy := busy + 1;
        return ServerDeviceBusy;
      }
      var out: seq<U16> := [];
      for offset := 0 to count
        invariant |out| == offset
        invariant forall k :: 0 <= k < offset ==> RegisterAt(u.model, addr, k) in u.regs
                                                  && out[k] == u.regs[RegisterAt(u.model, addr, k)]
      {
        var reg: U16 := (addr + offset) % 0x1_0000;
        var cacheKey := AliasProbeRegister(u.model, reg);
        assert cacheKey == RegisterAt(u.model, addr, offset);
        if cacheKey !in u.regs {
          illegalAddress := illegalAddress + 1;
          return IllegalDataAddress;
        }
        out := out + [u.regs[cacheKey]];
      }
      ok := ok + 1;
      return Values(out);
    }
  }

  // ------------------------------------------------------------------
  // Cache agreement
  // ------------------------------------------------------------------

  /** The cache after a sequence of refreshes, each given by what it collected. */
  function Merged(log: seq<Cached>): Cached {
    if log == [] then map[] else Merged(log[..|log| - 1]) + log[|log| - 1]
  }

  /** Refresh number i was the last to read `reg`. */
  predicate LastRead(log: seq<Cached>, reg: U16, i: int) {
    0 <= i < |log| && reg in log[i] && forall j :: i < j < |log| ==> reg !in log[j]
  }

  /** A register is cached exactly when some refresh read it, with the value of
      the last one that did, whichever tiers came in between. */
  lemma {:induction false} CacheHoldsLatest(log: seq<Cached>, reg: U16)
    ensures reg in Merged(log) <==> exists i :: LastRead(log, reg, i)
    ensures forall i :: LastRead(log, reg, i) ==> reg in Merged(log) && Merged(log)[reg] == log[i][reg]
    decreases |log|
  {
    if log != [] {
      var n := |log| - 1;
      CacheHoldsLatest(log[..n], reg);
      if reg in log[n] {
        assert LastRead(log, reg, n);
      } else {
        assert forall i :: LastRead(log, reg, i) <==> LastRead(log[..n], reg, i);
      }
    }
  }

  /** Main result: at any point between refreshes a read returns exactly `count`
      values, each the latest successful read of the (aliased, wrapped) register
      it names; or an exception and nothing, exactly when one was never read. */
  lemma ReadsAreLatest(log: seq<Cached>, model: MarstekModel, addr: U16, count: U16, r: Response)
    requires AnswersRead(Unit(model, Merged(log)), addr, count, r)
    ensures r.Values? ==>
      && |r.out| == count
      && forall k :: 0 <= k < count ==>
           exists i :: LastRead(log, RegisterAt(model, addr, k), i) && r.out[k] == log[i][RegisterAt(model, addr, k)]
    ensures r.IllegalDataAddress? ==>
      exists k :: 0 <= k < count && forall i :: 0 <= i < |log| ==> RegisterAt(model, addr, k) !in log[i]
    ensures r.ServerDeviceBusy? <==> forall i :: 0 <= i < |log| ==> log[i] == map[]
  {
    forall reg: U16
      ensures reg in Merged(log) <==> exists i :: 0 <= i < |log| && reg in log[i]
      ensures reg in Merged(log) ==> exists i :: LastRead(log, reg, i) && Merged(log)[reg] == log[i][reg]
    {
      CacheHoldsLatest(log, reg);
      if i :| 0 <= i < |log| && reg in log[i] {
        LastExists(log, reg, i);
      }
    }
    if Merged(log) == map[] {
      forall i | 0 <= i < |log|
        ensures log[i] == map[]
      {
      }
    } else {
      var reg :| reg in Merged(log);
    }
  }

  lemma {:induction false} LastExists(log: seq<Cached>, reg: U16, i: nat)
    requires i < |log| && reg in log[i]
    ensures exists j :: LastRead(log, reg, j)
    decreases |log| - i
  {
    if j :| i < j < |log| && reg in log[j] {
      LastExists(log, reg, j);
    } else {
      assert LastRead(log, reg, i);
    }
  }

  /** Merging a refresh of one tier keeps every value of the other. */
  lemma OtherTierSurvives(before: Cached, tier: seq<U16>, results: seq<ReadResult>, reg: U16)
    requires |tier| == |results| && reg in before && reg !in tier
    ensures var after := before + Collected(tier, results);
            reg in after && after[reg] == before[reg]
  {
    CollectedIsWhatAnswered(tier, results, |tier|, reg);
  }

  /** The probe of Home Assistant gets the latest state of charge, whichever
      register the variant keeps it in. */
  lemma ProbeFindsCharge(log: seq<Cached>, model: MarstekModel, r: Response)
    requires AnswersRead(Unit(model, Merged(log)), 32104, 1, r) && r.Values?
    ensures var charge: U16 := if model == VenusEV3 then 34002 else 32104;
            exists i :: LastRead(log, charge, i) && r.out == [log[i][charge]]
  {
    NamedRegister(model, 32104, 0);
    ReadsAreLatest(log, model, 32104, 1, r);
    var i :| LastRead(log, RegisterAt(model, 32104, 0), i) && r.out[0] == log[i][RegisterAt(model, 32104, 0)];
  }
}
