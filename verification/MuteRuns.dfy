/** Muting over whole runs: whether a circuit is silent says whether one of its
    inputs was stale within the last minute. */
module MuteRuns {
  import opened Prelude
  import opened Config
  import opened State
  import opened Mute

  /** What one tick finds: the plugs, the grid reading, and its configuration. */
  datatype Look = Look(now: Time, bats: Batteries, gridAt: Option<Time>, cfg: DispatcherConfig)

  /** The instant is known and no further back than the limit. */
  predicate Recent(at: Option<Time>, now: Time, limit: real) {
    match at
    case None => false
    case Some(t) => t >= now - limit
  }

  /** The grid reading and every member's plug reading are recent enough. */
  predicate AllRecent(c: Circuit, l: Look) {
    && Recent(l.gridAt, l.now, l.cfg.gridStaleS)
    && forall m :: m in c.memberIds ==> m in l.bats && Recent(l.bats[m].lastPlugAt, l.now, l.cfg.plugStaleS)
  }

  lemma StaleMeansNotRecent(c: Circuit, l: Look)
    ensures Stale(c, l.bats, l.cfg, l.gridAt, l.now) <==> !AllRecent(c, l)
  {
  }

  function CircuitAfter(c: Circuit, looks: seq<Look>): Circuit
    decreases |looks|
  {
    if looks == [] then c
    else
      var l := looks[|looks| - 1];
      MuteOne(CircuitAfter(c, looks[..|looks| - 1]), l.bats, l.cfg, l.gridAt, l.now)
  }

  predicate InOrder(looks: seq<Look>) {
    forall i, j :: 0 <= i < j < |looks| ==> looks[i].now <= looks[j].now
  }

  /** Tick i found something stale in Pulse mode, less than a minute before `at`. */
  predicate Silences(c: Circuit, looks: seq<Look>, i: int, at: Time) {
    && 0 <= i < |looks| && looks[i].cfg.mode.Pulse? && !AllRecent(c, looks[i])
    && at < looks[i].now + GROUP_SILENT_AFTER_STALE_S
  }

  lemma LastLook(c: Circuit, d: Circuit, l: Look)
    requires d == c.(silentUntil := d.silentUntil)
    ensures var after := MuteOne(d, l.bats, l.cfg, l.gridAt, l.now);
            && after == c.(silentUntil := after.silentUntil)
            && forall at :: at >= l.now ==>
                 Pending(after.silentUntil, at) == (Pending(d.silentUntil, at) || Silences(c, [l], 0, at))
  {
    hide AllRecent, Stale;
    StaleMeansNotRecent(c, l);
    SameStaleness(c, d, l);
  }

  lemma SameStaleness(c: Circuit, d: Circuit, l: Look)
    requires d == c.(silentUntil := d.silentUntil)
    ensures Stale(c, l.bats, l.cfg, l.gridAt, l.now) == Stale(d, l.bats, l.cfg, l.gridAt, l.now)
  {
  }

  /** Main result: after any run of ticks from start-up, through any change of
      configuration, a circuit is silent at a later instant exactly when some
      tick in Pulse mode less than GROUP_SILENT_AFTER_STALE_S before found the
      grid reading or a member's plug reading missing or too old. */
  lemma {:induction false} SilentIffStaleLately(c: Circuit, looks: seq<Look>, at: Time)
    requires c.silentUntil.None? && InOrder(looks)
    requires looks != [] ==> looks[|looks| - 1].now <= at
    ensures var after := CircuitAfter(c, looks);
            && after == c.(silentUntil := after.silentUntil)
            && (Pending(after.silentUntil, at) <==> exists i :: Silences(c, looks, i, at))
    decreases |looks|
  {
    hide AllRecent, MuteOne;
    if looks != [] {
      var n := |looks| - 1;
      SilentIffStaleLately(c, looks[..n], at);
      LastLook(c, CircuitAfter(c, looks[..n]), looks[n]);
      assert Silences(c, looks, n, at) <==> Silences(c, [looks[n]], 0, at);
      assert forall i :: 0 <= i < n ==> (Silences(c, looks, i, at) <==> Silences(c, looks[..n], i, at));
      if i :| Silences(c, looks[..n], i, at) {
        assert Silences(c, looks, i, at);
      }
    }
  }

  /** The mute of every circuit at once is the mute of each. */
  lemma MutedIffStaleNow(circuits: Circuits, bats: Batteries, cfg: DispatcherConfig, gridAt: Option<Time>, now: Time,
                         c: Id)
    requires c in circuits && cfg.mode == Pulse
    ensures Muted(MuteAll(circuits, bats, cfg, gridAt, now), c, now)
       <==> Muted(circuits, c, now) || !AllRecent(circuits[c], Look(now, bats, gridAt, cfg))
  {
    hide AllRecent, MuteOne;
    LastLook(circuits[c], circuits[c], Look(now, bats, gridAt, cfg));
  }
}
