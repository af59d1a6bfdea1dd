/** Which tasks later sweeps find again: those that were reset but not announced, and those that nobody has handled. */
module Visibility {
  import opened Tasks
  import opened Repository
  import opened Batches
  import opened Messages
  import opened Pipeline
  import opened Runs
  import opened OwnershipLimits

  /** Rows that a sweep saw in `processing` were created before the timeout, and the table still says when. */
  ghost predicate SweepsOld(cfg: Config, w: World) {
    && (forall k :: k in w.sweeps && w.sweeps[k].rest != [] && w.sweeps[k].stage == Reset ==>
          w.sweeps[k].rest[0].status == Processing)
    && (forall k, t :: k in w.sweeps && t in w.sweeps[k].rest && t.status == Processing ==>
          && t.id in w.s.issued && t.createdAt < w.now - cfg.processingTimeout
          && (t.id in w.s.rows ==> w.s.rows[t.id].createdAt == t.createdAt))
  }

  /** The sweeps of `w'` have no rows but those they had. */
  ghost predicate SweepsOf(w: World, w': World) {
    forall k :: k in w'.sweeps ==>
      && k in w.sweeps
      && (forall t :: t in w'.sweeps[k].rest ==> t in w.sweeps[k].rest)
      && (w'.sweeps[k].rest != [] && w'.sweeps[k].stage == Reset ==>
            w'.sweeps[k] == w.sweeps[k] || w'.sweeps[k].rest[0].status == Processing)
  }

  lemma OldStays(cfg: Config, w: World, l: Label, w': World)
    requires SweepsOld(cfg, w) && SweepsOf(w, w') && TableRewritten(w, l, w') && Keyed(w.s.rows) && w.now <= w'.now
    ensures SweepsOld(cfg, w')
  {
  }

  lemma SnapshotOld(cfg: Config, w: World, l: Label)
    requires l.Snapshot? && Enabled(cfg, w, l) && Sound(w) && SweepsOld(cfg, w)
    ensures SweepsOld(cfg, Next(cfg, w, l))
  {
  }

  lemma SweepRows(cfg: Config, w: World, l: Label)
    requires Enabled(cfg, w, l) && SweepLabel(l) && !l.Snapshot?
    ensures SweepsOf(w, SweepNext(cfg, w, l))
  {
  }

  lemma OtherRows(cfg: Config, w: World, l: Label)
    requires Enabled(cfg, w, l) && !l.Snapshot?
    ensures SweepsOf(w, Next(cfg, w, l)) && w.now <= Next(cfg, w, l).now
  {
    if SweepLabel(l) {
      SweepRows(cfg, w, l);
    } else {
      assert Next(cfg, w, l).sweeps == w.sweeps;
    }
  }

  lemma {:induction false} RunOld(cfg: Config, w: World, run: seq<Label>)
    requires Legal(cfg, w, run) && Sound(w) && SweepsOld(cfg, w)
    ensures SweepsOld(cfg, After(cfg, w, run))
    decreases run
  {
    if run != [] {
      StepSound(cfg, w, run[0]);
      if run[0].Snapshot? {
        SnapshotOld(cfg, w, run[0]);
      } else {
        OtherRows(cfg, w, run[0]);
        StepRewrites(cfg, w, run[0]);
        OldStays(cfg, w, run[0], Next(cfg, w, run[0]));
      }
      RunOld(cfg, Next(cfg, w, run[0]), run[1..]);
    }
  }

  lemma ReachableOld(cfg: Config, w: World)
    requires Reachable(cfg, w)
    ensures SweepsOld(cfg, w)
  {
    var run :| Legal(cfg, EMPTY, run) && Within(cfg, AnyStep, EMPTY, run) && After(cfg, EMPTY, run) == w;
    RunOld(cfg, EMPTY, run);
  }

  // ----- A reset whose publish fails -----

  /** Sweep `k` is about to reset the row of a live task. */
  predicate AboutToReset(w: World, k: nat) {
    RowAt(w, k, Reset) && Row(w, k).id in w.s.rows
  }

  /**
   * Sweep `k` resets its row in `w`, the run goes on from there on the system's own messages, the row is still pending,
   * and a snapshot that reads the clock at `at`, no earlier than `d` after the reset, does not have it among its stale
   * rows.
   */
  ghost predicate Hidden(cfg: Config, w: World, k: nat, run: seq<Label>, at: Time, d: nat) {
    && AboutToReset(w, k)
    && var v := Next(cfg, w, ResetRow(k, Ok("")));
       && Legal(cfg, v, run) && Within(cfg, Wired, v, run)
       && var w', id := After(cfg, v, run), Row(w, k).id;
          && Claimable(w'.s.rows, id) && w.now + d <= at <= w'.now
          && id !in StaleIds(w'.s.rows, at - cfg.pendingGrace, at - cfg.processingTimeout)
  }

  lemma ResetSeen(cfg: Config, w: World, k: nat, run: seq<Label>, at: Time, d: nat)
    requires Reachable(cfg, w) && cfg.pendingGrace <= cfg.processingTimeout + d && AboutToReset(w, k)
    requires Legal(cfg, Next(cfg, w, ResetRow(k, Ok(""))), run) && w.now + d <= at
    requires Claimable(After(cfg, Next(cfg, w, ResetRow(k, Ok(""))), run).s.rows, Row(w, k).id)
    ensures var rows := After(cfg, Next(cfg, w, ResetRow(k, Ok(""))), run).s.rows;
            Row(w, k).id in StaleIds(rows, at - cfg.pendingGrace, at - cfg.processingTimeout)
  {
    var l := ResetRow(k, Ok(""));
    ReachableSound(cfg, w);
    ReachableOld(cfg, w);
    assert Row(w, k) in w.sweeps[k].rest;
    StepSound(cfg, w, l);
    CreatedKept(cfg, Next(cfg, w, l), run, Row(w, k).id);
  }

  lemma NotHidden(cfg: Config, w: World, k: nat, run: seq<Label>, at: Time, d: nat)
    requires Reachable(cfg, w) && cfg.pendingGrace <= cfg.processingTimeout + d
    ensures !Hidden(cfg, w, k, run, at, d)
  {
    if Hidden(cfg, w, k, run, at, d) {
      ResetSeen(cfg, w, k, run, at, d);
    }
  }

  /** Task 0 is claimed at once and its worker dies; the sweep is about to reset it, just after the timeout. */
  lemma DeadClaim(cfg: Config) returns (w: World)
    requires Configured(cfg) && cfg.replicas >= 1
    ensures Deployed(cfg, w) && AboutToReset(w, 0) && w.now == cfg.processingTimeout + 1
    ensures w.sweeps[0].rest == [Row(w, 0)] && Row(w, 0).id == 0 && w.s.rows == map[0 := Row(w, 0)]
    ensures w.s.rows[0].createdAt == 0
  {
    var v, t := StaleClaim(cfg, Wired);
    w := Looks(cfg, Wired, v, 0, t);
  }

  lemma LosesIt(cfg: Config, v: World, w: World) returns (w': World)
    requires Leads(cfg, Wired, v, w) && RowAt(w, 0, Clear) && |w.sweeps[0].rest| == 1
    ensures Leads(cfg, Wired, v, w') && 0 in w'.sweeps && w'.now == w.now && w'.s.rows == w.s.rows
  {
    w' := TakeClear(cfg, Wired, v, w, 0);
    w' := TakeSend(cfg, Wired, v, w', 0, "", Lost);
  }

  /** The reset succeeds, the publish is lost, the sweep ends, and `d` goes by. */
  lemma LostAfterReset(cfg: Config, w: World, d: nat) returns (run: seq<Label>)
    requires AboutToReset(w, 0) && w.sweeps[0].rest == [Row(w, 0)]
    ensures var v := Next(cfg, w, ResetRow(0, Ok("")));
            && Legal(cfg, v, run) && Within(cfg, Wired, v, run) && After(cfg, v, run).now == w.now + d
            && After(cfg, v, run).s.rows == StatusWritten(w.s.rows, Row(w, 0).id, Pending, "", w.now)
  {
    var v := Next(cfg, w, ResetRow(0, Ok("")));
    Stay(cfg, Wired, v);
    var w1 := LosesIt(cfg, v, v);
    var w2 := Take(cfg, Wired, v, w1, StopSweep(0));
    var w3 := Take(cfg, Wired, v, w2, Tick(d));
    run :| Legal(cfg, v, run) && Within(cfg, Wired, v, run) && After(cfg, v, run) == w3;
  }

  /**
   * A reset is never hidden from the sweeps that look `d` or more after it, in any run, if and only if the pending
   * grace is at most `d` longer than the processing timeout. Nothing in the configuration checks this.
   */
  lemma ResetsVisibleIff(cfg: Config, d: nat)
    requires Configured(cfg) && cfg.replicas >= 1
    ensures (forall w, k, run, at :: Deployed(cfg, w) ==> !Hidden(cfg, w, k, run, at, d))
       <==> cfg.pendingGrace <= cfg.processingTimeout + d
  {
    if cfg.pendingGrace <= cfg.processingTimeout + d {
      forall w, k, run, at | Deployed(cfg, w) ensures !Hidden(cfg, w, k, run, at, d) {
        ScopeReachable(cfg, Wired, w);
        NotHidden(cfg, w, k, run, at, d);
      }
    } else {
      var w := DeadClaim(cfg);
      var run := LostAfterReset(cfg, w, d);
      assert Hidden(cfg, w, 0, run, w.now + d, d);
    }
  }

  // ----- Pending rows that nobody has handled -----

  /**
   * Republishing does not change the creation time: once a pending row is stale, every later sweep that has room for it
   * picks it again for as long as it is pending.
   */
  lemma PickedAgain(cfg: Config, w: World, run: seq<Label>, l: Label, since: Time, id: TaskId)
    requires Reachable(cfg, w) && id in w.s.rows && w.s.rows[id].createdAt < since - cfg.pendingGrace
    requires Legal(cfg, w, run) && Claimable(After(cfg, w, run).s.rows, id)
    requires l.Snapshot? && since <= l.at && Enabled(cfg, After(cfg, w, run), l)
    requires var rows := After(cfg, w, run).s.rows;
             var stale := StaleIds(rows, l.at - cfg.pendingGrace, l.at - cfg.processingTimeout);
             |NoYounger(rows, stale, id)| < cfg.batchSize
    ensures After(cfg, w, run).s.rows[id] in l.picked
  {
    ReachableSound(cfg, w);
    CreatedKept(cfg, w, run, id);
    RunSound(cfg, w, run);
    var rows := After(cfg, w, run).s.rows;
    AlwaysPickedIff(rows, StaleIds(rows, l.at - cfg.pendingGrace, l.at - cfg.processingTimeout), cfg.batchSize, id);
  }
}
