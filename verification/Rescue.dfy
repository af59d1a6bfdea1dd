/** No task is stranded: how long a stale task can be passed over, and that every reachable state has a way out. */
module Rescue {
  import opened Tasks
  import opened Repository
  import opened Batches
  import opened Messages
  import opened Summarizer
  import opened Pipeline
  import opened Runs
  import opened Ownership
  import opened Rounds

  // ----- The tasks ahead of a task -----

  /** The other live unfinished tasks created no later than task `id`. */
  function Older(w: World, id: TaskId): set<TaskId>
    requires id in w.s.rows
  {
    set o | o in w.s.rows && o != id && Unfinished(w.s.rows[o]) && w.s.rows[o].createdAt <= w.s.rows[id].createdAt
  }

  lemma RewrittenOlder(w: World, l: Label, w': World, id: TaskId)
    requires TableRewritten(w, l, w') && !Undoes(w, w')
    requires id in w.s.rows && id in w'.s.rows && w.s.rows[id].createdAt < w.now
    ensures w'.s.rows[id].createdAt == w.s.rows[id].createdAt && Older(w', id) <= Older(w, id)
  {
    forall o | o in Older(w', id) ensures o in Older(w, id) {
      assert Waiting(w', o);
      assert o in w.s.rows ==> Waiting(w, o);
    }
  }

  lemma StepOlder(cfg: Config, w: World, l: Label, id: TaskId)
    requires Enabled(cfg, w, l) && Sound(w) && !Undoes(w, Next(cfg, w, l))
    requires id in w.s.rows && id in Next(cfg, w, l).s.rows && w.s.rows[id].createdAt < w.now
    ensures var w' := Next(cfg, w, l);
            && w'.s.rows[id].createdAt == w.s.rows[id].createdAt && w.now <= w'.now
            && Older(w', id) <= Older(w, id)
  {
    StepRewrites(cfg, w, l);
    RewrittenOlder(w, l, Next(cfg, w, l), id);
  }

  /** While nothing finished is undone, nobody joins those ahead of a task that already exists. */
  lemma {:induction false} OlderShrinks(cfg: Config, w: World, run: seq<Label>, id: TaskId)
    requires Legal(cfg, w, run) && NeverUndone(cfg, w, run) && Sound(w)
    requires id in w.s.rows && w.s.rows[id].createdAt < w.now && id in After(cfg, w, run).s.rows
    ensures var w' := After(cfg, w, run);
            && w'.s.rows[id].createdAt == w.s.rows[id].createdAt && w.now <= w'.now
            && Older(w', id) <= Older(w, id)
    decreases run
  {
    if run != [] {
      var w' := Next(cfg, w, run[0]);
      StepSound(cfg, w, run[0]);
      if id !in w'.s.rows {
        StepRewrites(cfg, w, run[0]);
        GoneForGood(cfg, w', run[1..], id);
        assert false;
      }
      StepOlder(cfg, w, run[0], id);
      OlderShrinks(cfg, w', run[1..], id);
    }
  }

  /** A finished or deleted task stays so. */
  lemma {:induction false} StaysFinished(cfg: Config, w: World, run: seq<Label>, id: TaskId)
    requires Legal(cfg, w, run) && NeverUndone(cfg, w, run) && Sound(w) && Done(w, id)
    ensures Done(After(cfg, w, run), id)
    decreases run
  {
    if run != [] {
      StepSound(cfg, w, run[0]);
      StepRewrites(cfg, w, run[0]);
      StaysFinished(cfg, Next(cfg, w, run[0]), run[1..], id);
    }
  }

  // ----- Healthy rounds, one after another -----

  /** A healthy round, and whatever happens until the next one. */
  datatype Cycle = Cycle(round: seq<Label>, pause: seq<Label>)

  /** The sweep of the round looks while task `id` is stale. */
  predicate FindsStale(cfg: Config, w: World, round: seq<Label>, id: TaskId)
    requires round != [] && round[0].Snapshot? && id in w.s.rows
  {
    Stale(w.s.rows[id], round[0].at - cfg.pendingGrace, round[0].at - cfg.processingTimeout)
  }

  ghost predicate LegalCycle(cfg: Config, w: World, c: Cycle) {
    Round(cfg, w, c.round) && Legal(cfg, After(cfg, w, c.round), c.pause)
  }

  ghost function AfterCycle(cfg: Config, w: World, c: Cycle): World
    requires LegalCycle(cfg, w, c)
  {
    After(cfg, After(cfg, w, c.round), c.pause)
  }

  /** Nothing finished is undone in the cycle. */
  ghost predicate KeepsFinished(cfg: Config, w: World, c: Cycle)
    requires LegalCycle(cfg, w, c)
  {
    NeverUndone(cfg, w, c.round) && NeverUndone(cfg, After(cfg, w, c.round), c.pause)
  }

  /** Cycles one after another, each long enough after the last for a task `id` still waiting to be stale. */
  ghost predicate Cycles(cfg: Config, w: World, cycles: seq<Cycle>, id: TaskId)
    decreases cycles
  {
    cycles != [] ==>
      && LegalCycle(cfg, w, cycles[0])
      && (Waiting(w, id) ==> FindsStale(cfg, w, cycles[0].round, id))
      && Cycles(cfg, AfterCycle(cfg, w, cycles[0]), cycles[1..], id)
  }

  ghost predicate AllKeepFinished(cfg: Config, w: World, cycles: seq<Cycle>, id: TaskId)
    requires Cycles(cfg, w, cycles, id)
    decreases cycles
  {
    cycles != [] ==>
      && KeepsFinished(cfg, w, cycles[0])
      && AllKeepFinished(cfg, AfterCycle(cfg, w, cycles[0]), cycles[1..], id)
  }

  ghost function AfterCycles(cfg: Config, w: World, cycles: seq<Cycle>, id: TaskId): World
    requires Cycles(cfg, w, cycles, id)
    decreases cycles
  {
    if cycles == [] then w else AfterCycles(cfg, AfterCycle(cfg, w, cycles[0]), cycles[1..], id)
  }

  lemma BatchServed(w: World, w': World, picked: seq<Task>, id: TaskId)
    requires Keyed(w.s.rows) && id in w.s.rows && id in w'.s.rows && Older(w', id) <= Older(w, id)
    requires DistinctIds(picked) && w.s.rows[id] !in picked
    requires forall u :: u in picked ==>
               && u.id in w.s.rows && w.s.rows[u.id] == u && Unfinished(u) && u.createdAt <= w.s.rows[id].createdAt
               && !Waiting(w', u.id)
    ensures |Older(w', id)| + |picked| <= |Older(w, id)|
  {
    IdCount(picked);
    forall o | o in Ids(picked) ensures o in Older(w, id) && o !in Older(w', id) {
      var u :| u in picked && u.id == o;
    }
    SubsetSize(Older(w', id) + Ids(picked), Older(w, id));
    assert Older(w', id) !! Ids(picked);
  }

  /** A round that passes a stale task over serves a full batch of those ahead of it. */
  lemma RoundServes(cfg: Config, w: World, round: seq<Label>, id: TaskId)
    requires Configured(cfg) && Reachable(cfg, w) && Round(cfg, w, round) && NeverUndone(cfg, w, round)
    requires id in w.s.rows && id in After(cfg, w, round).s.rows
    requires FindsStale(cfg, w, round, id) && w.s.rows[id] !in round[0].picked
    ensures |Older(After(cfg, w, round), id)| + cfg.batchSize <= |Older(w, id)|
  {
    ReachableSound(cfg, w);
    var picked, t := round[0].picked, w.s.rows[id];
    assert Enabled(cfg, w, round[0]) && t.createdAt < w.now;
    OlderShrinks(cfg, w, round, id);
    FullOfOlder(cfg, w, round[0], id);
    forall u | u in picked ensures !Waiting(After(cfg, w, round), u.id) {
      RoundFinishes(cfg, w, round, u);
    }
    BatchServed(w, After(cfg, w, round), picked, id);
  }

  lemma FullOfOlder(cfg: Config, w: World, l: Label, id: TaskId)
    requires Keyed(w.s.rows) && l.Snapshot? && Enabled(cfg, w, l) && id in w.s.rows && w.s.rows[id] !in l.picked
    requires Stale(w.s.rows[id], l.at - cfg.pendingGrace, l.at - cfg.processingTimeout)
    ensures |l.picked| == cfg.batchSize && DistinctIds(l.picked)
    ensures forall u :: u in l.picked ==>
              u.id in w.s.rows && w.s.rows[u.id] == u && Unfinished(u) && u.createdAt <= w.s.rows[id].createdAt
  {
    assert id in StaleIds(w.s.rows, l.at - cfg.pendingGrace, l.at - cfg.processingTimeout);
  }

  // ----- Rescue in bounded time -----

  /** Fewer than `n` full batches are ahead of task `id`, or it is done. */
  predicate DoneWithin(cfg: Config, w: World, n: nat, id: TaskId) {
    Waiting(w, id) ==> cfg.batchSize > 0 && |Older(w, id)| / cfg.batchSize < n
  }

  lemma Quotient(n: nat, r: nat, b: nat)
    requires 0 < b && n * b <= r
    ensures n <= r / b
  {
    Product(r / b + 1, n, b);
    assert r < (r / b + 1) * b;
  }

  lemma Product(x: nat, y: nat, b: nat)
    ensures x <= y ==> x * b <= y * b
  {
  }

  lemma OneBatchLess(older: nat, before: nat, b: nat)
    requires 0 < b && older + b <= before
    ensures older / b < before / b
  {
    Quotient(older / b + 1, before, b);
  }

  lemma Monotone(older: nat, before: nat, b: nat)
    requires 0 < b && older <= before
    ensures older / b <= before / b
  {
    Quotient(older / b, before, b);
  }

  /** A round picks the task, and finishes it, or serves a full batch ahead of it. */
  lemma RoundAdvances(cfg: Config, w: World, round: seq<Label>, id: TaskId, n: nat)
    requires Configured(cfg) && Reachable(cfg, w) && Round(cfg, w, round) && NeverUndone(cfg, w, round)
    requires id in w.s.issued && (Waiting(w, id) ==> FindsStale(cfg, w, round, id)) && DoneWithin(cfg, w, n + 1, id)
    ensures DoneWithin(cfg, After(cfg, w, round), n, id)
  {
    var w' := After(cfg, w, round);
    ReachableSound(cfg, w);
    if Waiting(w', id) {
      if !Waiting(w, id) {
        StaysFinished(cfg, w, round, id);
        assert false;
      }
      if w.s.rows[id] in round[0].picked {
        RoundFinishes(cfg, w, round, w.s.rows[id]);
        assert false;
      }
      RoundServes(cfg, w, round, id);
      OneBatchLess(|Older(w', id)|, |Older(w, id)|, cfg.batchSize);
    }
  }

  /** A pause puts nobody ahead of a task that was there before it. */
  lemma PauseKeeps(cfg: Config, w: World, pause: seq<Label>, id: TaskId, n: nat)
    requires Configured(cfg) && Sound(w) && Legal(cfg, w, pause) && NeverUndone(cfg, w, pause)
    requires id in w.s.issued && (Waiting(w, id) ==> w.s.rows[id].createdAt < w.now) && DoneWithin(cfg, w, n, id)
    ensures DoneWithin(cfg, After(cfg, w, pause), n, id)
  {
    var w' := After(cfg, w, pause);
    if Waiting(w', id) {
      if !Waiting(w, id) {
        StaysFinished(cfg, w, pause, id);
        assert false;
      }
      OlderShrinks(cfg, w, pause, id);
      SubsetSize(Older(w', id), Older(w, id));
      Monotone(|Older(w', id)|, |Older(w, id)|, cfg.batchSize);
    }
  }

  /** A task found stale by a round was created before the round is over. */
  lemma OldByThen(cfg: Config, w: World, round: seq<Label>, id: TaskId)
    requires Configured(cfg) && Reachable(cfg, w) && Round(cfg, w, round) && NeverUndone(cfg, w, round)
    requires id in w.s.issued && (Waiting(w, id) ==> FindsStale(cfg, w, round, id))
    ensures var w' := After(cfg, w, round); Waiting(w', id) ==> w'.s.rows[id].createdAt < w'.now
  {
    ReachableSound(cfg, w);
    var w' := After(cfg, w, round);
    if Waiting(w', id) {
      if !Waiting(w, id) {
        StaysFinished(cfg, w, round, id);
        assert false;
      }
      assert Enabled(cfg, w, round[0]) && w.s.rows[id].createdAt < w.now;
      OlderShrinks(cfg, w, round, id);
    }
  }

  lemma CycleAdvances(cfg: Config, w: World, c: Cycle, id: TaskId, n: nat)
    requires Configured(cfg) && Reachable(cfg, w) && LegalCycle(cfg, w, c) && KeepsFinished(cfg, w, c)
    requires id in w.s.issued && (Waiting(w, id) ==> FindsStale(cfg, w, c.round, id)) && DoneWithin(cfg, w, n + 1, id)
    ensures var w' := AfterCycle(cfg, w, c); Reachable(cfg, w') && id in w'.s.issued && DoneWithin(cfg, w', n, id)
  {
    var v := After(cfg, w, c.round);
    RoundAdvances(cfg, w, c.round, id, n);
    OldByThen(cfg, w, c.round, id);
    StillReachable(cfg, w, c.round);
    StillReachable(cfg, v, c.pause);
    ReachableSound(cfg, w);
    ReachableSound(cfg, v);
    IssuedGrows(cfg, w, c.round);
    IssuedGrows(cfg, v, c.pause);
    PauseKeeps(cfg, v, c.pause, id, n);
  }

  lemma {:induction false} CyclesFinish(cfg: Config, w: World, cycles: seq<Cycle>, id: TaskId)
    requires Configured(cfg) && Reachable(cfg, w) && Cycles(cfg, w, cycles, id) && AllKeepFinished(cfg, w, cycles, id)
    requires id in w.s.issued && DoneWithin(cfg, w, |cycles|, id)
    ensures var w' := AfterCycles(cfg, w, cycles, id); Reachable(cfg, w') && !Waiting(w', id)
    decreases cycles
  {
    if cycles != [] {
      CycleAdvances(cfg, w, cycles[0], id, |cycles| - 1);
      CyclesFinish(cfg, AfterCycle(cfg, w, cycles[0]), cycles[1..], id);
    }
  }

  /**
   * Rescue in bounded time, in any configuration: after floor(R / BatchSize) + 1 healthy rounds a live task, whatever
   * state it was left in, is completed, unless it was deleted. Between the rounds anything may fail; the one thing that
   * must not happen is that finished work is undone.
   */
  lemma RescuedWithin(cfg: Config, w: World, cycles: seq<Cycle>, id: TaskId)
    requires Configured(cfg) && Reachable(cfg, w) && id in w.s.rows
    requires Cycles(cfg, w, cycles, id) && AllKeepFinished(cfg, w, cycles, id)
    requires |cycles| > |Older(w, id)| / cfg.batchSize
    ensures var w' := AfterCycles(cfg, w, cycles, id); id in w'.s.rows ==> w'.s.rows[id].status == Completed
  {
    ReachableSound(cfg, w);
    CyclesFinish(cfg, w, cycles, id);
    ReachableSound(cfg, AfterCycles(cfg, w, cycles, id));
  }

  /** With one reconciler and a timeout that outlasts a handler nothing finished is ever undone. */
  lemma {:induction false} GuardedKeeps(cfg: Config, w: World, run: seq<Label>)
    requires Guarded(cfg) && Inv(w) && Legal(cfg, w, run)
    ensures NeverUndone(cfg, w, run)
    decreases run
  {
    if run != [] {
      StepKeeps(cfg, w, run[0]);
      GuardedKeeps(cfg, Next(cfg, w, run[0]), run[1..]);
    }
  }

  /** Healthy rounds that undo nothing do lie ahead, for as full a batch as there is work, and finish all of it. */
  lemma RescueAhead(cfg: Config, v: World, k: nat) returns (w: World, round: seq<Label>)
    requires Configured(cfg) && Guarded(cfg) && Reachable(cfg, v) && k < cfg.replicas && k !in v.sweeps
    ensures Reachable(cfg, w) && w.s == v.s && Round(cfg, w, round) && NeverUndone(cfg, w, round)
    ensures var n := |WaitingIds(v)|; |round[0].picked| == if n < cfg.batchSize then n else cfg.batchSize
    ensures forall t :: t in round[0].picked ==> !Waiting(After(cfg, w, round), t.id)
  {
    w, round := RoundAhead(cfg, v, k);
    ReachableInv(cfg, w);
    GuardedKeeps(cfg, w, round);
    forall t | t in round[0].picked ensures !Waiting(After(cfg, w, round), t.id) {
      RoundFinishes(cfg, w, round, t);
    }
  }

  lemma {:induction false} GuardedKeepsAll(cfg: Config, w: World, cycles: seq<Cycle>, id: TaskId)
    requires Guarded(cfg) && Inv(w) && Cycles(cfg, w, cycles, id)
    ensures AllKeepFinished(cfg, w, cycles, id)
    decreases cycles
  {
    if cycles != [] {
      var v := After(cfg, w, cycles[0].round);
      GuardedKeeps(cfg, w, cycles[0].round);
      RunKeeps(cfg, w, cycles[0].round);
      GuardedKeeps(cfg, v, cycles[0].pause);
      RunKeeps(cfg, v, cycles[0].pause);
      GuardedKeepsAll(cfg, AfterCycle(cfg, w, cycles[0]), cycles[1..], id);
    }
  }

  /** So there the bound holds outright. */
  lemma RescuedWhenGuarded(cfg: Config, w: World, cycles: seq<Cycle>, id: TaskId)
    requires Configured(cfg) && Guarded(cfg) && Reachable(cfg, w) && id in w.s.rows && Cycles(cfg, w, cycles, id)
    requires |cycles| > |Older(w, id)| / cfg.batchSize
    ensures var w' := AfterCycles(cfg, w, cycles, id); id in w'.s.rows ==> w'.s.rows[id].status == Completed
  {
    ReachableInv(cfg, w);
    GuardedKeepsAll(cfg, w, cycles, id);
    RescuedWithin(cfg, w, cycles, id);
  }

  /** Cycle after cycle, task `id` is stale when the sweep looks and is not picked, and it stays live. */
  ghost predicate PassedOver(cfg: Config, w: World, cycles: seq<Cycle>, id: TaskId)
    requires Cycles(cfg, w, cycles, id)
    decreases cycles
  {
    cycles != [] ==>
      && Waiting(w, id) && w.s.rows[id] !in cycles[0].round[0].picked
      && id in AfterCycle(cfg, w, cycles[0]).s.rows
      && PassedOver(cfg, AfterCycle(cfg, w, cycles[0]), cycles[1..], id)
  }

  /** With R older unfinished tasks, at most floor(R / BatchSize) healthy rounds pass a stale task over. */
  lemma {:induction false} PassedOverBounded(cfg: Config, w: World, cycles: seq<Cycle>, id: TaskId)
    requires Configured(cfg) && Reachable(cfg, w) && id in w.s.rows
    requires Cycles(cfg, w, cycles, id) && AllKeepFinished(cfg, w, cycles, id) && PassedOver(cfg, w, cycles, id)
    ensures |cycles| <= |Older(w, id)| / cfg.batchSize
    decreases cycles
  {
    if cycles != [] {
      var w' := AfterCycle(cfg, w, cycles[0]);
      CyclePassesOver(cfg, w, cycles[0], id);
      PassedOverBounded(cfg, w', cycles[1..], id);
      OneBatchLess(|Older(w', id)|, |Older(w, id)|, cfg.batchSize);
    }
  }

  lemma CyclePassesOver(cfg: Config, w: World, c: Cycle, id: TaskId)
    requires Configured(cfg) && Reachable(cfg, w) && LegalCycle(cfg, w, c) && KeepsFinished(cfg, w, c)
    requires Waiting(w, id) && FindsStale(cfg, w, c.round, id) && w.s.rows[id] !in c.round[0].picked
    requires id in AfterCycle(cfg, w, c).s.rows
    ensures var w' := AfterCycle(cfg, w, c);
            Reachable(cfg, w') && |Older(w', id)| + cfg.batchSize <= |Older(w, id)|
  {
    var v := After(cfg, w, c.round);
    StillReachable(cfg, w, c.round);
    StillReachable(cfg, v, c.pause);
    ReachableSound(cfg, w);
    ReachableSound(cfg, v);
    IssuedGrows(cfg, w, c.round);
    if id !in v.s.rows {
      GoneForGood(cfg, v, c.pause, id);
      assert false;
    }
    RoundServes(cfg, w, c.round, id);
    OlderShrinks(cfg, w, c.round, id);
    assert Enabled(cfg, w, c.round[0]) && w.s.rows[id].createdAt < w.now;
    OlderShrinks(cfg, v, c.pause, id);
    SubsetSize(Older(AfterCycle(cfg, w, c), id), Older(v, id));
  }

  // ----- Every reachable state has a way out -----

  /** A new message about a pending task reaches a new worker whose calls all succeed: the task is completed. */
  lemma WorkerCompletes(cfg: Config, v: World, w: World, m: Message, j: nat) returns (w': World)
    requires Leads(cfg, Routine, v, w) && m in w.work && m.body.content.Created?
             && Claimable(w.s.rows, m.body.content.taskId)
    requires m.body.eventId != "" && m.body.eventId !in w.s.markers && j !in w.jobs
    ensures Leads(cfg, Routine, v, w') && w'.sweeps == w.sweeps
    ensures var id := m.body.content.taskId;
            && id in w'.s.rows && w'.s.rows[id].status == Completed
            && w'.s.rows - {id} == w.s.rows - {id}
  {
    var id := m.body.content.taskId;
    var w1 := NewWorkerClaims(cfg, Routine, v, w, j, m);
    assert w1.s.rows == StatusWritten(w.s.rows, id, Processing, "", w.now) && w1.now < w1.jobs[j].deadline;
    assert w1.s.rows - {id} == w.s.rows - {id};
    w' := OwnerCompletes(cfg, v, w1, j, id);
  }

  /** A worker that has just claimed its task completes it. */
  lemma OwnerCompletes(cfg: Config, v: World, w: World, j: nat, id: TaskId) returns (w': World)
    requires Leads(cfg, Routine, v, w) && InHandler(w, j) && w.jobs[j].stage.phase == Claimed(id)
    requires id in w.s.rows && w.now < w.jobs[j].deadline
    ensures Leads(cfg, Routine, v, w') && w'.sweeps == w.sweeps
    ensures id in w'.s.rows && w'.s.rows[id].status == Completed && w'.s.rows - {id} == w.s.rows - {id}
  {
    var w2 := GoesAsking(cfg, Routine, v, w, j, id);
    var w3 := HearsBack(cfg, Routine, v, w2, j, id, Ok("summary"));
    w' := RecordsAnswer(cfg, Routine, v, w3, j, id, "summary");
    assert w3.s.rows == w.s.rows;
    OthersWritten(w.s.rows, id, "summary", w3.now);
  }

  lemma OthersWritten(rows: Rows, id: TaskId, text: string, now: Time)
    requires id in rows
    ensures StatusWritten(rows, id, Completed, text, now) - {id} == rows - {id}
  {
  }

  /** A sweep about to handle `t`, a row as the table holds it. */
  predicate SweepsRow(w: World, t: Task) {
    && 0 in w.sweeps && w.sweeps[0].rest != [] && w.sweeps[0].rest[0] == t
    && w.sweeps[0].stage == FirstStage(w.sweeps[0].rest)
    && t.id in w.s.rows && w.s.rows[t.id] == t && Unfinished(t)
  }

  /** A row seen in `processing` is reset first. */
  lemma SweepResets(cfg: Config, v: World, w: World, t: Task) returns (w': World)
    requires Leads(cfg, Routine, v, w) && SweepsRow(w, t)
    ensures Leads(cfg, Routine, v, w') && w'.jobs == w.jobs && w'.s.markers == w.s.markers
    ensures RowAt(w', 0, Send) && Row(w', 0) == t && Claimable(w'.s.rows, t.id)
    ensures w'.s.rows - {t.id} == w.s.rows - {t.id}
  {
    w' := w;
    if t.status == Processing {
      w' := TakeReset(cfg, Routine, v, w, 0);
      w' := TakeClear(cfg, Routine, v, w', 0);
    }
  }

  /** Then the row is republished, in whichever unfinished status it was. */
  lemma SweepRepublishes(cfg: Config, v: World, w: World, t: Task, e: EventId) returns (w': World)
    requires Leads(cfg, Routine, v, w) && SweepsRow(w, t)
    ensures Leads(cfg, Routine, v, w') && 0 !in w'.sweeps && w'.jobs == w.jobs && w'.s.markers == w.s.markers
    ensures Announcement(e, t) in w'.work && Claimable(w'.s.rows, t.id)
    ensures w'.s.rows - {t.id} == w.s.rows - {t.id}
  {
    w' := SweepResets(cfg, v, w, t);
    w' := Take(cfg, Routine, v, w', SendRow(0, e, Confirmed));
    w' := Take(cfg, Routine, v, w', StopSweep(0));
  }

  /** Then a sweep looks, and the first row of its snapshot is an unfinished task as the table holds it. */
  lemma SweepLooks(cfg: Config, o: World, v: World) returns (w: World, t: Task)
    requires Configured(cfg) && cfg.replicas >= 1 && Sound(v) && Leads(cfg, Routine, o, v) && WaitingIds(v) != {}
    ensures Leads(cfg, Routine, o, w) && w.s == v.s && SweepsRow(w, t)
  {
    var u := v;
    if 0 in v.sweeps {
      u := Take(cfg, Routine, o, v, StopSweep(0));
    }
    u := TimePasses(cfg, Routine, o, u);
    w, t := SweepPicks(cfg, o, u);
  }

  lemma SweepPicks(cfg: Config, o: World, u: World) returns (w: World, t: Task)
    requires Configured(cfg) && cfg.replicas >= 1 && Keyed(u.s.rows) && Leads(cfg, Routine, o, u) && 0 !in u.sweeps
    requires StaleIds(u.s.rows, u.now - cfg.pendingGrace, u.now - cfg.processingTimeout) == WaitingIds(u) != {}
    ensures Leads(cfg, Routine, o, w) && w.s == u.s && SweepsRow(w, t)
  {
    var picked := SomePicked(cfg, u);
    w := TakeSnapshot(cfg, Routine, o, u, 0, picked);
    t := picked[0];
  }

  lemma SomePicked(cfg: Config, u: World) returns (picked: seq<Task>)
    requires Configured(cfg) && Keyed(u.s.rows)
    requires StaleIds(u.s.rows, u.now - cfg.pendingGrace, u.now - cfg.processingTimeout) == WaitingIds(u) != {}
    ensures StaleBatch(u.s.rows, u.now - cfg.pendingGrace, u.now - cfg.processingTimeout, cfg.batchSize, picked)
    ensures picked != [] && picked[0].id in u.s.rows && u.s.rows[picked[0].id] == picked[0] && Unfinished(picked[0])
  {
    picked := StaleBatchExists(u.s.rows, u.now - cfg.pendingGrace, u.now - cfg.processingTimeout, cfg.batchSize);
    SubsetSize({}, WaitingIds(u));
    assert picked[0] in picked;
  }

  /** Some unfinished task can be completed by the system's own steps, with every other row as it was. */
  lemma OneRescue(cfg: Config, o: World, v: World) returns (w: World, id: TaskId)
    requires Configured(cfg) && cfg.replicas >= 1 && Sound(v) && Leads(cfg, Routine, o, v) && WaitingIds(v) != {}
    ensures Leads(cfg, Routine, o, w)
    ensures id in WaitingIds(v) && WaitingIds(w) == WaitingIds(v) - {id}
    ensures id in w.s.rows && w.s.rows[id].status == Completed
  {
    var w1, t := SweepLooks(cfg, o, v);
    id := t.id;
    var e := FreshEvent(w1.s.markers);
    assert e !in w1.s.markers;
    var w2 := SweepRepublishes(cfg, o, w1, t, e);
    var j := FreshJob(w2.jobs.Keys);
    w := WorkerCompletes(cfg, o, w2, Announcement(e, t), j);
    Elsewhere(v, w, id);
  }

  lemma Elsewhere(v: World, w: World, id: TaskId)
    requires w.s.rows - {id} == v.s.rows - {id} && id in WaitingIds(v)
    requires id in w.s.rows && w.s.rows[id].status == Completed
    ensures WaitingIds(w) == WaitingIds(v) - {id}
  {
    forall x | x != id ensures (x in w.s.rows <==> x in v.s.rows) && (x in v.s.rows ==> w.s.rows[x] == v.s.rows[x]) {
      assert x in w.s.rows <==> x in w.s.rows - {id};
      assert x in v.s.rows - {id} ==> (w.s.rows - {id})[x] == (v.s.rows - {id})[x];
    }
  }

  lemma {:induction false} StillRescuable(cfg: Config, o: World, v: World, id: TaskId) returns (w: World)
    requires Configured(cfg) && cfg.replicas >= 1 && Sound(o) && Leads(cfg, Routine, o, v) && id in WaitingIds(v)
    ensures Leads(cfg, Routine, o, w) && id in w.s.rows && w.s.rows[id].status == Completed
    decreases |WaitingIds(v)|
  {
    LeadsSound(cfg, Routine, o, v);
    var done;
    w, done := OneRescue(cfg, o, v);
    if done != id {
      w := StillRescuable(cfg, o, w, id);
    }
  }

  /**
   * No task is stranded. Whatever crashes, lost messages, failed releases and lost keys led to a state, with a
   * reconciler deployed, each unfinished task in it can still be completed by sweeps, republished messages and
   * workers alone.
   */
  lemma NoTaskStranded(cfg: Config, v: World, id: TaskId) returns (w: World)
    requires Configured(cfg) && cfg.replicas >= 1 && Reachable(cfg, v) && id in WaitingIds(v)
    ensures Leads(cfg, Routine, v, w) && id in w.s.rows && w.s.rows[id].status == Completed
  {
    ReachableSound(cfg, v);
    Stay(cfg, Routine, v);
    w := StillRescuable(cfg, v, v, id);
  }
}
