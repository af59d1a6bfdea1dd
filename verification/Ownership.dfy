/**
 * Exclusive ownership and the task lifecycle. The invariant rests on the clock: a sweep takes a claim for dead only
 * when its handler's context has run out, and what a sweep has seen and not reset yet nobody else may touch.
 */
module Ownership {
  import opened Tasks
  import opened Repository
  import opened Summarizer
  import opened Consumers
  import opened Pipeline
  import opened Runs

  /** Job `j` has claimed task `id`, has not given it away, and can still write. */
  predicate LiveOwner(w: World, j: nat, id: TaskId) {
    && InHandler(w, j)
    && Owning(w.jobs[j].stage.phase)
    && w.jobs[j].stage.phase.id == id
    && w.now < w.jobs[j].deadline
  }

  ghost predicate Exclusive(w: World) {
    forall a, b, id :: LiveOwner(w, a, id) && LiveOwner(w, b, id) ==> a == b
  }

  /** An owner's row says `processing` since the claim, unless it was deleted. */
  ghost predicate OwnersRows(w: World) {
    forall j, id :: LiveOwner(w, j, id) ==>
      && id in w.s.issued
      && (id in w.s.rows ==> w.s.rows[id].status == Processing && w.s.rows[id].updatedAt == w.jobs[j].claimedAt)
  }

  /** Handlers' contexts end within the limit of their claim. */
  ghost predicate Deadlines(w: World) {
    forall j :: j in w.jobs ==>
      && w.jobs[j].deadline <= w.now + HANDLER_LIMIT
      && w.jobs[j].deadline <= w.jobs[j].claimedAt + HANDLER_LIMIT
  }

  /** The rows of sweep `k` that have not had their turn to be reset. */
  function ToReset(w: World, k: nat): seq<Task>
    requires k in w.sweeps
  {
    var v := w.sweeps[k];
    if v.rest == [] || v.stage == Reset then v.rest else v.rest[1..]
  }

  /** Sweep `k` saw `t` in `processing` and still has to reset it. */
  predicate Awaiting(w: World, k: nat, t: Task) {
    k in w.sweeps && t in ToReset(w, k) && t.status == Processing
  }

  /** Such a row is still as the sweep saw it, unless it was deleted, and nobody who owns it can write. */
  ghost predicate SnapshotsHold(w: World) {
    && (forall k, t :: Awaiting(w, k, t) ==>
          && t.id in w.s.issued
          && (t.id in w.s.rows ==> w.s.rows[t.id] == t)
          && forall j :: !LiveOwner(w, j, t.id))
    && (forall k :: k in w.sweeps ==> SnapshotShape(w.sweeps[k]))
  }

  ghost predicate SnapshotShape(v: Sweep) {
    DistinctIds(v.rest) && (v.rest != [] && v.stage == Reset ==> v.rest[0].status == Processing)
  }

  ghost predicate OneSweep(w: World) {
    forall k :: k in w.sweeps ==> k == 0
  }

  ghost predicate Inv(w: World) {
    && TableSound(w) && Deadlines(w) && OneSweep(w)
    && Exclusive(w) && OwnersRows(w) && SnapshotsHold(w)
  }

  /** One reconciler at most, and a processing timeout that outlasts a handler's context. */
  predicate Guarded(cfg: Config) {
    && cfg.replicas <= 1
    && (cfg.replicas == 1 ==> HANDLER_LIMIT <= cfg.processingTimeout + 1)
  }

  /** The documented lifecycle: claimed, put back after a transient failure, completed. */
  predicate LifecycleEdge(a: Status, b: Status) {
    (a == Pending && b == Processing) || (a == Processing && (b == Pending || b == Completed))
  }

  /** What a step may do to a row: nothing, or one edge of the lifecycle; only completion writes a summary. */
  predicate RowFollows(a: Task, b: Task) {
    || a == b
    || (LifecycleEdge(a.status, b.status)
        && b == a.(status := b.status, summary := b.summary, updatedAt := b.updatedAt)
        && a.updatedAt <= b.updatedAt
        && (b.status == Completed || b.summary == a.summary))
  }

  /** Rows change along the lifecycle only; new ones are pending, created now, under a key never used before. */
  ghost predicate Follows(w: World, w': World) {
    && w.s.issued <= w'.s.issued
    && (forall id :: id in w.s.rows && id in w'.s.rows ==> RowFollows(w.s.rows[id], w'.s.rows[id]))
    && (forall id :: id in w'.s.rows && id !in w.s.rows ==>
          id !in w.s.issued && w'.s.rows[id].status == Pending && w'.s.rows[id].createdAt == w.now)
  }

  // ----- Steps -----

  /** `w'` has no owners, no waiting snapshot rows and no jobs but those of `w`, and fresh deliveries. */
  ghost predicate NothingNew(w: World, w': World) {
    && (forall j :: j in w'.jobs ==>
          || (j in w.jobs && w'.jobs[j].deadline == w.jobs[j].deadline && w'.jobs[j].claimedAt == w.jobs[j].claimedAt)
          || (w'.jobs[j].deadline == w'.now + HANDLER_LIMIT && w'.jobs[j].claimedAt == w'.now))
    && (forall j, id :: LiveOwner(w', j, id) ==> LiveOwner(w, j, id) && w'.jobs[j].claimedAt == w.jobs[j].claimedAt)
    && (forall k, t :: Awaiting(w', k, t) ==> Awaiting(w, k, t))
    && (forall k :: k in w'.sweeps ==> k in w.sweeps && SnapshotShape(w'.sweeps[k]))
  }

  lemma SameJobs(w: World, w': World)
    requires w'.jobs == w.jobs && w'.sweeps == w.sweeps && w'.now >= w.now && SnapshotsHold(w)
    ensures NothingNew(w, w')
  {
    assert forall k, t :: Awaiting(w', k, t) <==> Awaiting(w, k, t);
  }

  ghost predicate SameOthers(a: map<nat, Job>, b: map<nat, Job>, j: nat) {
    forall o :: o != j ==> (o in a <==> o in b) && (o in a ==> a[o] == b[o])
  }

  predicate OldOrFresh(w: World, w': World, j: nat)
    requires j in w'.jobs
  {
    var now := w'.jobs[j];
    || (j in w.jobs && now.deadline == w.jobs[j].deadline && now.claimedAt == w.jobs[j].claimedAt
        && (now.stage == w.jobs[j].stage || !now.stage.Handling?))
    || (now.deadline == w.now + HANDLER_LIMIT && now.claimedAt == w.now && now.stage == Handling(Fresh))
  }

  /** One job starts, settles, loses its connection or dies. */
  lemma OneJob(w: World, w': World, j: nat)
    requires w'.sweeps == w.sweeps && w'.now == w.now && SnapshotsHold(w)
    requires SameOthers(w.jobs, w'.jobs, j)
    requires j in w'.jobs ==> OldOrFresh(w, w', j)
    ensures NothingNew(w, w')
  {
    assert forall k, t :: Awaiting(w', k, t) <==> Awaiting(w, k, t);
  }

  lemma QuietStep(w: World, w': World)
    requires Inv(w) && NothingNew(w, w')
    requires w'.now >= w.now && w'.s.rows == w.s.rows && w'.s.issued == w.s.issued
    ensures Inv(w') && Follows(w, w')
  {
  }

  /** A row is inserted under an unused key, or dropped. */
  lemma TableStep(w: World, w': World, id: TaskId)
    requires Inv(w) && w'.now == w.now && w'.jobs == w.jobs && w'.sweeps == w.sweeps && w.s.issued <= w'.s.issued
    requires w'.s.rows == w.s.rows - {id} ||
             (id !in w.s.issued && id in w'.s.issued &&
              exists t: Task :: t.id == id && t.status == Pending && t.createdAt == t.updatedAt == w.now
                              && w'.s.rows == w.s.rows[id := t])
    ensures Inv(w') && Follows(w, w')
  {
    assert forall j, i :: LiveOwner(w', j, i) <==> LiveOwner(w, j, i);
    assert forall k, t :: Awaiting(w', k, t) <==> Awaiting(w, k, t);
  }

  lemma OnwardAwaits(w: World, k: nat)
    requires k in w.sweeps && w.sweeps[k].rest != [] && DistinctIds(w.sweeps[k].rest)
    ensures var w' := Onward(w, k);
            && SnapshotShape(w'.sweeps[k])
            && (forall o, t :: Awaiting(w', o, t) ==> Awaiting(w, o, t))
  {
  }

  /** Only a live owner writes, besides the claim itself, which needs a pending row. */
  lemma WorkStep(cfg: Config, w: World, l: Label)
    requires Inv(w) && l.Work? && Enabled(cfg, w, l)
    ensures Inv(Next(cfg, w, l)) && Follows(w, Next(cfg, w, l))
  {
    var w', j := Next(cfg, w, l), l.j;
    var p := w.jobs[j].stage.phase;
    var (s', p') := HandlerStep(w, j, l.reply);
    StepShape(w.s, p, w.jobs[j].msg.body, w.jobs[j].deadline, Call(w.now, l.reply));
    if KeepsRows(w.s, p, s', p') {
      assert w'.jobs[j].claimedAt == w.jobs[j].claimedAt;
      assert forall k, t :: Awaiting(w', k, t) <==> Awaiting(w, k, t);
      QuietStep(w, w');
    } else if TakesRow(w.s, p, s', p', w.now, w.jobs[j].deadline) {
      WorkClaims(w, w', j);
    } else {
      WorkGivesAway(w, w', j, p.id);
    }
  }

  lemma WorkClaims(w: World, w': World, j: nat)
    requires Inv(w) && InHandler(w, j)
    requires w.jobs[j].stage.phase.Claiming?
    requires var p := w.jobs[j].stage.phase; TakesRow(w.s, p, w'.s, Claimed(p.id), w.now, w.jobs[j].deadline)
    requires w'.now == w.now && w'.s.issued == w.s.issued && w'.sweeps == w.sweeps
    requires w'.jobs == w.jobs[j := w.jobs[j].(stage := Handling(Claimed(w.jobs[j].stage.phase.id)),
                                               claimedAt := w.now)]
    ensures Inv(w') && Follows(w, w')
  {
    var id := w.jobs[j].stage.phase.id;
    assert forall o :: !LiveOwner(w, o, id);
    assert forall o, i :: LiveOwner(w', o, i) ==> (o == j && i == id) || (o != j && LiveOwner(w, o, i));
    forall k, t | Awaiting(w', k, t) ensures Awaiting(w, k, t) && t.id != id {
      assert Awaiting(w, k, t);
    }
  }

  /** The row that an owner writes last: pending again, or completed. */
  predicate LastWrite(a: Task, b: Task, now: Time) {
    && (b.status == Pending || b.status == Completed)
    && b == a.(status := b.status, summary := b.summary, updatedAt := now)
    && (b.status == Completed || b.summary == a.summary)
  }

  lemma WorkGivesAway(w: World, w': World, j: nat, id: TaskId)
    requires Inv(w) && LiveOwner(w, j, id) && id in w.s.rows
    requires id in w'.s.rows && w'.s.rows == w.s.rows[id := w'.s.rows[id]]
    requires LastWrite(w.s.rows[id], w'.s.rows[id], w.now)
    requires w'.now == w.now && w'.s.issued == w.s.issued && w'.sweeps == w.sweeps
    requires SameOthers(w.jobs, w'.jobs, j)
    requires j in w'.jobs && w'.jobs[j].deadline == w.jobs[j].deadline && w'.jobs[j].claimedAt == w.jobs[j].claimedAt
    requires forall i :: !LiveOwner(w', j, i)
    ensures Inv(w') && Follows(w, w')
  {
    assert TableSound(w') && Follows(w, w');
    GivenAwayOwners(w, w', j, id);
    GivenAwaySnapshots(w, w', j, id);
  }

  lemma GivenAwayOwners(w: World, w': World, j: nat, id: TaskId)
    requires Exclusive(w) && OwnersRows(w) && Deadlines(w) && LiveOwner(w, j, id)
    requires w'.now == w.now && w'.s.issued == w.s.issued && SameOthers(w.jobs, w'.jobs, j)
    requires j in w'.jobs && w'.jobs[j].deadline == w.jobs[j].deadline && w'.jobs[j].claimedAt == w.jobs[j].claimedAt
    requires forall i :: !LiveOwner(w', j, i)
    requires forall o :: o != id && o in w'.s.rows ==> o in w.s.rows && w'.s.rows[o] == w.s.rows[o]
    ensures Exclusive(w') && OwnersRows(w') && Deadlines(w')
    ensures forall o: nat, i :: LiveOwner(w', o, i) ==> i != id && LiveOwner(w, o, i)
  {
    forall o: nat, i | LiveOwner(w', o, i) ensures o != j && i != id && LiveOwner(w, o, i) {
      assert o != j;
      assert LiveOwner(w, o, i);
    }
  }

  lemma GivenAwaySnapshots(w: World, w': World, j: nat, id: TaskId)
    requires SnapshotsHold(w) && LiveOwner(w, j, id) && w'.sweeps == w.sweeps && w'.s.issued == w.s.issued
    requires forall o, i :: LiveOwner(w', o, i) ==> LiveOwner(w, o, i)
    requires forall o :: o != id && o in w'.s.rows ==> o in w.s.rows && w'.s.rows[o] == w.s.rows[o]
    ensures SnapshotsHold(w')
  {
    forall k, t | Awaiting(w', k, t) ensures Awaiting(w, k, t) && t.id != id {
      assert Awaiting(w, k, t);
    }
  }

  /** A claim is stale only after its handler's time is up. */
  lemma StaleIsUnowned(cfg: Config, w: World, at: Time, t: Task)
    requires HANDLER_LIMIT <= cfg.processingTimeout + 1 && at <= w.now && Deadlines(w) && OwnersRows(w)
    requires t.id in w.s.rows && w.s.rows[t.id] == t && t.status == Processing
             && t.updatedAt < at - cfg.processingTimeout
    ensures forall j :: !LiveOwner(w, j, t.id)
  {
  }

  lemma SnapshotStep(cfg: Config, w: World, l: Label)
    requires Guarded(cfg) && Inv(w) && l.Snapshot? && Enabled(cfg, w, l)
    ensures Inv(Next(cfg, w, l)) && Follows(w, Next(cfg, w, l))
  {
    forall t | t in l.picked && t.status == Processing
      ensures t.id in w.s.rows && w.s.rows[t.id] == t && forall j :: !LiveOwner(w, j, t.id)
    {
      StaleIsUnowned(cfg, w, l.at, t);
    }
    SnapshotWaits(w, Next(cfg, w, l), l.k, l.picked);
  }

  lemma SnapshotWaits(w: World, w': World, k: nat, picked: seq<Task>)
    requires Inv(w) && k == 0 && w' == w.(sweeps := w.sweeps[k := Sweep(picked, FirstStage(picked))])
    requires DistinctIds(picked)
    requires forall t :: t in picked && t.status == Processing ==>
               t.id in w.s.rows && w.s.rows[t.id] == t && forall j :: !LiveOwner(w, j, t.id)
    ensures Inv(w') && Follows(w, w')
  {
    assert forall j, id :: LiveOwner(w', j, id) <==> LiveOwner(w, j, id);
    assert forall o, t :: Awaiting(w', o, t) ==> o == k && t in picked;
  }

  /** The reset itself: nobody owns the row, and no other row of the snapshot is the same task. */
  lemma ResetWrites(w: World, w': World, k: nat)
    requires Inv(w) && RowAt(w, k, Reset) && Row(w, k).id in w.s.rows
    requires w' == w.(s := w.s.(rows := StatusWritten(w.s.rows, Row(w, k).id, Pending, "", w.now)),
                      sweeps := w.sweeps[k := w.sweeps[k].(stage := Clear)])
    ensures Inv(w') && Follows(w, w')
  {
    var t := Row(w, k);
    assert Awaiting(w, k, t);
    assert forall j, id :: LiveOwner(w', j, id) <==> LiveOwner(w, j, id);
    forall o, u | Awaiting(w', o, u) ensures u.id != t.id && Awaiting(w, o, u) {
      var rest := w.sweeps[k].rest;
      var i :| 0 <= i < |rest[1..]| && rest[1..][i] == u;
      assert rest[i + 1] == u;
    }
    assert SnapshotsHold(w');
  }

  lemma SweepStep(cfg: Config, w: World, l: Label)
    requires Inv(w) && Enabled(cfg, w, l) && (l.ResetRow? || l.ClearRow? || l.SendRow? || l.StopSweep?)
    ensures Inv(Next(cfg, w, l)) && Follows(w, Next(cfg, w, l))
  {
    var w' := Next(cfg, w, l);
    var k := l.k;
    if l.ResetRow? && l.reply.Ok? && Row(w, k).id in w.s.rows {
      ResetWrites(w, w', k);
    } else {
      if l.ResetRow? || l.SendRow? {
        OnwardAwaits(w, k);
      }
      SweepOnly(w, w', k);
    }
  }

  lemma SweepOnly(w: World, w': World, k: nat)
    requires Inv(w) && k in w.sweeps && w'.now == w.now && w'.jobs == w.jobs
    requires w'.s.rows == w.s.rows && w'.s.issued == w.s.issued && w'.sweeps.Keys <= w.sweeps.Keys
    requires k in w'.sweeps ==> SnapshotShape(w'.sweeps[k]) && forall t :: Awaiting(w', k, t) ==> Awaiting(w, k, t)
    ensures Inv(w') && Follows(w, w')
  {
    assert forall o :: o in w'.sweeps ==> o == k;
    QuietStep(w, w');
  }

  lemma JobStep(cfg: Config, w: World, l: Label)
    requires Inv(w) && Enabled(cfg, w, l) && (l.Deliver? || l.Settle? || l.Disconnect? || l.Crash?)
    ensures Inv(Next(cfg, w, l)) && Follows(w, Next(cfg, w, l))
  {
    var w' := Next(cfg, w, l);
    JobShape(cfg, w, l);
    OneJob(w, w', l.j);
    QuietStep(w, w');
  }

  ghost predicate JobOnly(w: World, w': World, j: nat) {
    && w'.s == w.s && w'.now == w.now && w'.sweeps == w.sweeps && SameOthers(w.jobs, w'.jobs, j)
    && (j in w'.jobs ==> OldOrFresh(w, w', j))
  }

  lemma SettleShape(w: World, j: nat, reply: Reply)
    requires j in w.jobs && !w.jobs[j].stage.Handling?
    ensures JobOnly(w, SettleNext(w, j, reply), j)
  {
  }

  lemma JobShape(cfg: Config, w: World, l: Label)
    requires Enabled(cfg, w, l) && (l.Deliver? || l.Settle? || l.Disconnect? || l.Crash?)
    ensures JobOnly(w, Next(cfg, w, l), l.j)
  {
    match l
    case Deliver(_, _) =>
    case Settle(j, reply) => SettleShape(w, j, reply);
    case Disconnect(_) =>
    case Crash(_) =>
  }

  lemma RequestStep(cfg: Config, w: World, l: Label)
    requires Inv(w) && Enabled(cfg, w, l)
    requires l.Tick? || l.Inject? || l.ExpireRow? || l.ExpireMarker? || l.Announce? || l.Read? || l.Load? || l.Fill?
             || l.Evict?
    ensures Inv(Next(cfg, w, l)) && Follows(w, Next(cfg, w, l))
  {
    SameJobs(w, Next(cfg, w, l));
    QuietStep(w, Next(cfg, w, l));
  }

  lemma RowStep(cfg: Config, w: World, l: Label)
    requires Inv(w) && Enabled(cfg, w, l) && (l.Insert? || l.Remove?)
    ensures Inv(Next(cfg, w, l)) && Follows(w, Next(cfg, w, l))
  {
    var w' := Next(cfg, w, l);
    if l.Insert? {
      assert w'.s.rows == w.s.rows[l.id := NewTask(l.id, l.title, l.description, w.now)];
    }
    TableStep(w, w', l.id);
  }

  /** Every step of every process keeps the invariant and follows the lifecycle. */
  lemma StepKeeps(cfg: Config, w: World, l: Label)
    requires Guarded(cfg) && Inv(w) && Enabled(cfg, w, l)
    ensures Inv(Next(cfg, w, l)) && Follows(w, Next(cfg, w, l))
  {
    if l.Work? {
      WorkStep(cfg, w, l);
    } else if l.Insert? || l.Remove? {
      RowStep(cfg, w, l);
    } else if l.Snapshot? {
      SnapshotStep(cfg, w, l);
    } else if l.ResetRow? || l.ClearRow? || l.SendRow? || l.StopSweep? {
      SweepStep(cfg, w, l);
    } else if l.Deliver? || l.Settle? || l.Disconnect? || l.Crash? {
      JobStep(cfg, w, l);
    } else {
      RequestStep(cfg, w, l);
    }
  }

  lemma {:induction false} RunKeeps(cfg: Config, w: World, run: seq<Label>)
    requires Guarded(cfg) && Inv(w) && Legal(cfg, w, run)
    ensures Inv(After(cfg, w, run))
    decreases run
  {
    if run != [] {
      StepKeeps(cfg, w, run[0]);
      RunKeeps(cfg, Next(cfg, w, run[0]), run[1..]);
    }
  }

  lemma ReachableInv(cfg: Config, w: World)
    requires Guarded(cfg) && Reachable(cfg, w)
    ensures Inv(w)
  {
    var run :| Legal(cfg, EMPTY, run) && Within(cfg, AnyStep, EMPTY, run) && After(cfg, EMPTY, run) == w;
    RunKeeps(cfg, EMPTY, run);
  }

  // ----- What holds in every run -----

  /**
   * With one reconciler and a timeout that outlasts a handler, a task has at most one owner that can still write, and
   * while there is one its row is `processing` since that owner's claim, unless the task was deleted.
   */
  lemma OneOwner(cfg: Config, w: World)
    requires Guarded(cfg) && Reachable(cfg, w)
    ensures Exclusive(w) && OwnersRows(w)
  {
    ReachableInv(cfg, w);
  }

  /** Every step of every run changes rows along the documented lifecycle only, and no row is ever `failed`. */
  lemma LifecycleHolds(cfg: Config, w: World, l: Label)
    requires Guarded(cfg) && Reachable(cfg, w) && Enabled(cfg, w, l)
    ensures Follows(w, Next(cfg, w, l))
    ensures forall id :: id in w.s.rows ==> w.s.rows[id].status != Failed
  {
    ReachableInv(cfg, w);
    StepKeeps(cfg, w, l);
    ReachableSound(cfg, w);
  }

  predicate IsCompleted(w: World, id: TaskId) {
    id in w.s.rows && w.s.rows[id].status == Completed
  }

  /** Steps of the run that complete task `id`. */
  ghost function Completions(cfg: Config, w: World, run: seq<Label>, id: TaskId): nat
    requires Legal(cfg, w, run)
    decreases run
  {
    if run == [] then 0
    else
      var w' := Next(cfg, w, run[0]);
      (if !IsCompleted(w, id) && IsCompleted(w', id) then 1 else 0) + Completions(cfg, w', run[1..], id)
  }

  /** A completed row is never touched again before it is deleted, and never completes a second time. */
  lemma {:induction false} CompletedIsFinal(cfg: Config, w: World, run: seq<Label>, id: TaskId)
    requires Guarded(cfg) && Inv(w) && Legal(cfg, w, run) && id in w.s.issued
    requires id in w.s.rows ==> w.s.rows[id].status == Completed
    ensures Completions(cfg, w, run, id) == 0
    ensures id in After(cfg, w, run).s.rows ==> id in w.s.rows && After(cfg, w, run).s.rows[id] == w.s.rows[id]
    decreases run
  {
    if run != [] {
      StepKeeps(cfg, w, run[0]);
      CompletedIsFinal(cfg, Next(cfg, w, run[0]), run[1..], id);
    }
  }

  /** In every run of the deployed system, each task completes at most once. */
  lemma {:induction false} CompletesOnce(cfg: Config, w: World, run: seq<Label>, id: TaskId)
    requires Guarded(cfg) && Inv(w) && Legal(cfg, w, run)
    ensures Completions(cfg, w, run, id) <= 1
    decreases run
  {
    if run != [] {
      var w' := Next(cfg, w, run[0]);
      StepKeeps(cfg, w, run[0]);
      if IsCompleted(w', id) {
        CompletedIsFinal(cfg, w', run[1..], id);
      } else {
        CompletesOnce(cfg, w', run[1..], id);
      }
    }
  }
}
