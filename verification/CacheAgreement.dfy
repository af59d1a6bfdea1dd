/**
 * When the row cache agrees with the table in interleaved runs: as long as cache writes and deletes succeed and nobody
 * dies on the way to one, exactly until a reader or worker puts back a row that the table no longer holds.
 */
module CacheAgreement {
  import opened Tasks
  import opened Repository
  import opened Messages
  import opened Summarizer
  import opened Pipeline
  import opened Runs
  import opened Ownership
  import opened OwnershipLimits
  import opened Consumers

  predicate Agrees(w: World, id: TaskId) {
    id in w.s.cache ==> id in w.s.rows && w.s.cache[id] == w.s.rows[id]
  }

  /** The handler has written row `id` and not yet brought the cache up to date. */
  predicate Refreshes(p: Phase, id: TaskId) {
    match p
    case Claimed(i) => i == id
    case Rereading(i) => i == id
    case Refreshing(row) => row.id == id
    case Clearing(i) => i == id
    case _ => false
  }

  predicate Current(w: World, row: Task) {
    row.id in w.s.rows && w.s.rows[row.id] == row
  }

  /** And what it is going to do brings it up to date: it drops the cached row, or puts back what the table holds. */
  predicate WorkerRepairs(w: World, j: nat, id: TaskId) {
    && InHandler(w, j) && Refreshes(w.jobs[j].stage.phase, id)
    && (w.jobs[j].stage.phase.Rereading? ==> id in w.s.rows)
    && (w.jobs[j].stage.phase.Refreshing? ==> Current(w, w.jobs[j].stage.phase.row))
  }

  predicate SweepRepairs(w: World, k: nat, id: TaskId) {
    RowAt(w, k, Clear) && Row(w, k).id == id
  }

  predicate RequestRepairs(w: World, r: nat, id: TaskId) {
    r in w.requests && w.requests[r] == Evicting(id)
  }

  /**
   * Somebody is between a write of row `id` and the cache step that belongs to it, and that step will bring the cache
   * up to date. A reader about to fill the cache does not count: nothing depends on its fill.
   */
  ghost predicate Repairing(w: World, id: TaskId) {
    || (exists j :: WorkerRepairs(w, j, id)) || (exists k :: SweepRepairs(w, k, id))
    || (exists r :: RequestRepairs(w, r, id))
  }

  ghost predicate Tracks(w: World, id: TaskId) {
    Agrees(w, id) || Repairing(w, id)
  }

  /** Every cached row is the row of the table, or about to be repaired. */
  ghost predicate CacheTracks(w: World) {
    forall id :: Tracks(w, id)
  }

  /** The step puts a row into the cache that is not what the table holds: a slow `Get`, or a slow worker. */
  predicate OutdatedFill(w: World, l: Label, id: TaskId) {
    || (l.Fill? && l.reply.Ok? && l.r in w.requests && w.requests[l.r].Filling?
        && w.requests[l.r].row.id == id && !Current(w, w.requests[l.r].row))
    || (l.Work? && l.reply.Ok? && InHandler(w, l.j) && w.jobs[l.j].stage.phase.Refreshing?
        && w.jobs[l.j].stage.phase.row.id == id && !Current(w, w.jobs[l.j].stage.phase.row))
  }

  /** Somebody else than the one who takes step `l` is on the way to the cache step of row `id`. */
  ghost predicate OthersRepair(w: World, l: Label, id: TaskId) {
    || (exists j :: WorkerRepairs(w, j, id) && !(l.Work? && l.j == j))
    || (exists k :: SweepRepairs(w, k, id))
    || (exists r :: RequestRepairs(w, r, id))
  }

  /** An outdated row is put back, and nobody else is going to repair it. */
  ghost predicate Spoils(w: World, l: Label, id: TaskId) {
    OutdatedFill(w, l, id) && !OthersRepair(w, l, id)
  }

  /** Rows outside the table belong to recorded ids. */
  ghost predicate Known(w: World) {
    && w.s.cache.Keys <= w.s.issued
    && (forall r :: r in w.requests && w.requests[r].Filling? ==> w.requests[r].row.id in w.s.issued)
    && (forall j :: InHandler(w, j) && w.jobs[j].stage.phase.Refreshing? ==>
          w.jobs[j].stage.phase.row.id in w.s.issued)
  }

  lemma StepKnown(cfg: Config, w: World, l: Label)
    requires Enabled(cfg, w, l) && TableSound(w) && Known(w)
    ensures Known(Next(cfg, w, l))
  {
    if l.Work? {
      HandlerKnown(w, l.j, l.reply);
    } else {
      OtherHandlers(cfg, w, l);
      if SweepLabel(l) {
        SweepKnown(cfg, w, l);
      } else if RequestLabel(l) {
        RequestKnown(cfg, w, l);
      }
    }
  }

  lemma HandlerKnown(w: World, j: nat, reply: Reply)
    requires InHandler(w, j) && TableSound(w) && Known(w)
    ensures Known(WorkNext(w, j, reply))
  {
  }

  lemma SweepKnown(cfg: Config, w: World, l: Label)
    requires Enabled(cfg, w, l) && SweepLabel(l) && Known(w)
    ensures Known(SweepNext(cfg, w, l))
  {
  }

  /** A request loads a row of the table, files a row it has loaded, inserts one, or only drops things. */
  lemma RequestKnown(cfg: Config, w: World, l: Label)
    requires Enabled(cfg, w, l) && RequestLabel(l) && TableSound(w) && Known(w)
    ensures Known(RequestNext(cfg, w, l))
  {
    var w' := RequestNext(cfg, w, l);
    assert forall r :: r != l.r && r in w'.requests ==> r in w.requests && w'.requests[r] == w.requests[r];
    if !l.Load? && !l.Fill? && !l.Insert? {
      assert w'.s.cache.Keys <= w.s.cache.Keys && w'.s.issued == w.s.issued;
    }
  }

  // ----- One step -----

  lemma HandlerTracks(w: World, j: nat, reply: Reply, id: TaskId)
    requires InHandler(w, j) && Keyed(w.s.rows) && Tidy(w, Work(j, reply)) && Tracks(w, id)
    requires !OutdatedFill(w, Work(j, reply), id)
    ensures Tracks(WorkNext(w, j, reply), id)
  {
    var w' := WorkNext(w, j, reply);
    var p, p' := w.jobs[j].stage.phase, HandlerStep(w, j, reply).1;
    assert w'.s == HandlerStep(w, j, reply).0;
    assert forall k :: SweepRepairs(w, k, id) ==> SweepRepairs(w', k, id);
    assert forall r :: RequestRepairs(w, r, id) ==> RequestRepairs(w', r, id);
    if Refreshes(p', id) {
      assert WorkerRepairs(w', j, id);
    } else {
      assert forall o :: o != j && WorkerRepairs(w, o, id) ==> WorkerRepairs(w', o, id);
      if WorkerRepairs(w, j, id) {
        assert Agrees(w', id);
      }
    }
  }

  /** A step that leaves table and cache alone, and everybody on the way to a cache step. */
  lemma QuietTracks(w: World, w': World, id: TaskId)
    requires w'.s.rows == w.s.rows && w'.s.cache == w.s.cache && w'.requests == w.requests && w'.sweeps == w.sweeps
    requires forall j :: WorkerRepairs(w, j, id) ==> WorkerRepairs(w', j, id)
    requires Tracks(w, id)
    ensures Tracks(w', id)
  {
    assert forall k :: SweepRepairs(w, k, id) ==> SweepRepairs(w', k, id);
    assert forall r :: RequestRepairs(w, r, id) ==> RequestRepairs(w', r, id);
  }

  lemma JobKeepsRepair(cfg: Config, w: World, l: Label, j: nat, id: TaskId)
    requires Enabled(cfg, w, l) && JobLabel(l) && !l.Work? && Tidy(w, l) && WorkerRepairs(w, j, id)
    ensures WorkerRepairs(JobNext(cfg, w, l), j, id)
  {
    if l.j != j {
      OtherJobs(cfg, w, l, j);
    } else {
      assert l.Disconnect?;
    }
  }

  lemma JobTracks(cfg: Config, w: World, l: Label, id: TaskId)
    requires Enabled(cfg, w, l) && JobLabel(l) && !l.Work? && Tidy(w, l) && Tracks(w, id)
    ensures Tracks(JobNext(cfg, w, l), id)
  {
    forall j | WorkerRepairs(w, j, id) ensures WorkerRepairs(JobNext(cfg, w, l), j, id) {
      JobKeepsRepair(cfg, w, l, j, id);
    }
    QuietTracks(w, JobNext(cfg, w, l), id);
  }

  lemma EnvironmentTracks(cfg: Config, w: World, l: Label, id: TaskId)
    requires Enabled(cfg, w, l) && EnvironmentLabel(l) && Tracks(w, id)
    ensures Tracks(EnvironmentNext(cfg, w, l), id)
  {
    var w' := EnvironmentNext(cfg, w, l);
    assert forall j :: WorkerRepairs(w, j, id) ==> WorkerRepairs(w', j, id);
    assert forall k :: SweepRepairs(w, k, id) ==> SweepRepairs(w', k, id);
    assert forall r :: RequestRepairs(w, r, id) ==> RequestRepairs(w', r, id);
  }

  /** A reset leads to the cache step of its own sweep. */
  lemma ResetTracks(w: World, w': World, k: nat, id: TaskId)
    requires RowAt(w, k, Reset) && Row(w, k).id in w.s.rows && Tracks(w, id)
    requires w' == w.(s := w.s.(rows := StatusWritten(w.s.rows, Row(w, k).id, Pending, "", w.now)),
                      sweeps := w.sweeps[k := w.sweeps[k].(stage := Clear)])
    ensures Tracks(w', id)
  {
    assert SweepRepairs(w', k, Row(w, k).id);
    if id != Row(w, k).id {
      assert forall j :: WorkerRepairs(w, j, id) ==> WorkerRepairs(w', j, id);
      assert forall o :: SweepRepairs(w, o, id) ==> SweepRepairs(w', o, id);
      assert forall r :: RequestRepairs(w, r, id) ==> RequestRepairs(w', r, id);
    }
  }

  lemma ClearTracks(w: World, w': World, k: nat, id: TaskId)
    requires RowAt(w, k, Clear) && Tracks(w, id)
    requires w' == w.(s := w.s.(cache := w.s.cache - {Row(w, k).id}),
                      sweeps := w.sweeps[k := w.sweeps[k].(stage := Send)])
    ensures Tracks(w', id)
  {
    if id != Row(w, k).id {
      assert forall j :: WorkerRepairs(w, j, id) ==> WorkerRepairs(w', j, id);
      assert forall o :: SweepRepairs(w, o, id) ==> SweepRepairs(w', o, id);
      assert forall r :: RequestRepairs(w, r, id) ==> RequestRepairs(w', r, id);
    }
  }

  /** The other steps of a sweep change neither table nor cache, and it is not on its way to a cache step. */
  lemma RestTracks(w: World, w': World, k: nat, id: TaskId)
    requires w'.s == w.s && w'.requests == w.requests && w'.jobs == w.jobs && Tracks(w, id) && !RowAt(w, k, Clear)
    requires forall o :: o != k && o in w.sweeps ==> o in w'.sweeps && w'.sweeps[o] == w.sweeps[o]
    ensures Tracks(w', id)
  {
    assert forall j :: WorkerRepairs(w, j, id) ==> WorkerRepairs(w', j, id);
    assert forall o :: SweepRepairs(w, o, id) ==> SweepRepairs(w', o, id);
    assert forall r :: RequestRepairs(w, r, id) ==> RequestRepairs(w', r, id);
  }

  lemma SweepTracks(cfg: Config, w: World, l: Label, id: TaskId)
    requires Enabled(cfg, w, l) && SweepLabel(l) && Tidy(w, l) && Tracks(w, id)
    ensures Tracks(SweepNext(cfg, w, l), id)
  {
    if l.ResetRow? && l.reply.Ok? && Row(w, l.k).id in w.s.rows {
      ResetTracks(w, SweepNext(cfg, w, l), l.k, id);
    } else if l.ClearRow? {
      ClearTracks(w, SweepNext(cfg, w, l), l.k, id);
    } else {
      RestTracks(w, SweepNext(cfg, w, l), l.k, id);
    }
  }

  lemma RequestTracks(cfg: Config, w: World, l: Label, id: TaskId)
    requires Enabled(cfg, w, l) && RequestLabel(l) && Tidy(w, l) && TableSound(w) && Known(w) && Tracks(w, id)
    requires !OutdatedFill(w, l, id)
    ensures Tracks(RequestNext(cfg, w, l), id)
  {
    var w' := RequestNext(cfg, w, l);
    if l.Remove? && l.id == id {
      assert RequestRepairs(w', l.r, id);
    } else if !(l.Insert? && l.id == id) {
      RequestLeaves(cfg, w, l, id);
      assert forall j :: WorkerRepairs(w, j, id) ==> WorkerRepairs(w', j, id);
      assert forall k :: SweepRepairs(w, k, id) ==> SweepRepairs(w', k, id);
      assert forall r :: r != l.r && RequestRepairs(w, r, id) ==> RequestRepairs(w', r, id);
    }
  }

  /** A request that neither creates nor deletes task `id` leaves its row and the other requests alone. */
  lemma RequestLeaves(cfg: Config, w: World, l: Label, id: TaskId)
    requires Enabled(cfg, w, l) && RequestLabel(l) && !(l.Remove? && l.id == id) && !(l.Insert? && l.id == id)
    ensures var w' := RequestNext(cfg, w, l);
            && (id in w'.s.rows <==> id in w.s.rows) && (id in w.s.rows ==> w'.s.rows[id] == w.s.rows[id])
            && (forall r :: r != l.r && r in w.requests ==> r in w'.requests && w'.requests[r] == w.requests[r])
  {
  }

  lemma CarefulTracks(cfg: Config, w: World, l: Label, id: TaskId)
    requires Enabled(cfg, w, l) && TableSound(w) && Known(w) && Tidy(w, l) && Tracks(w, id) && !OutdatedFill(w, l, id)
    ensures Tracks(Next(cfg, w, l), id)
  {
    if JobLabel(l) {
      AnyJobTracks(cfg, w, l, id);
    } else if SweepLabel(l) {
      SweepTracks(cfg, w, l, id);
      assert Next(cfg, w, l) == SweepNext(cfg, w, l);
    } else {
      OutsideTracks(cfg, w, l, id);
    }
  }

  lemma OutsideTracks(cfg: Config, w: World, l: Label, id: TaskId)
    requires Enabled(cfg, w, l) && (RequestLabel(l) || EnvironmentLabel(l)) && TableSound(w) && Known(w)
    requires Tidy(w, l) && Tracks(w, id) && !OutdatedFill(w, l, id)
    ensures Tracks(Next(cfg, w, l), id)
  {
    if RequestLabel(l) {
      RequestTracks(cfg, w, l, id);
    } else {
      EnvironmentTracks(cfg, w, l, id);
    }
  }

  lemma AnyJobTracks(cfg: Config, w: World, l: Label, id: TaskId)
    requires Enabled(cfg, w, l) && JobLabel(l) && Keyed(w.s.rows) && Tidy(w, l) && Tracks(w, id)
    requires !OutdatedFill(w, l, id)
    ensures Tracks(Next(cfg, w, l), id)
  {
    if l.Work? {
      WorkTracks(cfg, w, l, id);
    } else {
      JobTracks(cfg, w, l, id);
      assert Next(cfg, w, l) == JobNext(cfg, w, l);
    }
  }

  lemma WorkTracks(cfg: Config, w: World, l: Label, id: TaskId)
    requires Enabled(cfg, w, l) && l.Work? && Keyed(w.s.rows) && Tidy(w, l) && Tracks(w, id) && !OutdatedFill(w, l, id)
    ensures Tracks(Next(cfg, w, l), id)
  {
    assert Next(cfg, w, l) == WorkNext(w, l.j, l.reply);
    HandlerTracks(w, l.j, l.reply, id);
  }

  lemma StepTracks(cfg: Config, w: World, l: Label, id: TaskId)
    requires Enabled(cfg, w, l) && TableSound(w) && Known(w) && Tidy(w, l) && Tracks(w, id)
    ensures Tracks(Next(cfg, w, l), id) <==> !Spoils(w, l, id)
  {
    if OutdatedFill(w, l, id) {
      OutdatedDisagrees(cfg, w, l, id);
      RepairersStay(cfg, w, l, id);
    } else {
      CarefulTracks(cfg, w, l, id);
    }
  }

  lemma OutdatedDisagrees(cfg: Config, w: World, l: Label, id: TaskId)
    requires Enabled(cfg, w, l) && OutdatedFill(w, l, id)
    ensures !Agrees(Next(cfg, w, l), id)
  {
    if l.Work? {
      assert Next(cfg, w, l).s == HandlerStep(w, l.j, l.reply).0;
    }
  }

  /** After a fill, those on the way to a cache step are the others that were so before. */
  lemma RepairersStay(cfg: Config, w: World, l: Label, id: TaskId)
    requires Enabled(cfg, w, l) && OutdatedFill(w, l, id)
    ensures Repairing(Next(cfg, w, l), id) <==> OthersRepair(w, l, id)
  {
    if l.Work? {
      assert Next(cfg, w, l) == WorkNext(w, l.j, l.reply);
      WorkerFills(w, WorkNext(w, l.j, l.reply), l, id);
    } else {
      assert Next(cfg, w, l) == RequestNext(cfg, w, l);
      ReaderFills(w, RequestNext(cfg, w, l), l, id);
    }
  }

  lemma WorkerFills(w: World, w': World, l: Label, id: TaskId)
    requires l.Work? && InHandler(w, l.j) && w.jobs[l.j].stage.phase.Refreshing? && w' == WorkNext(w, l.j, l.reply)
    ensures Repairing(w', id) <==> OthersRepair(w, l, id)
  {
    assert w'.s.rows == w.s.rows && !InHandler(w', l.j);
    assert forall j :: j != l.j ==> (WorkerRepairs(w', j, id) <==> WorkerRepairs(w, j, id));
    assert forall k :: SweepRepairs(w', k, id) <==> SweepRepairs(w, k, id);
    assert forall r :: RequestRepairs(w', r, id) <==> RequestRepairs(w, r, id);
  }

  lemma ReaderFills(w: World, w': World, l: Label, id: TaskId)
    requires l.Fill? && l.r in w.requests && w.requests[l.r].Filling?
    requires w'.s.rows == w.s.rows && w'.jobs == w.jobs && w'.sweeps == w.sweeps
    requires l.r in w'.requests && w'.requests[l.r].Answered?
    requires forall r :: r != l.r ==>
               (r in w'.requests <==> r in w.requests) && (r in w.requests ==> w'.requests[r] == w.requests[r])
    ensures Repairing(w', id) <==> OthersRepair(w, l, id)
  {
    assert forall j :: WorkerRepairs(w', j, id) <==> WorkerRepairs(w, j, id);
    assert forall k :: SweepRepairs(w', k, id) <==> SweepRepairs(w, k, id);
    assert forall r :: RequestRepairs(w', r, id) <==> RequestRepairs(w, r, id);
  }

  // ----- Whole runs -----

  ghost predicate TidyRun(cfg: Config, w: World, run: seq<Label>)
    requires Legal(cfg, w, run)
    decreases run
  {
    run != [] ==> Tidy(w, run[0]) && TidyRun(cfg, Next(cfg, w, run[0]), run[1..])
  }

  ghost predicate AlwaysTracks(cfg: Config, w: World, run: seq<Label>)
    requires Legal(cfg, w, run)
    decreases run
  {
    CacheTracks(w) && (run != [] ==> AlwaysTracks(cfg, Next(cfg, w, run[0]), run[1..]))
  }

  ghost predicate NeverSpoiled(cfg: Config, w: World, run: seq<Label>)
    requires Legal(cfg, w, run)
    decreases run
  {
    run != [] ==>
      && (forall id :: !Spoils(w, run[0], id))
      && NeverSpoiled(cfg, Next(cfg, w, run[0]), run[1..])
  }

  lemma {:induction false} RunTracks(cfg: Config, w: World, run: seq<Label>)
    requires Legal(cfg, w, run) && TidyRun(cfg, w, run) && Sound(w) && Known(w) && CacheTracks(w)
    ensures AlwaysTracks(cfg, w, run) <==> NeverSpoiled(cfg, w, run)
    decreases run
  {
    if run != [] {
      var w' := Next(cfg, w, run[0]);
      forall id ensures Tracks(w', id) <==> !Spoils(w, run[0], id) {
        StepTracks(cfg, w, run[0], id);
      }
      if CacheTracks(w') {
        StepSound(cfg, w, run[0]);
        StepKnown(cfg, w, run[0]);
        RunTracks(cfg, w', run[1..]);
      } else {
        var id :| !Tracks(w', id);
        assert Spoils(w, run[0], id);
      }
    }
  }

  /**
   * In every tidy interleaved run, every cached row is the table's or about to be repaired, at every moment, if and
   * only if no outdated row was ever put back with nobody there to repair it.
   */
  lemma TracksIff(cfg: Config, run: seq<Label>)
    requires Legal(cfg, EMPTY, run) && TidyRun(cfg, EMPTY, run)
    ensures AlwaysTracks(cfg, EMPTY, run) <==> NeverSpoiled(cfg, EMPTY, run)
  {
    RunTracks(cfg, EMPTY, run);
  }

  // ----- The outdated fill does happen -----

  lemma {:induction false} CarefulIsTidy(cfg: Config, w: World, run: seq<Label>)
    requires Legal(cfg, w, run) && Within(cfg, Careful, w, run)
    ensures TidyRun(cfg, w, run) && Within(cfg, Wired, w, run)
    decreases run
  {
    if run != [] {
      CarefulIsTidy(cfg, Next(cfg, w, run[0]), run[1..]);
    }
  }

  lemma {:induction false} TracksAtEnd(cfg: Config, w: World, run: seq<Label>)
    requires Legal(cfg, w, run) && AlwaysTracks(cfg, w, run)
    ensures CacheTracks(After(cfg, w, run))
    decreases run
  {
    if run != [] {
      TracksAtEnd(cfg, Next(cfg, w, run[0]), run[1..]);
    }
  }

  lemma Reads(cfg: Config, w: World, r: nat, id: TaskId) returns (w': World)
    requires Leads(cfg, Careful, EMPTY, w) && r !in w.requests && id !in w.s.cache
    ensures Leads(cfg, Careful, EMPTY, w') && w' == w.(requests := w.requests[r := Loading(id)])
  {
    w' := Take(cfg, Careful, EMPTY, w, Read(r, id, Ok("")));
  }

  lemma Loads(cfg: Config, w: World, r: nat, id: TaskId) returns (w': World)
    requires Leads(cfg, Careful, EMPTY, w) && r in w.requests && w.requests[r] == Loading(id) && id in w.s.rows
    ensures Leads(cfg, Careful, EMPTY, w') && w' == w.(requests := w.requests[r := Filling(id, w.s.rows[id])])
  {
    w' := Take(cfg, Careful, EMPTY, w, Load(r, Ok("")));
  }

  lemma Fills(cfg: Config, w: World, r: nat, row: Task) returns (w': World)
    requires Leads(cfg, Careful, EMPTY, w) && r in w.requests && w.requests[r] == Filling(row.id, row)
    ensures Leads(cfg, Careful, EMPTY, w')
    ensures w' == w.(requests := w.requests[r := Answered(row.id, row)],
                     s := w.s.(cache := w.s.cache[row.id := row]))
  {
    w' := Take(cfg, Careful, EMPTY, w, Fill(r, Ok("")));
  }

  /** No request is on its way to drop a cached row. */
  predicate NobodyEvicts(w: World) {
    forall r :: r in w.requests ==> !w.requests[r].Evicting?
  }

  /** A reader has loaded task 0 and is about to put it into the cache. */
  lemma SlowReader(cfg: Config) returns (w: World, t: Task, m: Message)
    ensures Leads(cfg, Careful, EMPTY, w) && w.now == 0 && t == NewTask(0, "t", "", 0) && w.s.rows == map[0 := t]
    ensures w.s.markers == {} && w.jobs == map[] && w.sweeps == map[] && m in w.work
    ensures About(m, 0) && m.body.eventId != ""
    ensures 1 in w.requests && w.requests[1] == Filling(0, t) && NobodyEvicts(w)
  {
    w, t, m := FirstTask(cfg, Careful);
    w := Reads(cfg, w, 1, 0);
    w := Loads(cfg, w, 1, 0);
  }

  /** Meanwhile a worker has claimed the task and dropped its cached row. */
  lemma WorkerOvertakes(cfg: Config) returns (w: World, t: Task)
    ensures Leads(cfg, Careful, EMPTY, w) && w.sweeps == map[] && NobodyEvicts(w)
    ensures w.jobs.Keys == {0} && w.jobs[0].stage == Handling(Asking(0))
    ensures 0 in w.s.rows && w.s.rows[0].status == Processing
    ensures 1 in w.requests && w.requests[1] == Filling(0, t) && t.id == 0 && t.status == Pending
  {
    var v, m;
    v, t, m := SlowReader(cfg);
    var w1 := ServesClaim(cfg, Careful, v, 0, m);
    assert w1.s.rows[0].status == Processing && w1.jobs.Keys == {0} && w1.requests == v.requests;
    w := GoesAsking(cfg, Careful, EMPTY, w1, 0, 0);
    assert w.requests == v.requests && w.s.rows == w1.s.rows;
  }

  /** The cached row of task 0 is not what the table holds, and nobody is going to repair it. */
  ghost predicate OldRowCached(w: World, cached: Status, held: Status) {
    && 0 in w.s.cache && 0 in w.s.rows
    && w.s.cache[0].status == cached && w.s.rows[0].status == held && cached != held
    && !Repairing(w, 0)
  }

  /** The reader then puts the old row back. */
  lemma OldRowBack(cfg: Config) returns (w: World)
    ensures Leads(cfg, Careful, EMPTY, w) && OldRowCached(w, Pending, Processing)
  {
    var v, t := WorkerOvertakes(cfg);
    w := Fills(cfg, v, 1, t);
  }

  /** A tidy run on the system's own messages that ends that way was spoiled. */
  lemma EndsSpoiled(cfg: Config, w: World, cached: Status, held: Status) returns (run: seq<Label>)
    requires Leads(cfg, Careful, EMPTY, w) && OldRowCached(w, cached, held)
    ensures Legal(cfg, EMPTY, run) && Within(cfg, Wired, EMPTY, run) && TidyRun(cfg, EMPTY, run)
    ensures !NeverSpoiled(cfg, EMPTY, run) && After(cfg, EMPTY, run) == w
  {
    run :| Legal(cfg, EMPTY, run) && Within(cfg, Careful, EMPTY, run) && After(cfg, EMPTY, run) == w;
    CarefulIsTidy(cfg, EMPTY, run);
    TracksIff(cfg, run);
    assert !Tracks(w, 0);
    if NeverSpoiled(cfg, EMPTY, run) {
      TracksAtEnd(cfg, EMPTY, run);
    }
  }

  /**
   * A reader slower than a worker spoils the cache in a run in which no cache step fails or is missed and nobody else
   * publishes: the row says `processing`, the cached row `pending`.
   */
  lemma SlowReaderLeavesOldRow(cfg: Config) returns (run: seq<Label>)
    ensures Legal(cfg, EMPTY, run) && Within(cfg, Wired, EMPTY, run) && TidyRun(cfg, EMPTY, run)
    ensures !NeverSpoiled(cfg, EMPTY, run) && OldRowCached(After(cfg, EMPTY, run), Pending, Processing)
  {
    var w := OldRowBack(cfg);
    run := EndsSpoiled(cfg, w, Pending, Processing);
  }

  /** Worker 0 is about to put the completed row `t` of task 0 back into the cache. */
  predicate AboutToPutBack(w: World, t: Task) {
    && NobodyEvicts(w) && w.jobs.Keys == {0} && w.jobs[0].stage == Handling(Refreshing(t))
    && t.id == 0 && t.status == Completed
  }

  /** A worker has completed task 0, which a sweep is about to reset. */
  lemma CompletesUnderSweep(cfg: Config) returns (w: World)
    requires Configured(cfg) && cfg.replicas >= 1 && cfg.processingTimeout + 1 < HANDLER_LIMIT
    ensures Leads(cfg, Careful, EMPTY, w) && NobodyEvicts(w) && w.jobs.Keys == {0}
    ensures w.jobs[0].stage == Handling(Rereading(0)) && w.now < w.jobs[0].deadline
    ensures IsCompleted(w, 0) && w.s.rows[0].id == 0
    ensures w.sweeps.Keys == {0} && RowAt(w, 0, Reset) && Row(w, 0).id == 0
  {
    var v, seen := StaleClaim(cfg, Careful);
    var w1 := Looks(cfg, Careful, v, 0, seen);
    assert LiveOwner(w1, 0, 0);
    w := Answers(cfg, Careful, w1, 0);
  }

  /** The worker has read the row again, and the sweep has reset it since. */
  lemma SlowWorker(cfg: Config) returns (w: World, t: Task)
    requires Configured(cfg) && cfg.replicas >= 1 && cfg.processingTimeout + 1 < HANDLER_LIMIT
    ensures Leads(cfg, Careful, EMPTY, w) && AboutToPutBack(w, t)
    ensures Claimable(w.s.rows, 0) && w.sweeps.Keys == {0} && w.sweeps[0].stage == Send
  {
    var v := CompletesUnderSweep(cfg);
    var w1;
    w1, t := ReadsBack(cfg, v, 0, 0);
    assert AboutToPutBack(w1, t);
    w := SweepOvertakes(cfg, w1, t);
  }

  lemma SweepOvertakes(cfg: Config, w: World, t: Task) returns (w': World)
    requires Leads(cfg, Careful, EMPTY, w) && AboutToPutBack(w, t) && 0 in w.s.rows
    requires w.sweeps.Keys == {0} && RowAt(w, 0, Reset) && Row(w, 0).id == 0
    ensures Leads(cfg, Careful, EMPTY, w') && AboutToPutBack(w', t)
    ensures Claimable(w'.s.rows, 0) && w'.sweeps.Keys == {0} && w'.sweeps[0].stage == Send
  {
    var w1 := TakeReset(cfg, Careful, EMPTY, w, 0);
    w' := TakeClear(cfg, Careful, EMPTY, w1, 0);
  }

  lemma ReadsBack(cfg: Config, w: World, j: nat, id: TaskId) returns (w': World, t: Task)
    requires Leads(cfg, Careful, EMPTY, w) && InHandler(w, j) && w.jobs[j].stage.phase == Rereading(id)
    requires w.now < w.jobs[j].deadline && id in w.s.rows
    ensures Leads(cfg, Careful, EMPTY, w') && t == w.s.rows[id] && w' == AtStage(w, j, Handling(Refreshing(t)))
  {
    t := w.s.rows[id];
    w' := TakeWork(cfg, Careful, EMPTY, w, j, Ok(""));
  }

  lemma PutsBack(cfg: Config, w: World, j: nat, t: Task) returns (w': World)
    requires Leads(cfg, Careful, EMPTY, w) && InHandler(w, j) && w.jobs[j].stage.phase == Refreshing(t)
    ensures Leads(cfg, Careful, EMPTY, w')
    ensures w' == AtStage(w, j, Acking).(s := w.s.(cache := w.s.cache[t.id := t]))
  {
    w' := TakeWork(cfg, Careful, EMPTY, w, j, Ok(""));
  }

  /**
   * With a processing timeout shorter than a handler's context, so does a worker overtaken by a sweep: it puts back the
   * completed row that the sweep has reset.
   */
  lemma SlowWorkerLeavesOldRow(cfg: Config) returns (run: seq<Label>)
    requires Configured(cfg) && cfg.replicas >= 1 && cfg.processingTimeout + 1 < HANDLER_LIMIT
    ensures Legal(cfg, EMPTY, run) && Within(cfg, Wired, EMPTY, run) && TidyRun(cfg, EMPTY, run)
    ensures !NeverSpoiled(cfg, EMPTY, run) && OldRowCached(After(cfg, EMPTY, run), Completed, Pending)
  {
    var v, t := SlowWorker(cfg);
    var w := PutsBack(cfg, v, 0, t);
    OutdatedPutBack(v, w, t);
    run := EndsSpoiled(cfg, w, Completed, Pending);
  }

  lemma OutdatedPutBack(v: World, w: World, t: Task)
    requires AboutToPutBack(v, t) && Claimable(v.s.rows, 0) && v.sweeps.Keys == {0} && v.sweeps[0].stage == Send
    requires w == AtStage(v, 0, Acking).(s := v.s.(cache := v.s.cache[0 := t]))
    ensures OldRowCached(w, Completed, Pending)
  {
    assert w.jobs.Keys == {0} && !InHandler(w, 0);
  }
}
