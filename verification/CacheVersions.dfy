/**
 * What the row cache can hold in interleaved runs, with any cache failures: only rows that the table held (no timing
 * assumption), and no older than an entry's lifetime and the slowest fill allow.
 */
module CacheVersions {
  import opened Tasks
  import opened Repository
  import opened Summarizer
  import opened Pipeline
  import opened Runs

  /** How long a cached row lives. */
  const CACHE_TTL: Time := 5 * MINUTE

  /** The versions of rows that the table holds, each with the present time. */
  function Held(w: World): set<(Time, Task)> {
    set id | id in w.s.rows :: (w.now, w.s.rows[id])
  }

  /** The versions the table holds at some moment of the run, with that moment's time. */
  ghost function EverHeld(cfg: Config, w: World, run: seq<Label>): set<(Time, Task)>
    requires Legal(cfg, w, run)
    decreases run
  {
    Held(w) + if run == [] then {} else EverHeld(cfg, Next(cfg, w, run[0]), run[1..])
  }

  /**
   * When things happened: a cached row was put there (`filled`) and had been read from the table (`origin`); the row
   * in a request, or in a worker that is about to refresh the cache, was read from the table.
   */
  datatype Stamps = Stamps(
    filled: map<TaskId, Time>,
    origin: map<TaskId, Time>,
    loaded: map<nat, Time>,
    reread: map<nat, Time>)

  const UNSTAMPED := Stamps(map[], map[], map[], map[])

  function At<K>(m: map<K, Time>, k: K): Time {
    if k in m then m[k] else 0
  }

  function Stamp(st: Stamps, w: World, l: Label): Stamps {
    match l
    case Read(r, id, _) => st.(loaded := st.loaded[r := At(st.origin, id)])
    case Load(r, _) => st.(loaded := st.loaded[r := w.now])
    case Fill(r, reply) =>
      if reply.Err? || r !in w.requests || !w.requests[r].Filling? then st
      else StampFill(st, w.requests[r].row.id, w.now, At(st.loaded, r))
    case Work(j, reply) =>
      if !InHandler(w, j) then st
      else if w.jobs[j].stage.phase.Rereading? then st.(reread := st.reread[j := w.now])
      else if w.jobs[j].stage.phase.Refreshing? && reply.Ok? then
        StampFill(st, w.jobs[j].stage.phase.row.id, w.now, At(st.reread, j))
      else st
    case _ => st
  }

  function StampFill(st: Stamps, id: TaskId, now: Time, origin: Time): Stamps {
    st.(filled := st.filled[id := now], origin := st.origin[id := origin])
  }

  /** Every copy of a row outside the table is filed under its own id, and was held when it was read. */
  ghost predicate Copies(w: World, st: Stamps, hs: set<(Time, Task)>) {
    && (forall id :: id in w.s.cache ==> w.s.cache[id].id == id && (At(st.origin, id), w.s.cache[id]) in hs)
    && (forall r :: r in w.requests && (w.requests[r].Filling? || w.requests[r].Answered?) ==>
          w.requests[r].row.id == w.requests[r].id && (At(st.loaded, r), w.requests[r].row) in hs)
    && (forall j :: InHandler(w, j) && w.jobs[j].stage.phase.Refreshing? ==>
          (At(st.reread, j), w.jobs[j].stage.phase.row) in hs)
  }

  /** Cached rows are at most dropped, and nobody else has a row that it did not have. */
  lemma DropCopies(w: World, w': World, st: Stamps, hs: set<(Time, Task)>)
    requires Copies(w, st, hs) && w'.requests == w.requests
    requires forall id :: id in w'.s.cache ==> id in w.s.cache && w'.s.cache[id] == w.s.cache[id]
    requires forall j :: InHandler(w', j) && w'.jobs[j].stage.phase.Refreshing? ==>
               InHandler(w, j) && w'.jobs[j].stage == w.jobs[j].stage
    ensures Copies(w', st, hs)
  {
  }

  lemma RereadCopies(w: World, w': World, j: nat, row: Task, st: Stamps, hs: set<(Time, Task)>)
    requires Copies(w, st, hs) && j in w.jobs && (w.now, row) in hs
    requires w' == w.(jobs := w.jobs[j := w.jobs[j].(stage := Handling(Refreshing(row)))])
    ensures Copies(w', st.(reread := st.reread[j := w.now]), hs)
  {
  }

  lemma RefreshCopies(w: World, w': World, j: nat, st: Stamps, hs: set<(Time, Task)>)
    requires Copies(w, st, hs) && InHandler(w, j) && w.jobs[j].stage.phase.Refreshing?
    requires var row := w.jobs[j].stage.phase.row;
             w' == w.(s := w.s.(cache := w.s.cache[row.id := row]), jobs := w.jobs[j := w.jobs[j].(stage := Acking)])
    ensures Copies(w', StampFill(st, w.jobs[j].stage.phase.row.id, w.now, At(st.reread, j)), hs)
  {
  }

  lemma HandlerCopies(w: World, j: nat, reply: Reply, st: Stamps, hs: set<(Time, Task)>)
    requires InHandler(w, j) && Keyed(w.s.rows) && Copies(w, st, hs) && Held(w) <= hs
    ensures Copies(WorkNext(w, j, reply), Stamp(st, w, Work(j, reply)), hs)
  {
    var w' := WorkNext(w, j, reply);
    var p := w.jobs[j].stage.phase;
    if p.Rereading? {
      RereadsTable(w, j, reply, st, hs);
    } else if p.Refreshing? && reply.Ok? {
      assert w'.jobs[j] == w.jobs[j].(stage := Acking);
      RefreshCopies(w, w', j, st, hs);
    } else {
      HandlerDrops(w, j, reply);
      DropCopies(w, w', st, hs);
    }
  }

  lemma RereadsTable(w: World, j: nat, reply: Reply, st: Stamps, hs: set<(Time, Task)>)
    requires InHandler(w, j) && w.jobs[j].stage.phase.Rereading? && Copies(w, st, hs) && Held(w) <= hs
    ensures Copies(WorkNext(w, j, reply), st.(reread := st.reread[j := w.now]), hs)
  {
    var w', id := WorkNext(w, j, reply), w.jobs[j].stage.phase.id;
    if w'.jobs[j].stage == Acking {
      DropCopies(w, w', st.(reread := st.reread[j := w.now]), hs);
    } else {
      assert (w.now, w.s.rows[id]) in Held(w);
      RereadCopies(w, w', j, w.s.rows[id], st, hs);
    }
  }

  lemma HandlerDrops(w: World, j: nat, reply: Reply)
    requires InHandler(w, j) && !w.jobs[j].stage.phase.Rereading?
    requires w.jobs[j].stage.phase.Refreshing? ==> reply.Err?
    ensures var w' := WorkNext(w, j, reply);
            && (forall id :: id in w'.s.cache ==> id in w.s.cache && w'.s.cache[id] == w.s.cache[id])
            && (forall o :: InHandler(w', o) && w'.jobs[o].stage.phase.Refreshing? ==>
                  InHandler(w, o) && w'.jobs[o].stage == w.jobs[o].stage)
  {
  }

  /** The job steps that touch neither requests nor cache. */
  lemma JobCopies(cfg: Config, w: World, l: Label, st: Stamps, hs: set<(Time, Task)>)
    requires Enabled(cfg, w, l) && JobLabel(l) && !l.Work? && Copies(w, st, hs)
    ensures Copies(JobNext(cfg, w, l), st, hs)
  {
    OtherHandlers(cfg, w, l);
    HandlersCopies(w, JobNext(cfg, w, l), st, hs);
  }

  lemma HandlersCopies(w: World, w': World, st: Stamps, hs: set<(Time, Task)>)
    requires Copies(w, st, hs) && w'.s == w.s && w'.requests == w.requests && HandlersOf(w, w')
    ensures Copies(w', st, hs)
  {
  }

  /** A reader takes a row from the cache or the table, or puts one into the cache. */
  lemma ReaderCopies(cfg: Config, w: World, l: Label, st: Stamps, hs: set<(Time, Task)>)
    requires Enabled(cfg, w, l) && (l.Read? || l.Load? || l.Fill?) && Keyed(w.s.rows)
    requires Copies(w, st, hs) && Held(w) <= hs
    ensures Copies(RequestNext(cfg, w, l), Stamp(st, w, l), hs)
  {
    match l
    case Read(r, _, _) => RequestCopies(w, RequestNext(cfg, w, l), r, At(Stamp(st, w, l).loaded, r), st, hs);
    case Load(r, _) =>
      var id := w.requests[r].id;
      assert id in w.s.rows ==> (w.now, w.s.rows[id]) in Held(w);
      RequestCopies(w, RequestNext(cfg, w, l), r, w.now, st, hs);
    case Fill(r, reply) => FillCopies(w, RequestNext(cfg, w, l), r, reply, st, hs);
  }

  lemma RequestCopies(w: World, w': World, r: nat, at: Time, st: Stamps, hs: set<(Time, Task)>)
    requires Copies(w, st, hs) && r in w'.requests && w' == w.(requests := w.requests[r := w'.requests[r]])
    requires var q := w'.requests[r]; q.Filling? || q.Answered? ==> q.row.id == q.id && (at, q.row) in hs
    ensures Copies(w', st.(loaded := st.loaded[r := at]), hs)
  {
  }

  lemma FillCopies(w: World, w': World, r: nat, reply: Reply, st: Stamps, hs: set<(Time, Task)>)
    requires Copies(w, st, hs) && r in w.requests && w.requests[r].Filling?
    requires var q := w.requests[r];
             w' == w.(requests := w.requests[r := Answered(q.id, q.row)],
                      s := w.s.(cache := if reply.Ok? then w.s.cache[q.row.id := q.row] else w.s.cache))
    ensures Copies(w', Stamp(st, w, Fill(r, reply)), hs)
  {
  }

  /** Other requests, sweeps and the environment only drop cached rows. */
  lemma OtherCopies(cfg: Config, w: World, l: Label, st: Stamps, hs: set<(Time, Task)>)
    requires Enabled(cfg, w, l) && !JobLabel(l) && !l.Read? && !l.Load? && !l.Fill? && Copies(w, st, hs)
    ensures Copies(Next(cfg, w, l), st, hs)
  {
    if RequestLabel(l) {
      WriterCopies(cfg, w, l, st, hs);
    } else {
      CacheDrops(cfg, w, l);
      DropCopies(w, Next(cfg, w, l), st, hs);
    }
  }

  /** Requests that create or delete a task have no row to put into the cache. */
  lemma WriterCopies(cfg: Config, w: World, l: Label, st: Stamps, hs: set<(Time, Task)>)
    requires Enabled(cfg, w, l) && RequestLabel(l) && !l.Read? && !l.Load? && !l.Fill? && Copies(w, st, hs)
    ensures Copies(RequestNext(cfg, w, l), st, hs)
  {
    var w' := RequestNext(cfg, w, l);
    assert forall r :: r != l.r && r in w'.requests ==> r in w.requests && w'.requests[r] == w.requests[r];
    assert !w'.requests[l.r].Filling? && !w'.requests[l.r].Answered?;
  }

  lemma CacheDrops(cfg: Config, w: World, l: Label)
    requires Enabled(cfg, w, l) && (SweepLabel(l) || EnvironmentLabel(l))
    ensures var w' := Next(cfg, w, l);
            && w'.jobs == w.jobs && w'.requests == w.requests
            && forall id :: id in w'.s.cache ==> id in w.s.cache && w'.s.cache[id] == w.s.cache[id]
  {
  }

  lemma StepCopies(cfg: Config, w: World, l: Label, st: Stamps, hs: set<(Time, Task)>)
    requires Enabled(cfg, w, l) && Keyed(w.s.rows) && Copies(w, st, hs) && Held(w) <= hs
    ensures Copies(Next(cfg, w, l), Stamp(st, w, l), hs)
  {
    if l.Work? {
      assert Next(cfg, w, l) == WorkNext(w, l.j, l.reply);
      HandlerCopies(w, l.j, l.reply, st, hs);
    } else if JobLabel(l) {
      assert Next(cfg, w, l) == JobNext(cfg, w, l);
      JobCopies(cfg, w, l, st, hs);
    } else if l.Read? || l.Load? || l.Fill? {
      assert Next(cfg, w, l) == RequestNext(cfg, w, l);
      ReaderCopies(cfg, w, l, st, hs);
    } else {
      OtherCopies(cfg, w, l, st, hs);
    }
  }

  ghost function Stamped(cfg: Config, w: World, run: seq<Label>, st: Stamps): Stamps
    requires Legal(cfg, w, run)
    decreases run
  {
    if run == [] then st else Stamped(cfg, Next(cfg, w, run[0]), run[1..], Stamp(st, w, run[0]))
  }

  lemma {:induction false} RunCopies(cfg: Config, w: World, run: seq<Label>, st: Stamps, hs: set<(Time, Task)>)
    requires Legal(cfg, w, run) && Sound(w) && Copies(w, st, hs)
    ensures Copies(After(cfg, w, run), Stamped(cfg, w, run, st), hs + EverHeld(cfg, w, run))
    decreases run
  {
    if run == [] {
      MoreCopies(w, st, hs, hs + EverHeld(cfg, w, run));
    } else {
      var w', more := Next(cfg, w, run[0]), hs + Held(w);
      MoreCopies(w, st, hs, more);
      StepCopies(cfg, w, run[0], st, more);
      StepSound(cfg, w, run[0]);
      RunCopies(cfg, w', run[1..], Stamp(st, w, run[0]), more);
      assert more + EverHeld(cfg, w', run[1..]) == hs + EverHeld(cfg, w, run);
    }
  }

  lemma MoreCopies(w: World, st: Stamps, hs: set<(Time, Task)>, more: set<(Time, Task)>)
    requires Copies(w, st, hs) && hs <= more
    ensures Copies(w, st, more)
  {
  }

  /** The table held this version of row `id` at some moment of the run. */
  ghost predicate WasHeld(cfg: Config, run: seq<Label>, id: TaskId, row: Task)
    requires Legal(cfg, EMPTY, run)
  {
    row.id == id && exists at :: (at, row) in EverHeld(cfg, EMPTY, run)
  }

  /**
   * In every interleaving of readers, writers, workers and reconcilers, each cached row and each answer of `Get` is a
   * version the table held for that id at some earlier moment.
   */
  lemma CacheNeverInvents(cfg: Config, run: seq<Label>)
    requires Legal(cfg, EMPTY, run)
    ensures var w := After(cfg, EMPTY, run);
            && (forall id :: id in w.s.cache ==> WasHeld(cfg, run, id, w.s.cache[id]))
            && (forall r :: r in w.requests && w.requests[r].Answered? ==>
                  WasHeld(cfg, run, w.requests[r].id, w.requests[r].row))
  {
    RunCopies(cfg, EMPTY, run, UNSTAMPED, {});
    assert {} + EverHeld(cfg, EMPTY, run) == EverHeld(cfg, EMPTY, run);
  }

  // ----- How old a cached row can be -----

  /** No cached row outlives its lifetime, and no row read from the table waits longer than `lag` to be cached. */
  ghost predicate Punctual(w: World, st: Stamps, lag: Time) {
    && (forall id :: id in w.s.cache ==> w.now <= At(st.filled, id) + CACHE_TTL)
    && (forall r :: r in w.requests && w.requests[r].Filling? ==> w.now <= At(st.loaded, r) + lag)
    && (forall j :: InHandler(w, j) && w.jobs[j].stage.phase.Refreshing? ==> w.now <= At(st.reread, j) + lag)
  }

  ghost predicate AlwaysPunctual(cfg: Config, w: World, run: seq<Label>, st: Stamps, lag: Time)
    requires Legal(cfg, w, run)
    decreases run
  {
    && Punctual(w, st, lag)
    && (run != [] ==> AlwaysPunctual(cfg, Next(cfg, w, run[0]), run[1..], Stamp(st, w, run[0]), lag))
  }

  /** Cached rows had been read at most `lag` before they were put there. */
  ghost predicate FreshlyFilled(w: World, st: Stamps, lag: Time) {
    forall id :: id in w.s.cache ==> At(st.filled, id) <= At(st.origin, id) + lag
  }

  lemma HandlerFills(w: World, j: nat, reply: Reply, st: Stamps, lag: Time)
    requires InHandler(w, j) && Punctual(w, st, lag) && FreshlyFilled(w, st, lag)
    ensures FreshlyFilled(WorkNext(w, j, reply), Stamp(st, w, Work(j, reply)), lag)
  {
    var p := w.jobs[j].stage.phase;
    if p.Refreshing? && reply.Ok? {
      RefreshFills(w, j, reply);
      OneFilled(w, WorkNext(w, j, reply), p.row.id, st, At(st.reread, j), lag);
    } else {
      NothingFilled(w, j, reply, st);
    }
  }

  lemma NothingFilled(w: World, j: nat, reply: Reply, st: Stamps)
    requires InHandler(w, j) && !(w.jobs[j].stage.phase.Refreshing? && reply.Ok?)
    ensures WorkNext(w, j, reply).s.cache.Keys <= w.s.cache.Keys
    ensures var st' := Stamp(st, w, Work(j, reply)); st'.filled == st.filled && st'.origin == st.origin
  {
    if w.jobs[j].stage.phase.Rereading? {
      assert WorkNext(w, j, reply).s == w.s;
    } else {
      HandlerDrops(w, j, reply);
    }
  }

  lemma RefreshFills(w: World, j: nat, reply: Reply)
    requires InHandler(w, j) && w.jobs[j].stage.phase.Refreshing?
    ensures WorkNext(w, j, reply).s.cache.Keys <= w.s.cache.Keys + {w.jobs[j].stage.phase.row.id}
  {
  }

  lemma OneFilled(w: World, w': World, id: TaskId, st: Stamps, origin: Time, lag: Time)
    requires FreshlyFilled(w, st, lag) && w'.s.cache.Keys <= w.s.cache.Keys + {id} && w.now <= origin + lag
    ensures FreshlyFilled(w', StampFill(st, id, w.now, origin), lag)
  {
  }

  lemma ReaderFills(cfg: Config, w: World, l: Label, st: Stamps, lag: Time)
    requires Enabled(cfg, w, l) && l.Fill? && Punctual(w, st, lag) && FreshlyFilled(w, st, lag)
    ensures FreshlyFilled(RequestNext(cfg, w, l), Stamp(st, w, l), lag)
  {
  }

  /** Nobody else adds to the cache. */
  lemma OthersDrop(cfg: Config, w: World, l: Label)
    requires Enabled(cfg, w, l) && !l.Work? && !l.Fill?
    ensures Next(cfg, w, l).s.cache.Keys <= w.s.cache.Keys
  {
  }

  lemma StepFills(cfg: Config, w: World, l: Label, st: Stamps, lag: Time)
    requires Enabled(cfg, w, l) && Punctual(w, st, lag) && FreshlyFilled(w, st, lag)
    ensures FreshlyFilled(Next(cfg, w, l), Stamp(st, w, l), lag)
  {
    if l.Work? {
      assert Next(cfg, w, l) == WorkNext(w, l.j, l.reply);
      HandlerFills(w, l.j, l.reply, st, lag);
    } else if l.Fill? {
      assert Next(cfg, w, l) == RequestNext(cfg, w, l);
      ReaderFills(cfg, w, l, st, lag);
    } else {
      OthersDrop(cfg, w, l);
    }
  }

  lemma {:induction false} RunFills(cfg: Config, w: World, run: seq<Label>, st: Stamps, lag: Time)
    requires Legal(cfg, w, run) && AlwaysPunctual(cfg, w, run, st, lag) && FreshlyFilled(w, st, lag)
    ensures var w', st' := After(cfg, w, run), Stamped(cfg, w, run, st);
            FreshlyFilled(w', st', lag) && Punctual(w', st', lag)
    decreases run
  {
    if run != [] {
      StepFills(cfg, w, run[0], st, lag);
      RunFills(cfg, Next(cfg, w, run[0]), run[1..], Stamp(st, w, run[0]), lag);
    }
  }

  /**
   * Freshness: in every interleaving, with any other failure, a cached row is one that the table held for its id at
   * most the lifetime of an entry and the longest wait before a fill ago.
   */
  lemma CachedIsRecent(cfg: Config, run: seq<Label>, lag: Time, id: TaskId) returns (at: Time)
    requires Legal(cfg, EMPTY, run) && AlwaysPunctual(cfg, EMPTY, run, UNSTAMPED, lag)
    requires id in After(cfg, EMPTY, run).s.cache
    ensures var w := After(cfg, EMPTY, run);
            && w.s.cache[id].id == id && (at, w.s.cache[id]) in EverHeld(cfg, EMPTY, run)
            && w.now - 300_000_000_000 - lag <= at
  {
    RunCopies(cfg, EMPTY, run, UNSTAMPED, {});
    assert {} + EverHeld(cfg, EMPTY, run) == EverHeld(cfg, EMPTY, run);
    RunFills(cfg, EMPTY, run, UNSTAMPED, lag);
    at := At(Stamped(cfg, EMPTY, run, UNSTAMPED).origin, id);
  }

  /** Since time `since` the table has held no version of row `id` but `row`. */
  ghost predicate UnchangedSince(cfg: Config, run: seq<Label>, since: Time, id: TaskId, row: Task)
    requires Legal(cfg, EMPTY, run)
  {
    forall at, v :: (at, v) in EverHeld(cfg, EMPTY, run) && v.id == id && since <= at ==> v == row
  }

  /** So an outdated row is gone from the cache that long after the row changed last, whatever put it there. */
  lemma OutdatedIsGone(cfg: Config, run: seq<Label>, lag: Time, since: Time, id: TaskId, row: Task)
    requires Legal(cfg, EMPTY, run) && AlwaysPunctual(cfg, EMPTY, run, UNSTAMPED, lag)
    requires UnchangedSince(cfg, run, since, id, row) && since + CACHE_TTL + lag <= After(cfg, EMPTY, run).now
    ensures var cache := After(cfg, EMPTY, run).s.cache; id in cache ==> cache[id] == row
  {
    if id in After(cfg, EMPTY, run).s.cache {
      var at := CachedIsRecent(cfg, run, lag, id);
    }
  }
}
