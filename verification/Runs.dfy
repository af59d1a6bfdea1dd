/** Runs of the pipeline, what a run may be restricted to, and what every run keeps. */
module Runs {
  import opened Tasks
  import opened Repository
  import opened Messages
  import opened Service
  import opened Summarizer
  import opened Consumers
  import opened Pipeline

  ghost predicate Legal(cfg: Config, w: World, run: seq<Label>)
    decreases run
  {
    run != [] ==> Enabled(cfg, w, run[0]) && Legal(cfg, Next(cfg, w, run[0]), run[1..])
  }

  ghost function After(cfg: Config, w: World, run: seq<Label>): World
    requires Legal(cfg, w, run)
    decreases run
  {
    if run == [] then w else After(cfg, Next(cfg, w, run[0]), run[1..])
  }

  // ----- Scopes -----

  /** The steps a run is restricted to. */
  datatype Scope =
    | AnyStep
    | Wired                                                // no publisher but the service itself
    | Team(n: nat)                                         // nor more than `n` deliveries being worked on at a time
    | Careful                                              // nor a failure between a write and its cache step
    | Routine                                              // time, sweeps, deliveries and handlers, and nothing else
    | Except(kind: Mishap, b: Body)                        // own messages, and no other mishap befalls message `b`
    | Alone(k: nat)                                        // only the clock and sweep `k` move
    | Prompt(since: Time, k: nat, ids: set<TaskId>)        // nothing fails that concerns sweep `k` or the tasks `ids`

  ghost predicate Allowed(sc: Scope, w: World, l: Label) {
    match sc
    case AnyStep => true
    case Wired => !l.Inject?
    case Team(n) => !l.Inject? && (l.Deliver? ==> |Busy(w)| < n)
    case Careful => !l.Inject? && Tidy(w, l)
    case Routine => l.Tick? || SweepLabel(l) || l.Deliver? || l.Work?
    case Except(kind, b) => !l.Inject? && NoOther(kind, w, l, b)
    case Alone(k) => l.Tick? || (SweepLabel(l) && l.k == k)
    case Prompt(since, k, ids) => PromptStep(w, l, since, k, ids)
  }

  /** What can happen to a message `b` on its way to a decision on its task. */
  datatype Mishap =
    | FailedClaim      // the claim of the task fails
    | FailedRelease    // the release of the marker fails
    | Crashed          // a handler crashes when it may have the marker
    | CutOff           // a handler that has not given up loses its connection
    | ForeignEvent     // something else is published under the same event id

  /** Handler `j` of message `b` is past its duplicate guard and its task not yet decided on; it may have the marker. */
  predicate InHands(w: World, j: nat, b: Body) {
    && InHandler(w, j) && w.jobs[j].msg.body == b
    && (match w.jobs[j].stage.phase
        case Claiming(_) => true
        case Claimed(_) => true
        case Asking(_) => true
        case Applying(_, _) => true
        case Releasing(_) => true
        case _ => false)
  }

  ghost predicate Happens(kind: Mishap, w: World, l: Label, b: Body) {
    match kind
    case FailedClaim => StepFails(w, l, b) && w.jobs[l.j].stage.phase.Claiming?
    case FailedRelease => StepFails(w, l, b) && w.jobs[l.j].stage.phase.Releasing?
    case Crashed => l.Crash? && InHands(w, l.j, b)
    case CutOff =>
      && l.Disconnect? && InHandler(w, l.j) && w.jobs[l.j].msg.body == b
      && (w.jobs[l.j].stage.phase == Fresh || InHands(w, l.j, b))
    case ForeignEvent => ForeignUse(w, l, b)
  }

  /** No mishap but one of this kind happens. */
  ghost predicate NoOther(kind: Mishap, w: World, l: Label, b: Body) {
    && (Happens(FailedClaim, w, l, b) ==> kind.FailedClaim?)
    && (Happens(FailedRelease, w, l, b) ==> kind.FailedRelease?)
    && (Happens(Crashed, w, l, b) ==> kind.Crashed?)
    && (Happens(CutOff, w, l, b) ==> kind.CutOff?)
    && (Happens(ForeignEvent, w, l, b) ==> kind.ForeignEvent?)
  }

  /** A call of a handler of `b` fails, or comes too late. */
  predicate StepFails(w: World, l: Label, b: Body) {
    && l.Work? && InHandler(w, l.j) && w.jobs[l.j].msg.body == b
    && InTime(Call(w.now, l.reply), w.jobs[l.j].deadline).Err?
  }

  /** The jobs that keep a worker busy: each handles and settles one delivery before it takes the next. */
  function Busy(w: World): set<nat> {
    set j | j in w.jobs && !w.jobs[j].stage.Parked?
  }

  /** The scopes that do not bind handlers as such. */
  predicate HandlersFree(sc: Scope) {
    !sc.Prompt? && !sc.Alone?
  }

  /** The scopes that let `n` workers go about their business. */
  predicate Serves(sc: Scope, n: nat) {
    sc.Wired? || sc.Careful? || (sc.Team? && n <= sc.n)
  }

  /** Cache writes and deletes and the re-read succeed, and nobody stops between a write and its cache step. */
  predicate Tidy(w: World, l: Label) {
    match l
    case Work(j, reply) =>
      InHandler(w, j) && CacheStep(w.jobs[j].stage.phase) ==>
        reply.Ok? && (w.jobs[j].stage.phase.Rereading? ==> w.now < w.jobs[j].deadline)
    case Crash(j) => !(InHandler(w, j) && CacheStep(w.jobs[j].stage.phase))
    case Evict(_, reply) => reply.Ok?
    case ClearRow(_, reply) => reply.Ok?
    case StopSweep(k) => !RowAt(w, k, Clear)
    case _ => true
  }

  predicate CacheStep(p: Phase) {
    p.Claimed? || p.Rereading? || p.Refreshing? || p.Clearing?
  }

  /** No message around and no marker has event id `e`. */
  ghost predicate Unused(w: World, e: EventId) {
    && e != "" && e !in w.s.markers
    && (forall m :: m in w.work ==> m.body.eventId != e)
    && (forall j :: j in w.jobs ==> w.jobs[j].msg.body.eventId != e)
  }

  /** Job `j` is handling a message about one of `ids`, and its time was not up at `since`. */
  predicate Minded(w: World, j: nat, since: Time, ids: set<TaskId>) {
    InHandler(w, j) && since < w.jobs[j].deadline && exists id :: id in ids && About(w.jobs[j].msg, id)
  }

  /**
   * New messages get event ids of their own; sweep `k` runs to its end without a failure; and the handlers of messages
   * about `ids` do not crash, run in time, and get an answer from every call. Handlers whose time was up at `since` may
   * linger and fail, and all the rest of the system may do as it likes.
   */
  ghost predicate PromptStep(w: World, l: Label, since: Time, k: nat, ids: set<TaskId>) {
    match l
    case Inject(m) => Unused(w, m.body.eventId)
    case Announce(_, e, _) => Unused(w, e)
    case SendRow(o, e, publish) => Unused(w, e) && (o == k ==> publish.Confirmed?)
    case ResetRow(o, reply) => o == k ==> reply.Ok?
    case StopSweep(o) => o == k && k in w.sweeps ==> w.sweeps[k].rest == []
    case Work(j, reply) => Minded(w, j, since, ids) ==> reply.Ok? && w.now < w.jobs[j].deadline
    case Crash(j) => !Minded(w, j, since, ids)
    case _ => true
  }

  ghost predicate Within(cfg: Config, sc: Scope, w: World, run: seq<Label>)
    requires Legal(cfg, w, run)
    decreases run
  {
    run != [] ==> Allowed(sc, w, run[0]) && Within(cfg, sc, Next(cfg, w, run[0]), run[1..])
  }

  /** Some run in the scope leads from `v` to `w`. */
  ghost predicate Leads(cfg: Config, sc: Scope, v: World, w: World) {
    exists run :: Legal(cfg, v, run) && Within(cfg, sc, v, run) && After(cfg, v, run) == w
  }

  /** The worlds the system can be in, whatever else publishes to its exchange. */
  ghost predicate Reachable(cfg: Config, w: World) {
    Leads(cfg, AnyStep, EMPTY, w)
  }

  /** The worlds the system reaches with its own messages only. */
  ghost predicate Deployed(cfg: Config, w: World) {
    Leads(cfg, Wired, EMPTY, w)
  }

  /** Those it reaches with `n` workers. */
  ghost predicate DeployedBy(cfg: Config, n: nat, w: World) {
    Leads(cfg, Team(n), EMPTY, w)
  }

  lemma {:induction false} Append(cfg: Config, sc: Scope, w: World, run: seq<Label>, l: Label)
    requires Legal(cfg, w, run) && Within(cfg, sc, w, run)
    requires Enabled(cfg, After(cfg, w, run), l) && Allowed(sc, After(cfg, w, run), l)
    ensures Legal(cfg, w, run + [l]) && Within(cfg, sc, w, run + [l])
    ensures After(cfg, w, run + [l]) == Next(cfg, After(cfg, w, run), l)
    decreases run
  {
    if run == [] {
      Cons(cfg, sc, w, l, []);
      assert run + [l] == [l] + [];
    } else {
      Append(cfg, sc, Next(cfg, w, run[0]), run[1..], l);
      Cons(cfg, sc, w, run[0], run[1..] + [l]);
      assert run + [l] == [run[0]] + (run[1..] + [l]);
    }
  }

  lemma Cons(cfg: Config, sc: Scope, w: World, l: Label, run: seq<Label>)
    requires Enabled(cfg, w, l) && Allowed(sc, w, l)
    requires Legal(cfg, Next(cfg, w, l), run) && Within(cfg, sc, Next(cfg, w, l), run)
    ensures Legal(cfg, w, [l] + run) && Within(cfg, sc, w, [l] + run)
    ensures After(cfg, w, [l] + run) == After(cfg, Next(cfg, w, l), run)
  {
    assert ([l] + run)[0] == l && ([l] + run)[1..] == run;
  }

  /** A run in a scope may be continued by another. */
  lemma {:induction false} Joined(cfg: Config, sc: Scope, v: World, w: World, more: seq<Label>)
    requires Leads(cfg, sc, v, w) && Legal(cfg, w, more) && Within(cfg, sc, w, more)
    ensures Leads(cfg, sc, v, After(cfg, w, more))
    decreases more
  {
    if more != [] {
      var w' := Take(cfg, sc, v, w, more[0]);
      Joined(cfg, sc, v, w', more[1..]);
    }
  }

  lemma {:induction false} AnyRun(cfg: Config, w: World, run: seq<Label>)
    requires Legal(cfg, w, run)
    ensures Within(cfg, AnyStep, w, run)
    decreases run
  {
    if run != [] {
      AnyRun(cfg, Next(cfg, w, run[0]), run[1..]);
    }
  }

  lemma StillReachable(cfg: Config, w: World, run: seq<Label>)
    requires Reachable(cfg, w) && Legal(cfg, w, run)
    ensures Reachable(cfg, After(cfg, w, run))
  {
    AnyRun(cfg, w, run);
    Joined(cfg, AnyStep, EMPTY, w, run);
  }

  lemma ScopeReachable(cfg: Config, sc: Scope, w: World)
    requires Leads(cfg, sc, EMPTY, w)
    ensures Reachable(cfg, w)
  {
    var run :| Legal(cfg, EMPTY, run) && Within(cfg, sc, EMPTY, run) && After(cfg, EMPTY, run) == w;
    AnyRun(cfg, EMPTY, run);
  }

  lemma Stay(cfg: Config, sc: Scope, w: World)
    ensures Leads(cfg, sc, w, w)
  {
    assert Legal(cfg, w, []) && Within(cfg, sc, w, []) && After(cfg, w, []) == w;
  }

  /** One more step of a run that started in `v`. */
  lemma Take(cfg: Config, sc: Scope, v: World, w: World, l: Label) returns (w': World)
    requires Leads(cfg, sc, v, w) && Enabled(cfg, w, l) && Allowed(sc, w, l)
    ensures w' == Next(cfg, w, l) && Leads(cfg, sc, v, w')
  {
    w' := Next(cfg, w, l);
    var run :| Legal(cfg, v, run) && Within(cfg, sc, v, run) && After(cfg, v, run) == w;
    Append(cfg, sc, v, run, l);
  }

  // ----- One worker's steps -----

  lemma TakeWork(cfg: Config, sc: Scope, v: World, w: World, j: nat, reply: Reply) returns (w': World)
    requires Leads(cfg, sc, v, w) && InHandler(w, j) && Allowed(sc, w, Work(j, reply))
    ensures w' == WorkNext(w, j, reply) && Leads(cfg, sc, v, w')
  {
    assert Next(cfg, w, Work(j, reply)) == WorkNext(w, j, reply);
    w' := Take(cfg, sc, v, w, Work(j, reply));
  }

  lemma TakeDelivery(cfg: Config, sc: Scope, v: World, w: World, j: nat, m: Message) returns (w': World)
    requires Leads(cfg, sc, v, w) && j !in w.jobs && m in w.work && Allowed(sc, w, Deliver(j, m))
    ensures w' == Delivered(w, j, m) && Leads(cfg, sc, v, w')
  {
    assert Next(cfg, w, Deliver(j, m)) == Delivered(w, j, m);
    w' := Take(cfg, sc, v, w, Deliver(j, m));
  }

  function AtStage(w: World, j: nat, stage: Stage): World
    requires j in w.jobs
  {
    w.(jobs := w.jobs[j := w.jobs[j].(stage := stage)])
  }

  /** A handler with an unmarked event gets past the duplicate guard. */
  lemma PassesGuard(cfg: Config, sc: Scope, v: World, w: World, j: nat, e: EventId, id: TaskId) returns (w': World)
    requires HandlersFree(sc) && Leads(cfg, sc, v, w) && InHandler(w, j) && w.jobs[j].stage.phase == Fresh
    requires e != "" && e !in w.s.markers
    requires var b := w.jobs[j].msg.body; b.eventId == e && b.content.Created? && b.content.taskId == id
    ensures Leads(cfg, sc, v, w')
    ensures w' == AtStage(w, j, Handling(Claiming(id))).(s := w.s.(markers := w.s.markers + {e}))
  {
    GuardPassed(w.s, w.jobs[j].msg.body, id);
    w' := TakeWork(cfg, sc, v, w, j, Ok(""));
  }

  lemma GuardPassed(s: Stores, b: Body, id: TaskId)
    requires b.content.Created? && b.content.taskId == id && b.eventId != "" && b.eventId !in s.markers
    ensures StepFresh(s, b, Ok("")) == (s.(markers := s.markers + {b.eventId}), Claiming(id))
  {
  }

  /** It claims a pending task in time. */
  lemma WinsClaim(cfg: Config, sc: Scope, v: World, w: World, j: nat, id: TaskId) returns (w': World)
    requires HandlersFree(sc) && Leads(cfg, sc, v, w) && InHandler(w, j) && w.jobs[j].stage.phase == Claiming(id)
    requires Claimable(w.s.rows, id) && w.now < w.jobs[j].deadline
    ensures Leads(cfg, sc, v, w')
    ensures w' == w.(s := w.s.(rows := StatusWritten(w.s.rows, id, Processing, "", w.now)),
                     jobs := w.jobs[j := w.jobs[j].(stage := Handling(Claimed(id)), claimedAt := w.now)])
  {
    w' := TakeWork(cfg, sc, v, w, j, Ok(""));
  }

  /** Message `m` about a pending task has reached a new worker, which has claimed the task. */
  function WithClaim(w: World, j: nat, m: Message): World
    requires m.body.content.Created? && m.body.content.taskId in w.s.rows
  {
    var id := m.body.content.taskId;
    w.(work := w.work - multiset{m},
       s := w.s.(rows := StatusWritten(w.s.rows, id, Processing, "", w.now),
                 markers := w.s.markers + {m.body.eventId}),
       jobs := w.jobs[j := Job(m, Handling(Claimed(id)), w.now + HANDLER_LIMIT, w.now, true)])
  }

  lemma NewWorkerClaims(cfg: Config, sc: Scope, v: World, w: World, j: nat, m: Message) returns (w': World)
    requires HandlersFree(sc) && Leads(cfg, sc, v, w) && j !in w.jobs && m in w.work && Allowed(sc, w, Deliver(j, m))
    requires m.body.content.Created? && m.body.eventId != "" && m.body.eventId !in w.s.markers
    requires Claimable(w.s.rows, m.body.content.taskId)
    ensures Leads(cfg, sc, v, w') && w' == WithClaim(w, j, m)
  {
    var id := m.body.content.taskId;
    var w1 := TakeDelivery(cfg, sc, v, w, j, m);
    var w2 := PassesGuard(cfg, sc, v, w1, j, m.body.eventId, id);
    GuardedDelivery(w, j, m);
    w' := WinsClaim(cfg, sc, v, w2, j, id);
    ClaimedDelivery(w, w', j, m);
  }

  /** A delivery that has passed the guard. */
  function AtItsClaim(w: World, j: nat, m: Message): World
    requires m.body.content.Created?
  {
    w.(work := w.work - multiset{m}, s := w.s.(markers := w.s.markers + {m.body.eventId}),
       jobs := w.jobs[j := Job(m, Handling(Claiming(m.body.content.taskId)), w.now + HANDLER_LIMIT, w.now, true)])
  }

  lemma GuardedDelivery(w: World, j: nat, m: Message)
    requires m.body.content.Created?
    ensures var w1 := Delivered(w, j, m);
            AtStage(w1, j, Handling(Claiming(m.body.content.taskId)))
              .(s := w1.s.(markers := w1.s.markers + {m.body.eventId})) == AtItsClaim(w, j, m)
  {
  }

  lemma ClaimedDelivery(w: World, w': World, j: nat, m: Message)
    requires m.body.content.Created? && m.body.content.taskId in w.s.rows
    requires var v, id := AtItsClaim(w, j, m), m.body.content.taskId;
             w' == v.(s := v.s.(rows := StatusWritten(v.s.rows, id, Processing, "", v.now)),
                      jobs := v.jobs[j := v.jobs[j].(stage := Handling(Claimed(id)), claimedAt := v.now)])
    ensures w' == WithClaim(w, j, m)
  {
    assert w'.jobs == WithClaim(w, j, m).jobs;
  }

  /** It drops the cached row and asks the LLM. */
  lemma GoesAsking(cfg: Config, sc: Scope, v: World, w: World, j: nat, id: TaskId) returns (w': World)
    requires HandlersFree(sc) && Leads(cfg, sc, v, w) && InHandler(w, j) && w.jobs[j].stage.phase == Claimed(id)
    ensures Leads(cfg, sc, v, w')
    ensures w' == AtStage(w, j, Handling(Asking(id))).(s := w.s.(cache := w.s.cache - {id}))
  {
    w' := TakeWork(cfg, sc, v, w, j, Ok(""));
  }

  /** The LLM comes back. */
  lemma HearsBack(cfg: Config, sc: Scope, v: World, w: World, j: nat, id: TaskId, reply: Reply) returns (w': World)
    requires HandlersFree(sc) && Leads(cfg, sc, v, w) && InHandler(w, j) && w.jobs[j].stage.phase == Asking(id)
    ensures Leads(cfg, sc, v, w')
    ensures w' == AtStage(w, j, Handling(if reply.Ok? then Applying(id, reply.text) else Releasing(id)))
  {
    w' := TakeWork(cfg, sc, v, w, j, reply);
  }

  /** The answer is recorded in time. */
  lemma RecordsAnswer(cfg: Config, sc: Scope, v: World, w: World, j: nat, id: TaskId, text: string) returns (w': World)
    requires HandlersFree(sc) && Leads(cfg, sc, v, w) && InHandler(w, j) && w.jobs[j].stage.phase == Applying(id, text)
    requires id in w.s.rows && w.now < w.jobs[j].deadline
    ensures Leads(cfg, sc, v, w')
    ensures w' == AtStage(w, j, Handling(Rereading(id)))
                    .(s := w.s.(rows := StatusWritten(w.s.rows, id, Completed, text, w.now)))
  {
    w' := TakeWork(cfg, sc, v, w, j, Ok(""));
  }

  /** After a failure the handler gives the marker back and is about to reset the row. */
  lemma GivesMarkerBack(cfg: Config, sc: Scope, v: World, w: World, j: nat, id: TaskId) returns (w': World)
    requires HandlersFree(sc) && Leads(cfg, sc, v, w) && InHandler(w, j) && w.jobs[j].stage.phase == Releasing(id)
    requires Allowed(sc, w, Work(j, Ok("")))
    ensures Leads(cfg, sc, v, w')
    ensures w' == AtStage(w, j, Handling(Resetting(id))).(s := w.s.(markers := w'.s.markers))
  {
    w' := TakeWork(cfg, sc, v, w, j, Ok(""));
  }

  /** There is always an event id that nobody used: one longer than all of them. */
  lemma {:induction false} FreshEvent(es: set<EventId>) returns (e: EventId)
    ensures e != "" && forall x :: x in es ==> |x| < |e|
  {
    if es == {} {
      e := "e";
    } else {
      var x :| x in es;
      var l := FreshEvent(es - {x});
      e := l + x;
    }
  }

  /** Task 0 is created at time 0 and announced by message `m`. */
  lemma FirstTask(cfg: Config, sc: Scope) returns (w: World, t: Task, m: Message)
    requires Serves(sc, 0)
    ensures Leads(cfg, sc, EMPTY, w) && w.now == 0 && t == NewTask(0, "t", "", 0) && w.s.rows == map[0 := t]
    ensures w.s.cache == map[] && w.s.markers == {} && w.jobs == map[] && w.sweeps == map[]
    ensures w.work == multiset{m} && w.dlq == multiset{} && w.requests.Keys == {0}
    ensures About(m, 0) && m.retries == Absent && m.body.eventId != "" && w.requests[0] == Over
    ensures w.s.issued == {0}
  {
    var e := FreshEvent({});
    Stay(cfg, sc, EMPTY);
    w := Take(cfg, sc, EMPTY, EMPTY, Insert(0, 0, "t", ""));
    t := w.s.rows[0];
    m := Announcement(e, t);
    w := Take(cfg, sc, EMPTY, w, Announce(0, e, Confirmed));
  }

  /** A worker takes a message about a pending task and claims it. */
  lemma ServesClaim(cfg: Config, sc: Scope, w: World, j: nat, m: Message) returns (w': World)
    requires Serves(sc, |w.jobs| + 1) && Leads(cfg, sc, EMPTY, w) && j !in w.jobs && m in w.work
    requires m.body.content.Created? && m.body.eventId != "" && m.body.eventId !in w.s.markers
    requires Claimable(w.s.rows, m.body.content.taskId)
    ensures Leads(cfg, sc, EMPTY, w') && w' == WithClaim(w, j, m)
  {
    SubsetSize(Busy(w), w.jobs.Keys);
    assert |w.jobs.Keys| == |w.jobs|;
    w' := NewWorkerClaims(cfg, sc, EMPTY, w, j, m);
  }

  // ----- The clock's and one sweep's steps -----

  lemma TakeTick(cfg: Config, sc: Scope, v: World, w: World, d: nat) returns (w': World)
    requires Leads(cfg, sc, v, w) && Allowed(sc, w, Tick(d))
    ensures Leads(cfg, sc, v, w') && w' == w.(now := w.now + d)
  {
    w' := Take(cfg, sc, v, w, Tick(d));
  }

  lemma TakeSnapshot(cfg: Config, sc: Scope, v: World, w: World, k: nat, picked: seq<Task>) returns (w': World)
    requires Leads(cfg, sc, v, w) && Allowed(sc, w, Snapshot(k, w.now, picked)) && k < cfg.replicas && k !in w.sweeps
    requires StaleBatch(w.s.rows, w.now - cfg.pendingGrace, w.now - cfg.processingTimeout, cfg.batchSize, picked)
    ensures Leads(cfg, sc, v, w') && w' == w.(sweeps := w.sweeps[k := Sweep(picked, FirstStage(picked))])
  {
    SnapshotNext(cfg, w, k, picked);
    w' := Take(cfg, sc, v, w, Snapshot(k, w.now, picked));
  }

  lemma TakeReset(cfg: Config, sc: Scope, v: World, w: World, k: nat) returns (w': World)
    requires Leads(cfg, sc, v, w) && Allowed(sc, w, ResetRow(k, Ok("")))
    requires RowAt(w, k, Reset) && Row(w, k).id in w.s.rows
    ensures Leads(cfg, sc, v, w')
    ensures w' == w.(s := w.s.(rows := StatusWritten(w.s.rows, Row(w, k).id, Pending, "", w.now)),
                     sweeps := w.sweeps[k := w.sweeps[k].(stage := Clear)])
  {
    ResetNext(cfg, w, k, Ok(""));
    w' := Take(cfg, sc, v, w, ResetRow(k, Ok("")));
  }

  lemma TakeClear(cfg: Config, sc: Scope, v: World, w: World, k: nat) returns (w': World)
    requires Leads(cfg, sc, v, w) && Allowed(sc, w, ClearRow(k, Ok(""))) && RowAt(w, k, Clear)
    ensures Leads(cfg, sc, v, w')
    ensures w' == w.(s := w.s.(cache := Invalidated(w.s.cache, Row(w, k).id, Ok(""))),
                     sweeps := w.sweeps[k := w.sweeps[k].(stage := Send)])
  {
    ClearNext(cfg, w, k, Ok(""));
    w' := Take(cfg, sc, v, w, ClearRow(k, Ok("")));
  }

  lemma TakeSend(cfg: Config, sc: Scope, v: World, w: World, k: nat, e: EventId, publish: Publish) returns (w': World)
    requires Leads(cfg, sc, v, w) && Allowed(sc, w, SendRow(k, e, publish)) && RowAt(w, k, Send)
    ensures Leads(cfg, sc, v, w')
    ensures w' == Onward(Published(w, Announcement(e, Row(w, k)), publish), k)
  {
    SendNext(cfg, w, k, e, publish);
    w' := Take(cfg, sc, v, w, SendRow(k, e, publish));
  }

  // ----- Tasks and messages over steps -----

  /** Task `id` is live and unfinished. */
  predicate Waiting(w: World, id: TaskId) {
    id in w.s.rows && Unfinished(w.s.rows[id])
  }

  /** Task `id` is finished or deleted. */
  predicate Done(w: World, id: TaskId) {
    id in w.s.issued && !Waiting(w, id)
  }

  /** All messages with the event id of `b` have body `b`. */
  ghost predicate SoleBody(w: World, b: Body) {
    && (forall m :: m in w.work && m.body.eventId == b.eventId ==> m.body == b)
    && (forall j :: j in w.jobs && w.jobs[j].msg.body.eventId == b.eventId ==> w.jobs[j].msg.body == b)
  }

  /** The step publishes something else under the event id of `b`. */
  ghost predicate ForeignUse(w: World, l: Label, b: Body) {
    || (l.Inject? && l.m.body.eventId == b.eventId && l.m.body != b)
    || (l.Announce? && l.r in w.requests && w.requests[l.r].Announcing? && l.e == b.eventId
        && Announcement(l.e, w.requests[l.r].t).body != b)
    || (l.SendRow? && RowAt(w, l.k, Send) && l.e == b.eventId && Announcement(l.e, Row(w, l.k)).body != b)
  }

  /** A job keeps its message and its deadline; only a delivery makes a new one. */
  lemma JobsStay(cfg: Config, w: World, l: Label)
    requires Enabled(cfg, w, l)
    ensures var w' := Next(cfg, w, l);
            forall o :: o in w'.jobs ==>
              || (o in w.jobs && w'.jobs[o].msg == w.jobs[o].msg && w'.jobs[o].deadline == w.jobs[o].deadline)
              || (l.Deliver? && o == l.j && w'.jobs[o].msg == l.m && w'.jobs[o].deadline == w.now + HANDLER_LIMIT)
  {
    if l.Settle? {
      SettlingJobs(w, l.j, l.reply);
    } else if JobLabel(l) {
      match l
      case Deliver(_, _) =>
      case Work(_, _) =>
      case Disconnect(_) =>
      case Crash(_) =>
    }
  }

  /** A job's step puts at most a copy of its own message on the queue. */
  lemma QueueStays(cfg: Config, w: World, l: Label)
    requires Enabled(cfg, w, l) && JobLabel(l)
    ensures forall m :: m in JobNext(cfg, w, l).work ==>
              m in w.work || (l.j in w.jobs && m.body == w.jobs[l.j].msg.body)
  {
    match l
    case Deliver(_, _) =>
    case Work(_, _) =>
    case Settle(j, reply) => SettlingQueue(w, j, reply);
    case Disconnect(_) =>
    case Crash(_) =>
  }

  lemma SettlingQueue(w: World, j: nat, reply: Reply)
    requires j in w.jobs && !w.jobs[j].stage.Handling?
    ensures forall m :: m in SettleNext(w, j, reply).work ==> m in w.work || m.body == w.jobs[j].msg.body
  {
  }

  /** Whoever publishes, it is `b`, or something under another event id. */
  lemma PublishStays(cfg: Config, w: World, l: Label, b: Body)
    requires Enabled(cfg, w, l) && !JobLabel(l) && !ForeignUse(w, l, b)
    ensures Next(cfg, w, l).jobs == w.jobs
    ensures forall m :: m in Next(cfg, w, l).work ==> m in w.work || m.body == b || m.body.eventId != b.eventId
  {
    if RequestLabel(l) {
      assert Next(cfg, w, l) == RequestNext(cfg, w, l);
    } else if SweepLabel(l) {
      assert Next(cfg, w, l) == SweepNext(cfg, w, l);
    }
  }

  lemma SoleStays(cfg: Config, w: World, l: Label, b: Body)
    requires Enabled(cfg, w, l) && SoleBody(w, b) && !ForeignUse(w, l, b)
    ensures SoleBody(Next(cfg, w, l), b)
  {
    if JobLabel(l) {
      JobsStay(cfg, w, l);
      QueueStays(cfg, w, l);
      JobSole(w, Next(cfg, w, l), l, b);
    } else {
      PublishStays(cfg, w, l, b);
    }
  }

  lemma JobSole(w: World, w': World, l: Label, b: Body)
    requires JobLabel(l) && SoleBody(w, b) && (l.Deliver? ==> l.m in w.work)
    requires forall m :: m in w'.work ==> m in w.work || (l.j in w.jobs && m.body == w.jobs[l.j].msg.body)
    requires forall o :: o in w'.jobs ==>
               (o in w.jobs && w'.jobs[o].msg == w.jobs[o].msg) || (l.Deliver? && w'.jobs[o].msg == l.m)
    ensures SoleBody(w', b)
  {
  }

  // ----- What every run keeps -----

  /**
   * Every row is filed under its recorded key, was never updated before its creation or after now, and never failed.
   */
  ghost predicate TableSound(w: World) {
    && Keyed(w.s.rows) && w.s.rows.Keys <= w.s.issued
    && forall id :: id in w.s.rows ==>
         w.s.rows[id].createdAt <= w.s.rows[id].updatedAt <= w.now && w.s.rows[id].status != Failed
  }

  /** The handler is past its duplicate guard and works on task `id`. */
  predicate WorksOn(p: Phase, id: TaskId) {
    !p.Fresh? && !p.Refreshing? && !p.Returned? && p.id == id
  }

  /** Handlers work on the task that their message is about. */
  ghost predicate HandlersMatch(w: World) {
    forall j, id :: InHandler(w, j) && WorksOn(w.jobs[j].stage.phase, id) ==> About(w.jobs[j].msg, id)
  }

  /** No context lives longer than the handler limit from now. */
  ghost predicate Timely(w: World) {
    forall j :: j in w.jobs ==> w.jobs[j].deadline <= w.now + HANDLER_LIMIT
  }

  ghost predicate Sound(w: World) {
    TableSound(w) && HandlersMatch(w) && Timely(w)
  }

  lemma StepSound(cfg: Config, w: World, l: Label)
    requires Enabled(cfg, w, l) && Sound(w)
    ensures Sound(Next(cfg, w, l))
  {
    StepRewrites(cfg, w, l);
    RowsSound(w, l, Next(cfg, w, l));
    StepMatches(cfg, w, l);
    StepTimely(cfg, w, l);
  }

  lemma StepTimely(cfg: Config, w: World, l: Label)
    requires Enabled(cfg, w, l) && Timely(w)
    ensures Timely(Next(cfg, w, l))
  {
    JobsStay(cfg, w, l);
  }

  lemma RowsSound(w: World, l: Label, w': World)
    requires TableSound(w) && TableRewritten(w, l, w') && w.now <= w'.now
    ensures TableSound(w')
  {
  }

  lemma StepMatches(cfg: Config, w: World, l: Label)
    requires Enabled(cfg, w, l) && HandlersMatch(w)
    ensures HandlersMatch(Next(cfg, w, l))
  {
    if l.Work? {
      WorkMatches(w, l.j, l.reply);
    } else {
      OtherHandlers(cfg, w, l);
    }
  }

  lemma WorkMatches(w: World, j: nat, reply: Reply)
    requires InHandler(w, j) && HandlersMatch(w)
    ensures HandlersMatch(WorkNext(w, j, reply))
  {
    var p := w.jobs[j].stage.phase;
    var p' := HandlerStep(w, j, reply).1;
    assert forall id :: WorksOn(p', id) ==> WorksOn(p, id) || About(w.jobs[j].msg, id);
  }

  /** Settling changes no handler. */
  lemma SettlingHandlers(w: World, j: nat, reply: Reply)
    requires j in w.jobs && !w.jobs[j].stage.Handling?
    ensures var w' := SettleNext(w, j, reply);
            forall o :: InHandler(w', o) <==> InHandler(w, o) && o in w'.jobs && w'.jobs[o] == w.jobs[o]
    ensures var w' := SettleNext(w, j, reply); forall o :: InHandler(w, o) ==> o in w'.jobs
  {
  }

  /** It keeps what the jobs are about. */
  lemma SettlingJobs(w: World, j: nat, reply: Reply)
    requires j in w.jobs && !w.jobs[j].stage.Handling?
    ensures var w' := SettleNext(w, j, reply);
            forall o :: o in w'.jobs ==>
              && o in w.jobs && w'.jobs[o].msg == w.jobs[o].msg && w'.jobs[o].deadline == w.jobs[o].deadline
  {
  }

  /** The handlers of `w'` are those of `w`, unchanged, and fresh ones. */
  ghost predicate HandlersOf(w: World, w': World) {
    forall j :: InHandler(w', j) ==>
      || w'.jobs[j].stage == Handling(Fresh)
      || (InHandler(w, j) && w'.jobs[j].stage == w.jobs[j].stage && w'.jobs[j].msg == w.jobs[j].msg
          && w'.jobs[j].deadline == w.jobs[j].deadline)
  }

  /** Only its own steps change a handler. */
  lemma OtherHandlers(cfg: Config, w: World, l: Label)
    requires Enabled(cfg, w, l) && !l.Work?
    ensures HandlersOf(w, Next(cfg, w, l))
  {
    if l.Settle? {
      SettlingHandlers(w, l.j, l.reply);
    } else if JobLabel(l) {
      match l
      case Deliver(_, _) =>
      case Disconnect(_) =>
      case Crash(_) =>
    }
  }

  lemma {:induction false} RunSound(cfg: Config, w: World, run: seq<Label>)
    requires Legal(cfg, w, run) && Sound(w)
    ensures Sound(After(cfg, w, run))
    decreases run
  {
    if run != [] {
      StepSound(cfg, w, run[0]);
      RunSound(cfg, Next(cfg, w, run[0]), run[1..]);
    }
  }

  lemma LeadsSound(cfg: Config, sc: Scope, v: World, w: World)
    requires Leads(cfg, sc, v, w) && Sound(v)
    ensures Sound(w)
  {
    var run :| Legal(cfg, v, run) && Within(cfg, sc, v, run) && After(cfg, v, run) == w;
    RunSound(cfg, v, run);
  }

  /** In every run: created_at <= updated_at <= now, no row failed, handlers work on what they were told. */
  lemma ReachableSound(cfg: Config, w: World)
    requires Reachable(cfg, w)
    ensures Sound(w)
  {
    LeadsSound(cfg, AnyStep, EMPTY, w);
  }

  // ----- Keys and creation times -----

  lemma {:induction false} GoneForGood(cfg: Config, w: World, run: seq<Label>, id: TaskId)
    requires Legal(cfg, w, run) && Sound(w) && id in w.s.issued && id !in w.s.rows
    ensures id !in After(cfg, w, run).s.rows
    decreases run
  {
    if run != [] {
      StepSound(cfg, w, run[0]);
      StepRewrites(cfg, w, run[0]);
      GoneForGood(cfg, Next(cfg, w, run[0]), run[1..], id);
    }
  }

  lemma {:induction false} IssuedGrows(cfg: Config, w: World, run: seq<Label>)
    requires Legal(cfg, w, run) && Sound(w)
    ensures w.s.issued <= After(cfg, w, run).s.issued
    decreases run
  {
    if run != [] {
      StepSound(cfg, w, run[0]);
      StepRewrites(cfg, w, run[0]);
      IssuedGrows(cfg, Next(cfg, w, run[0]), run[1..]);
    }
  }

  /** A row that is still there was created when it was created. */
  lemma {:induction false} CreatedKept(cfg: Config, w: World, run: seq<Label>, id: TaskId)
    requires Legal(cfg, w, run) && Sound(w) && id in w.s.rows && id in After(cfg, w, run).s.rows
    ensures After(cfg, w, run).s.rows[id].createdAt == w.s.rows[id].createdAt
    decreases run
  {
    if run != [] {
      var w' := Next(cfg, w, run[0]);
      StepSound(cfg, w, run[0]);
      StepRewrites(cfg, w, run[0]);
      if id !in w'.s.rows {
        GoneForGood(cfg, w', run[1..], id);
        assert false;
      }
      CreatedKept(cfg, w', run[1..], id);
    }
  }
}
