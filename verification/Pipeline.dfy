/**
 * The whole asynchronous pipeline as one labelled transition system: HTTP requests, workers, consumers and
 * reconcilers interleave one external effect at a time, with crashes, lost connections, lost publishes and Redis
 * losing keys between any two of them. A label carries all the nondeterminism of its step.
 */
module Pipeline {
  import opened Tasks
  import opened Repository
  import opened Messages
  import opened Service
  import opened Summarizer
  import opened Consumers

  /** The reconciler settings and how many replicas run one. */
  datatype Config = Config(pendingGrace: Time, processingTimeout: Time, batchSize: nat, replicas: nat)

  /** What `reconciler.New` makes sure of. */
  predicate Configured(cfg: Config) {
    0 < cfg.pendingGrace && 0 < cfg.processingTimeout && 0 < cfg.batchSize
  }

  /** An HTTP request in progress, by what comes next. */
  datatype Request =
    | Announcing(t: Task)             // Create: publish
    | Loading(id: TaskId)             // Get: read the table
    | Filling(id: TaskId, row: Task)  // Get: put the row read into the cache
    | Evicting(id: TaskId)            // Delete: drop the cached row
    | Answered(id: TaskId, row: Task) // Get is over
    | Over

  /** A consumer with one delivery: in its handler, or settling. */
  datatype Stage =
    | Handling(phase: Phase)
    | Acking
    | Retrying
    | Rejecting
    | Parked                      // settling failed: unacknowledged until the connection goes

  /** `held`: the delivery is still this consumer's; `claimedAt` is set when the handler claims its task. */
  datatype Job = Job(msg: Message, stage: Stage, deadline: Time, claimedAt: Time, held: bool)

  /** What comes next for the first row of a sweep's snapshot. */
  datatype RowStage = Reset | Clear | Send

  /** A sweep in progress. */
  datatype Sweep = Sweep(rest: seq<Task>, stage: RowStage)

  datatype World = World(
    now: Time,
    s: Stores,
    work: multiset<Message>,
    dlq: multiset<Message>,
    requests: map<nat, Request>,
    jobs: map<nat, Job>,
    sweeps: map<nat, Sweep>)

  datatype Label =
    // environment
    | Tick(d: nat)
    | Inject(m: Message)                                             // any other publisher to the exchange
    | ExpireRow(id: TaskId)
    | ExpireMarker(e: EventId)
    // HTTP requests
    | Insert(r: nat, id: TaskId, title: string, description: string) // Create: store the row
    | Announce(r: nat, e: EventId, publish: Publish)
    | Read(r: nat, id: TaskId, reply: Reply)                         // Get: read the cache
    | Load(r: nat, reply: Reply)
    | Fill(r: nat, reply: Reply)
    | Remove(r: nat, id: TaskId)                                     // Delete: drop the row
    | Evict(r: nat, reply: Reply)
    // consumers and their handlers
    | Deliver(j: nat, m: Message)
    | Work(j: nat, reply: Reply)
    | Settle(j: nat, reply: Reply)
    | Disconnect(j: nat)
    | Crash(j: nat)
    // reconcilers
    | Snapshot(k: nat, at: Time, picked: seq<Task>)
    | ResetRow(k: nat, reply: Reply)
    | ClearRow(k: nat, reply: Reply)
    | SendRow(k: nat, e: EventId, publish: Publish)
    | StopSweep(k: nat)

  const EMPTY := World(0, Stores(map[], {}, map[], {}), multiset{}, multiset{}, map[], map[], map[])

  // ----- Requests -----

  function WithRequest(w: World, r: nat, q: Request): World {
    w.(requests := w.requests[r := q])
  }

  function Published(w: World, m: Message, p: Publish): World {
    if p.Lost? then w else w.(work := w.work + multiset{m})
  }

  // ----- Jobs -----

  predicate InHandler(w: World, j: nat) {
    j in w.jobs && w.jobs[j].stage.Handling?
  }

  /** A message goes to a new job, whose handler gets a deadline. */
  function Delivered(w: World, j: nat, m: Message): World {
    w.(work := w.work - multiset{m}, jobs := w.jobs[j := Job(m, Handling(Fresh), w.now + HANDLER_LIMIT, w.now, true)])
  }

  /** The handler step of job `j` that a `Work` label takes. */
  function HandlerStep(w: World, j: nat, reply: Reply): (Stores, Phase)
    requires InHandler(w, j)
  {
    var job := w.jobs[j];
    Step(w.s, job.stage.phase, job.msg.body, job.deadline, Call(w.now, reply))
  }

  /** Where the consumer goes once the handler has taken its step. */
  function StageAfter(p: Phase, m: Message): Stage {
    if !p.Returned? then Handling(p)
    else if p.ok then Acking
    else if RetryCount(m.retries) >= MAX_RETRIES then Rejecting
    else Retrying
  }

  function WorkNext(w: World, j: nat, reply: Reply): (w': World)
    requires InHandler(w, j)
    ensures w'.requests == w.requests && w'.sweeps == w.sweeps && w'.now == w.now && w'.work == w.work
    ensures w'.dlq == w.dlq
  {
    var job := w.jobs[j];
    var (s', p') := HandlerStep(w, j, reply);
    var won := job.stage.phase.Claiming? && p'.Claimed?;
    w.(s := s', jobs := w.jobs[j := job.(stage := StageAfter(p', job.msg),
                                        claimedAt := if won then w.now else job.claimedAt)])
  }

  /** A settling call works only while the delivery is held; a parked delivery waits. */
  function SettleNext(w: World, j: nat, reply: Reply): (w': World)
    requires j in w.jobs && !w.jobs[j].stage.Handling?
    ensures w'.requests == w.requests && w'.sweeps == w.sweeps && w'.now == w.now && w'.s == w.s
    ensures w.work <= w'.work && w.dlq <= w'.dlq
  {
    var job := w.jobs[j];
    var works := reply.Ok? && job.held;
    match job.stage
    case Acking =>
      if works then w.(jobs := w.jobs - {j}) else w.(jobs := w.jobs[j := job.(stage := Parked)])
    case Retrying =>
      if works then w.(work := w.work + multiset{Bumped(job.msg)}, jobs := w.jobs[j := job.(stage := Acking)])
      else w.(jobs := w.jobs[j := job.(stage := Rejecting)])
    case Rejecting =>
      if works then w.(dlq := w.dlq + multiset{job.msg}, jobs := w.jobs - {j})
      else w.(jobs := w.jobs[j := job.(stage := Parked)])
    case Parked => w
  }

  /** RabbitMQ puts an unacknowledged delivery back. */
  function Requeued(w: World, j: nat): (work: multiset<Message>)
    requires j in w.jobs
    ensures w.work <= work
  {
    if w.jobs[j].held then w.work + multiset{w.jobs[j].msg} else w.work
  }

  // ----- Sweeps -----

  predicate RowAt(w: World, k: nat, stage: RowStage) {
    k in w.sweeps && w.sweeps[k].rest != [] && w.sweeps[k].stage == stage
  }

  function Row(w: World, k: nat): Task
    requires k in w.sweeps && w.sweeps[k].rest != []
  {
    w.sweeps[k].rest[0]
  }

  function FirstStage(rest: seq<Task>): RowStage {
    if rest != [] && rest[0].status == Processing then Reset else Send
  }

  /** On to the next row of the snapshot. */
  function Onward(w: World, k: nat): (w': World)
    requires k in w.sweeps && w.sweeps[k].rest != []
    ensures w' == w.(sweeps := w'.sweeps)
  {
    var rest := w.sweeps[k].rest[1..];
    w.(sweeps := w.sweeps[k := Sweep(rest, FirstStage(rest))])
  }

  // ----- The transition system -----

  ghost predicate Enabled(cfg: Config, w: World, l: Label) {
    match l
    case Tick(_) => true
    case Inject(_) => true
    case ExpireRow(_) => true
    case ExpireMarker(_) => true
    case Insert(r, id, _, _) => r !in w.requests && id !in w.s.issued
    case Announce(r, _, _) => r in w.requests && w.requests[r].Announcing?
    case Read(r, _, _) => r !in w.requests
    case Load(r, _) => r in w.requests && w.requests[r].Loading?
    case Fill(r, _) => r in w.requests && w.requests[r].Filling?
    case Remove(r, id) => r !in w.requests && id in w.s.rows
    case Evict(r, _) => r in w.requests && w.requests[r].Evicting?
    case Deliver(j, m) => j !in w.jobs && m in w.work
    case Work(j, _) => InHandler(w, j)
    case Settle(j, _) => j in w.jobs && !w.jobs[j].stage.Handling?
    case Disconnect(j) => j in w.jobs
    case Crash(j) => j in w.jobs
    case Snapshot(k, at, picked) =>
      && k < cfg.replicas && k !in w.sweeps && at <= w.now
      && StaleBatch(w.s.rows, at - cfg.pendingGrace, at - cfg.processingTimeout, cfg.batchSize, picked)
    case ResetRow(k, _) => RowAt(w, k, Reset)
    case ClearRow(k, _) => RowAt(w, k, Clear)
    case SendRow(k, _, _) => RowAt(w, k, Send)
    case StopSweep(k) => k in w.sweeps
  }

  predicate EnvironmentLabel(l: Label) {
    l.Tick? || l.Inject? || l.ExpireRow? || l.ExpireMarker?
  }

  predicate RequestLabel(l: Label) {
    l.Insert? || l.Announce? || l.Read? || l.Load? || l.Fill? || l.Remove? || l.Evict?
  }

  predicate JobLabel(l: Label) {
    l.Deliver? || l.Work? || l.Settle? || l.Disconnect? || l.Crash?
  }

  predicate SweepLabel(l: Label) {
    l.Snapshot? || l.ResetRow? || l.ClearRow? || l.SendRow? || l.StopSweep?
  }

  ghost function EnvironmentNext(cfg: Config, w: World, l: Label): (w': World)
    requires Enabled(cfg, w, l) && EnvironmentLabel(l)
    ensures w'.jobs == w.jobs && w'.sweeps == w.sweeps && w'.requests == w.requests
    ensures w'.dlq == w.dlq && w.work <= w'.work && w'.s.rows == w.s.rows && w.now <= w'.now
  {
    match l
    case Tick(d) => w.(now := w.now + d)
    case Inject(m) => w.(work := w.work + multiset{m})
    case ExpireRow(id) => w.(s := w.s.(cache := w.s.cache - {id}))
    case ExpireMarker(e) => w.(s := w.s.(markers := w.s.markers - {e}))
  }

  ghost function RequestNext(cfg: Config, w: World, l: Label): (w': World)
    requires Enabled(cfg, w, l) && RequestLabel(l)
    ensures w'.jobs == w.jobs && w'.sweeps == w.sweeps && w'.now == w.now
    ensures w'.dlq == w.dlq && w.work <= w'.work && w'.s.markers == w.s.markers
  {
    match l
    case Insert(r, id, title, description) =>
      var t := NewTask(id, title, description, w.now);
      WithRequest(w, r, Announcing(t)).(s := w.s.(rows := w.s.rows[id := t], issued := w.s.issued + {id}))
    case Announce(r, e, publish) =>
      WithRequest(Published(w, Announcement(e, w.requests[r].t), publish), r, Over)
    case Read(r, id, reply) =>
      WithRequest(w, r, if reply.Ok? && id in w.s.cache then Answered(id, w.s.cache[id]) else Loading(id))
    case Load(r, reply) =>
      var id := w.requests[r].id;
      WithRequest(w, r, if reply.Ok? && id in w.s.rows then Filling(id, w.s.rows[id]) else Over)
    case Fill(r, reply) =>
      var q := w.requests[r];
      WithRequest(w, r, Answered(q.id, q.row)).(s := w.s.(cache := Filled(w.s.cache, q.row, reply)))
    case Remove(r, id) => WithRequest(w, r, Evicting(id)).(s := w.s.(rows := w.s.rows - {id}))
    case Evict(r, reply) =>
      WithRequest(w, r, Over).(s := w.s.(cache := Invalidated(w.s.cache, w.requests[r].id, reply)))
  }

  ghost function JobNext(cfg: Config, w: World, l: Label): (w': World)
    requires Enabled(cfg, w, l) && JobLabel(l)
    ensures w'.requests == w.requests && w'.sweeps == w.sweeps && w'.now == w.now && w.dlq <= w'.dlq
    ensures !l.Work? ==> w'.s == w.s
    ensures !l.Deliver? ==> w.work <= w'.work
  {
    match l
    case Deliver(j, m) => Delivered(w, j, m)
    case Work(j, reply) => WorkNext(w, j, reply)
    case Settle(j, reply) => SettleNext(w, j, reply)
    case Disconnect(j) => w.(work := Requeued(w, j), jobs := w.jobs[j := w.jobs[j].(held := false)])
    case Crash(j) => w.(work := Requeued(w, j), jobs := w.jobs - {j})
  }

  ghost function SweepNext(cfg: Config, w: World, l: Label): (w': World)
    requires Enabled(cfg, w, l) && SweepLabel(l)
    ensures w'.jobs == w.jobs && w'.requests == w.requests && w'.now == w.now
    ensures w'.dlq == w.dlq && w.work <= w'.work && w'.s.markers == w.s.markers && w'.s.issued == w.s.issued
  {
    match l
    case Snapshot(k, _, picked) => w.(sweeps := w.sweeps[k := Sweep(picked, FirstStage(picked))])
    case ResetRow(k, reply) =>
      var t := Row(w, k);
      if reply.Err? || t.id !in w.s.rows then Onward(w, k)
      else w.(s := w.s.(rows := StatusWritten(w.s.rows, t.id, Pending, "", w.now)),
              sweeps := w.sweeps[k := w.sweeps[k].(stage := Clear)])
    case ClearRow(k, reply) =>
      w.(s := w.s.(cache := Invalidated(w.s.cache, Row(w, k).id, reply)),
         sweeps := w.sweeps[k := w.sweeps[k].(stage := Send)])
    case SendRow(k, e, publish) => Onward(Published(w, Announcement(e, Row(w, k)), publish), k)
    case StopSweep(k) => w.(sweeps := w.sweeps - {k})
  }

  ghost function Next(cfg: Config, w: World, l: Label): World
    requires Enabled(cfg, w, l)
  {
    if EnvironmentLabel(l) then EnvironmentNext(cfg, w, l)
    else if RequestLabel(l) then RequestNext(cfg, w, l)
    else if JobLabel(l) then JobNext(cfg, w, l)
    else SweepNext(cfg, w, l)
  }

  // ----- Steps, one at a time -----

  lemma SnapshotNext(cfg: Config, w: World, k: nat, picked: seq<Task>)
    requires k < cfg.replicas && k !in w.sweeps
    requires StaleBatch(w.s.rows, w.now - cfg.pendingGrace, w.now - cfg.processingTimeout, cfg.batchSize, picked)
    ensures var l := Snapshot(k, w.now, picked);
            && Enabled(cfg, w, l)
            && Next(cfg, w, l) == w.(sweeps := w.sweeps[k := Sweep(picked, FirstStage(picked))])
  {
  }

  lemma ResetNext(cfg: Config, w: World, k: nat, reply: Reply)
    requires RowAt(w, k, Reset) && Row(w, k).id in w.s.rows && reply.Ok?
    ensures var l := ResetRow(k, reply);
            && Enabled(cfg, w, l)
            && Next(cfg, w, l) == w.(s := w.s.(rows := StatusWritten(w.s.rows, Row(w, k).id, Pending, "", w.now)),
                                     sweeps := w.sweeps[k := w.sweeps[k].(stage := Clear)])
  {
  }

  lemma ClearNext(cfg: Config, w: World, k: nat, reply: Reply)
    requires RowAt(w, k, Clear)
    ensures var l := ClearRow(k, reply);
            && Enabled(cfg, w, l)
            && Next(cfg, w, l) == w.(s := w.s.(cache := Invalidated(w.s.cache, Row(w, k).id, reply)),
                                     sweeps := w.sweeps[k := w.sweeps[k].(stage := Send)])
  {
  }

  lemma SendNext(cfg: Config, w: World, k: nat, e: EventId, publish: Publish)
    requires RowAt(w, k, Send)
    ensures var l := SendRow(k, e, publish);
            && Enabled(cfg, w, l)
            && Next(cfg, w, l) == Onward(Published(w, Announcement(e, Row(w, k)), publish), k)
  {
  }

  /** A job's step leaves the other jobs alone. */
  lemma OtherJobs(cfg: Config, w: World, l: Label, j: nat)
    requires Enabled(cfg, w, l) && JobLabel(l) && j in w.jobs && j != l.j
    ensures j in JobNext(cfg, w, l).jobs && JobNext(cfg, w, l).jobs[j] == w.jobs[j]
  {
    match l
    case Deliver(_, _) =>
    case Work(_, _) =>
    case Settle(o, reply) => SettleOthers(w, o, reply, j);
    case Disconnect(_) =>
    case Crash(_) =>
  }

  lemma SettleOthers(w: World, o: nat, reply: Reply, j: nat)
    requires o in w.jobs && !w.jobs[o].stage.Handling? && j in w.jobs && j != o
    ensures var w' := SettleNext(w, o, reply); j in w'.jobs && w'.jobs[j] == w.jobs[j]
  {
  }

  // ----- What a step writes -----

  /** Phases from the claim to the write that gives the task away. */
  predicate Owning(p: Phase) {
    p.Claimed? || p.Asking? || p.Applying? || p.Releasing? || p.Resetting?
  }

  /** A handler's step writes a row in three ways only: the claim of a pending row, the result, the reset. */
  predicate TakesRow(s: Stores, p: Phase, s': Stores, p': Phase, now: Time, deadline: Time) {
    && p.Claiming? && Claimable(s.rows, p.id) && now < deadline
    && p' == Claimed(p.id) && s'.rows == StatusWritten(s.rows, p.id, Processing, "", now)
  }

  predicate GivesAway(s: Stores, p: Phase, s': Stores, p': Phase, now: Time, deadline: Time) {
    && (p.Applying? || p.Resetting?) && p.id in s.rows && now < deadline && !Owning(p')
    && s'.rows == if p.Applying? then StatusWritten(s.rows, p.id, Completed, p.text, now)
                  else StatusWritten(s.rows, p.id, Pending, "", now)
  }

  predicate KeepsRows(s: Stores, p: Phase, s': Stores, p': Phase) {
    && s'.rows == s.rows && !(p.Claiming? && p'.Claimed?)
    && (Owning(p') ==> Owning(p) && p'.id == p.id)
  }

  lemma StepShape(s: Stores, p: Phase, b: Body, deadline: Time, c: Call)
    ensures var (s', p') := Step(s, p, b, deadline, c);
            && s'.issued == s.issued
            && (KeepsRows(s, p, s', p') || TakesRow(s, p, s', p', c.now, deadline)
                || GivesAway(s, p, s', p', c.now, deadline))
  {
  }

  /** The step is a handler winning the claim of task `id`. */
  ghost predicate ClaimStep(w: World, l: Label, id: TaskId) {
    l.Work? && InHandler(w, l.j) && w.jobs[l.j].stage.phase == Claiming(id) && HandlerStep(w, l.j, l.reply).1.Claimed?
  }

  /** The step is a handler calling the LLM for task `id`. */
  predicate LlmStep(w: World, l: Label, id: TaskId) {
    l.Work? && InHandler(w, l.j) && w.jobs[l.j].stage.phase == Asking(id)
  }

  /** The step writes `pending` into the row of task `id`: a worker giving it up, or a reconciler resetting it. */
  ghost predicate PendingWrite(w: World, l: Label, id: TaskId) {
    || (l.Work? && InHandler(w, l.j) && w.jobs[l.j].stage.phase == Resetting(id)
        && HandlerStep(w, l.j, l.reply).1.Clearing?)
    || (l.ResetRow? && RowAt(w, l.k, Reset) && l.reply.Ok? && Row(w, l.k).id == id && id in w.s.rows)
  }

  /** What a step can make of a live row: nothing else, a pending row, a claimed one, or a completed one. */
  ghost predicate Rewritten(w: World, l: Label, a: Task, b: Task) {
    || a == b
    || (b == a.(status := b.status, summary := b.summary, updatedAt := w.now)
        && (match b.status
            case Pending => PendingWrite(w, l, a.id)
            case Processing => ClaimStep(w, l, a.id) && a.status == Pending
            case Completed => l.Work? && InHandler(w, l.j) && w.jobs[l.j].stage.phase.Applying?
                           && w.jobs[l.j].stage.phase.id == a.id
            case Failed => false))
  }

  ghost predicate TableRewritten(w: World, l: Label, w': World) {
    && w.s.issued <= w'.s.issued
    && (forall id :: id in w.s.rows && id in w'.s.rows ==> Rewritten(w, l, w.s.rows[id], w'.s.rows[id]))
    && (forall id :: id in w'.s.rows && id !in w.s.rows ==>
          id !in w.s.issued && id in w'.s.issued && w'.s.rows[id].id == id
          && w'.s.rows[id].status == Pending && w'.s.rows[id].createdAt == w'.s.rows[id].updatedAt == w.now)
  }

  lemma HandlerRewrites(w: World, j: nat, reply: Reply)
    requires InHandler(w, j) && Keyed(w.s.rows)
    ensures TableRewritten(w, Work(j, reply), WorkNext(w, j, reply))
  {
    var job := w.jobs[j];
    var (s', p') := HandlerStep(w, j, reply);
    StepShape(w.s, job.stage.phase, job.msg.body, job.deadline, Call(w.now, reply));
    assert WorkNext(w, j, reply).s == s';
  }

  lemma SweepRewrites(cfg: Config, w: World, l: Label)
    requires Enabled(cfg, w, l) && SweepLabel(l) && Keyed(w.s.rows)
    ensures TableRewritten(w, l, SweepNext(cfg, w, l))
  {
  }

  lemma RequestRewrites(cfg: Config, w: World, l: Label)
    requires Enabled(cfg, w, l) && RequestLabel(l) && Keyed(w.s.rows) && w.s.rows.Keys <= w.s.issued
    ensures TableRewritten(w, l, RequestNext(cfg, w, l))
  {
  }

  lemma TableUntouched(cfg: Config, w: World, l: Label)
    requires Enabled(cfg, w, l) && (EnvironmentLabel(l) || (JobLabel(l) && !l.Work?))
    ensures Next(cfg, w, l).s.rows == w.s.rows && Next(cfg, w, l).s.issued == w.s.issued
  {
  }

  lemma SameTable(w: World, l: Label, w': World)
    requires w'.s.rows == w.s.rows && w'.s.issued == w.s.issued
    ensures TableRewritten(w, l, w')
  {
  }

  /** Every step of every process, in any configuration. */
  lemma StepRewrites(cfg: Config, w: World, l: Label)
    requires Enabled(cfg, w, l) && Keyed(w.s.rows) && w.s.rows.Keys <= w.s.issued
    ensures TableRewritten(w, l, Next(cfg, w, l))
  {
    if l.Work? {
      HandlerRewrites(w, l.j, l.reply);
    } else if SweepLabel(l) {
      SweepRewrites(cfg, w, l);
    } else if RequestLabel(l) {
      RequestRewrites(cfg, w, l);
    } else {
      TableUntouched(cfg, w, l);
      SameTable(w, l, Next(cfg, w, l));
    }
  }
}
