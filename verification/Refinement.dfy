/**
 * The interleaved system and the operations say the same: left to itself, a sweep's row goes as
 * `Reconcilers.SweepRow` says, a whole sweep as `SweepFrom`, a handling as `Summarizer.HandleAll`, settling a delivery
 * as `Consumers.Disposed`, and a request as its use case.
 */
module Refinement {
  import opened Tasks
  import opened Repository
  import opened Dedupes
  import opened Messages
  import opened Service
  import opened Summarizer
  import opened Consumers
  import opened Reconcilers
  import opened Pipeline
  import opened Runs
  import opened Accounting

  // ----- Sweeps -----

  /** World `w` is where a sweep at row `rest[0]` stands, in the terms of the operations. */
  ghost predicate Mirrors(w: World, k: nat, rest: seq<Task>, s: SweepState) {
    && k in w.sweeps && w.sweeps[k] == Pipeline.Sweep(rest, FirstStage(rest))
    && w.s.rows == s.rows && w.s.cache == s.cache && w.work == multiset(s.work)
  }

  /** What a sweep's query answers is a snapshot that the system may take, under the settings in force. */
  lemma SnapshotRefines(w: World, replicas: nat, k: nat, o: Options, at: Time, picked: seq<Task>, s: SweepState)
    requires k < replicas && k !in w.sweeps && at <= w.now
    requires 0 < o.pendingGrace && 0 < o.processingTimeout && 0 < o.batchSize
    requires StaleBatch(w.s.rows, at - o.pendingGrace, at - o.processingTimeout, o.batchSize, picked)
    requires w.s.rows == s.rows && w.s.cache == s.cache && w.work == multiset(s.work)
    ensures var cfg, l := Config(o.pendingGrace, o.processingTimeout, o.batchSize, replicas), Snapshot(k, at, picked);
            && Configured(cfg) && Enabled(cfg, w, l) && Mirrors(Next(cfg, w, l), k, picked, s)
  {
  }

  /** The steps that the calls of a row amount to. */
  function RowLabels(rows: Rows, k: nat, t: Task, c: RowCalls): seq<Label> {
    if t.status != Processing then [SendRow(k, c.event, c.publish)]
    else if !Resettable(rows, t, c.reset) then [ResetRow(k, c.reset)]
    else [ResetRow(k, c.reset), ClearRow(k, c.del), SendRow(k, c.event, c.publish)]
  }

  lemma One(cfg: Config, sc: Scope, w: World, l: Label)
    requires Enabled(cfg, w, l) && Allowed(sc, w, l)
    ensures Legal(cfg, w, [l]) && Within(cfg, sc, w, [l]) && After(cfg, w, [l]) == Next(cfg, w, l)
  {
    assert [l][1..] == [];
  }

  lemma Three(cfg: Config, sc: Scope, w: World, a: Label, b: Label, c: Label)
    requires Enabled(cfg, w, a) && Enabled(cfg, Next(cfg, w, a), b)
    requires Enabled(cfg, Next(cfg, Next(cfg, w, a), b), c)
    requires Allowed(sc, w, a) && Allowed(sc, Next(cfg, w, a), b) && Allowed(sc, Next(cfg, Next(cfg, w, a), b), c)
    ensures Legal(cfg, w, [a, b, c]) && Within(cfg, sc, w, [a, b, c])
    ensures After(cfg, w, [a, b, c]) == Next(cfg, Next(cfg, Next(cfg, w, a), b), c)
  {
    var w1 := Next(cfg, w, a);
    One(cfg, sc, Next(cfg, w1, b), c);
    Cons(cfg, sc, w1, b, [c]);
    Cons(cfg, sc, w, a, [b, c]);
    assert [b] + [c] == [b, c] && [a] + [b, c] == [a, b, c];
  }

  lemma SendMirrors(w: World, w': World, k: nat, t: Task, s: SweepState, c: RowCalls)
    requires w.work == multiset(s.work)
    requires w' == Published(w, Announcement(c.event, t), c.publish)
    ensures w'.work == multiset(s.work + Enqueued(Announcement(c.event, t), c.publish))
    ensures w'.s == w.s && w'.sweeps == w.sweeps && w'.now == w.now
  {
  }

  /** A row seen in `processing` that can be reset: three steps. */
  lemma ResetRowRefines(cfg: Config, w: World, k: nat, rest: seq<Task>, s: SweepState, c: RowCalls)
    requires Mirrors(w, k, rest, s) && rest != [] && c.now == w.now
    requires rest[0].status == Processing && Resettable(s.rows, rest[0], c.reset)
    ensures var run := RowLabels(s.rows, k, rest[0], c);
            && Legal(cfg, w, run) && Within(cfg, Alone(k), w, run) && After(cfg, w, run).now == w.now
            && Mirrors(After(cfg, w, run), k, rest[1..], SweepRow(s, rest[0], c))
  {
    var a, b, d := ResetRow(k, c.reset), ClearRow(k, c.del), SendRow(k, c.event, c.publish);
    ResetNext(cfg, w, k, c.reset);
    var w1 := Next(cfg, w, a);
    ClearNext(cfg, w1, k, c.del);
    var w2 := Next(cfg, w1, b);
    SendNext(cfg, w2, k, c.event, c.publish);
    Three(cfg, Alone(k), w, a, b, d);
    SendMirrors(w2, Published(w2, Announcement(c.event, rest[0]), c.publish), k, rest[0], s, c);
  }

  /** Uninterrupted, the steps for a row do what `SweepRow` says. */
  lemma RowRefines(cfg: Config, w: World, k: nat, rest: seq<Task>, s: SweepState, c: RowCalls)
    requires Mirrors(w, k, rest, s) && rest != [] && c.now == w.now
    ensures var run := RowLabels(s.rows, k, rest[0], c);
            && Legal(cfg, w, run) && Within(cfg, Alone(k), w, run) && After(cfg, w, run).now == w.now
            && Mirrors(After(cfg, w, run), k, rest[1..], SweepRow(s, rest[0], c))
  {
    if rest[0].status != Processing {
      SendRowRefines(cfg, w, k, rest, s, c);
    } else if !Resettable(s.rows, rest[0], c.reset) {
      SkipRowRefines(cfg, w, k, rest, s, c);
    } else {
      ResetRowRefines(cfg, w, k, rest, s, c);
    }
  }

  lemma SendRowRefines(cfg: Config, w: World, k: nat, rest: seq<Task>, s: SweepState, c: RowCalls)
    requires Mirrors(w, k, rest, s) && rest != [] && rest[0].status != Processing
    ensures var run := RowLabels(s.rows, k, rest[0], c);
            && Legal(cfg, w, run) && Within(cfg, Alone(k), w, run) && After(cfg, w, run).now == w.now
            && Mirrors(After(cfg, w, run), k, rest[1..], SweepRow(s, rest[0], c))
  {
    SendNext(cfg, w, k, c.event, c.publish);
    One(cfg, Alone(k), w, SendRow(k, c.event, c.publish));
    SendMirrors(w, Published(w, Announcement(c.event, rest[0]), c.publish), k, rest[0], s, c);
  }

  lemma SkipRowRefines(cfg: Config, w: World, k: nat, rest: seq<Task>, s: SweepState, c: RowCalls)
    requires Mirrors(w, k, rest, s) && rest != [] && rest[0].status == Processing
    requires !Resettable(s.rows, rest[0], c.reset)
    ensures var run := RowLabels(s.rows, k, rest[0], c);
            && Legal(cfg, w, run) && Within(cfg, Alone(k), w, run) && After(cfg, w, run).now == w.now
            && Mirrors(After(cfg, w, run), k, rest[1..], SweepRow(s, rest[0], c))
  {
    One(cfg, Alone(k), w, ResetRow(k, c.reset));
    assert Next(cfg, w, ResetRow(k, c.reset)) == Onward(w, k);
  }

  /** The calls of a sweep take their time: each row's no earlier than the one's before it. */
  ghost predicate InOrder(w: World, calls: nat -> RowCalls, i: nat, n: nat) {
    && (i < n ==> w.now <= calls(i).now)
    && forall a, b :: i <= a <= b < n ==> calls(a).now <= calls(b).now
  }

  /** The clock gets to the calls of the next row, and these are made. */
  lemma RowInTime(cfg: Config, w: World, k: nat, rest: seq<Task>, s: SweepState, c: RowCalls) returns (w': World)
    requires Mirrors(w, k, rest, s) && rest != [] && w.now <= c.now
    ensures Leads(cfg, Alone(k), w, w') && w'.now == c.now && Mirrors(w', k, rest[1..], SweepRow(s, rest[0], c))
  {
    Stay(cfg, Alone(k), w);
    var w1 := TakeTick(cfg, Alone(k), w, w, c.now - w.now);
    RowRefines(cfg, w1, k, rest, s, c);
    var run := RowLabels(s.rows, k, rest[0], c);
    w' := After(cfg, w1, run);
    Joined(cfg, Alone(k), w, w1, run);
  }

  /**
   * And a whole sweep what `SweepFrom` says: the method `Reconciler.Sweep` is one of the system's runs, in which nobody
   * else takes a step.
   */
  lemma {:induction false} SweepRefines(cfg: Config, w: World, k: nat, picked: seq<Task>, s: SweepState,
                                        calls: nat -> RowCalls, i: nat) returns (w': World)
    requires i <= |picked| && Mirrors(w, k, picked[i..], s) && InOrder(w, calls, i, |picked|)
    ensures Leads(cfg, Alone(k), w, w') && Mirrors(w', k, [], SweepFrom(s, picked, calls, i))
    decreases |picked| - i
  {
    if i == |picked| {
      Stay(cfg, Alone(k), w);
      w' := w;
    } else {
      var w1 := RowInTime(cfg, w, k, picked[i..], s, calls(i));
      assert picked[i..][1..] == picked[i + 1..];
      w' := SweepRefines(cfg, w1, k, picked, SweepRow(s, picked[i], calls(i)), calls, i + 1);
      Chained(cfg, Alone(k), w, w1, w');
    }
  }

  lemma Chained(cfg: Config, sc: Scope, w: World, v: World, w': World)
    requires Leads(cfg, sc, w, v) && Leads(cfg, sc, v, w')
    ensures Leads(cfg, sc, w, w')
  {
    var more :| Legal(cfg, v, more) && Within(cfg, sc, v, more) && After(cfg, v, more) == w';
    Joined(cfg, sc, w, v, more);
  }

  // ----- Handling -----

  /** The handler may still call the LLM for task `id`, and for no other. */
  predicate MayAsk(p: Phase, b: Body, id: TaskId) {
    match p
    case Fresh => b.content.Created? ==> b.content.taskId == id
    case Claiming(i) => i == id
    case Claimed(i) => i == id
    case Asking(i) => i == id
    case _ => true
  }

  /** Job `j` alone, and time, has brought the stores to `s` and its handler to phase `p`. */
  ghost predicate Brought(w: World, w': World, j: nat, s: Stores, p: Phase) {
    && j in w.jobs && j in w'.jobs
    && w' == w.(now := w'.now, s := s, jobs := w.jobs[j := w'.jobs[j]])
    && w'.jobs[j] == w.jobs[j].(stage := StageAfter(p, w.jobs[j].msg), claimedAt := w'.jobs[j].claimedAt)
  }

  lemma BroughtOn(w: World, w1: World, w2: World, j: nat, s1: Stores, p1: Phase, s2: Stores, p2: Phase)
    requires Brought(w, w1, j, s1, p1) && Brought(w1, w2, j, s2, p2)
    ensures Brought(w, w2, j, s2, p2)
  {
    assert w2.jobs == w.jobs[j := w2.jobs[j]];
  }

  /** Two steps in front of a run. */
  lemma Before(cfg: Config, w: World, a: Label, b: Label, rest: seq<Label>, id: TaskId)
    requires Enabled(cfg, w, a) && Enabled(cfg, Next(cfg, w, a), b)
    requires Legal(cfg, Next(cfg, Next(cfg, w, a), b), rest)
    ensures var run, w1 := [a, b] + rest, Next(cfg, w, a);
            && Legal(cfg, w, run) && After(cfg, w, run) == After(cfg, Next(cfg, w1, b), rest)
            && LlmCalls(cfg, w, run, id)
               == Bit(LlmStep(w, a, id)) + Bit(LlmStep(w1, b, id)) + LlmCalls(cfg, Next(cfg, w1, b), rest, id)
  {
    assert ([a, b] + rest)[1..] == [b] + rest && ([b] + rest)[1..] == rest;
  }

  /** The clock gets to the next call of the handler, and it is made. */
  lemma CallInTime(cfg: Config, w: World, j: nat, c: Call, id: TaskId) returns (w': World)
    requires InHandler(w, j) && w.now <= c.now && MayAsk(w.jobs[j].stage.phase, w.jobs[j].msg.body, id)
    ensures var a, b := Tick(c.now - w.now), Work(j, c.reply);
            && Enabled(cfg, w, a) && Enabled(cfg, Next(cfg, w, a), b) && w' == Next(cfg, Next(cfg, w, a), b)
            && Bit(LlmStep(w, a, id)) + Bit(LlmStep(Next(cfg, w, a), b, id)) == Bit(w.jobs[j].stage.phase.Asking?)
    ensures var job := w.jobs[j];
            var (s', p') := Step(w.s, job.stage.phase, job.msg.body, job.deadline, c);
            Brought(w, w', j, s', p')
  {
    var w1 := Next(cfg, w, Tick(c.now - w.now));
    assert w1 == w.(now := c.now);
    w' := Next(cfg, w1, Work(j, c.reply));
    assert w' == WorkNext(w1, j, c.reply);
  }

  /** The run is one of the clock and of job `j`, from here to the return of its handler with these calls. */
  ghost predicate HandlesBy(cfg: Config, w: World, j: nat, script: Script, k: nat, id: TaskId, run: seq<Label>)
    requires InHandler(w, j)
  {
    var job := w.jobs[j];
    var o := Finish(w.s, job.stage.phase, job.msg.body, job.deadline, script, k);
    && Legal(cfg, w, run) && (forall l :: l in run ==> l.Tick? || (l.Work? && l.j == j))
    && Brought(w, After(cfg, w, run), j, o.stores, Returned(o.ok)) && LlmCalls(cfg, w, run, id) == o.asked
  }

  lemma LastCall(cfg: Config, w: World, j: nat, script: Script, k: nat, id: TaskId) returns (run: seq<Label>)
    requires InHandler(w, j) && w.now <= script(k).now && !w.jobs[j].stage.phase.Returned?
    requires MayAsk(w.jobs[j].stage.phase, w.jobs[j].msg.body, id)
    requires Step(w.s, w.jobs[j].stage.phase, w.jobs[j].msg.body, w.jobs[j].deadline, script(k)).1.Returned?
    ensures HandlesBy(cfg, w, j, script, k, id, run)
  {
    var a, b := Tick(script(k).now - w.now), Work(j, script(k).reply);
    var w' := CallInTime(cfg, w, j, script(k), id);
    Before(cfg, w, a, b, [], id);
    run := [a, b] + [];
  }

  lemma OneCallMore(cfg: Config, w: World, j: nat, script: Script, k: nat, id: TaskId, w2: World, rest: seq<Label>)
    requires InHandler(w, j) && InHandler(w2, j) && w.now <= script(k).now && !w.jobs[j].stage.phase.Returned?
    requires var a, b := Tick(script(k).now - w.now), Work(j, script(k).reply);
             && Enabled(cfg, w, a) && Enabled(cfg, Next(cfg, w, a), b) && w2 == Next(cfg, Next(cfg, w, a), b)
             && Bit(LlmStep(w, a, id)) + Bit(LlmStep(Next(cfg, w, a), b, id)) == Bit(w.jobs[j].stage.phase.Asking?)
    requires var job := w.jobs[j];
             var (s', p') := Step(w.s, job.stage.phase, job.msg.body, job.deadline, script(k));
             Brought(w, w2, j, s', p') && !p'.Returned?
    requires HandlesBy(cfg, w2, j, script, k + 1, id, rest)
    ensures HandlesBy(cfg, w, j, script, k, id, [Tick(script(k).now - w.now), Work(j, script(k).reply)] + rest)
  {
    var job := w.jobs[j];
    var (s', p') := Step(w.s, job.stage.phase, job.msg.body, job.deadline, script(k));
    var o := Finish(s', p', job.msg.body, job.deadline, script, k + 1);
    BroughtOn(w, w2, After(cfg, w2, rest), j, s', p', o.stores, Returned(o.ok));
    Before(cfg, w, Tick(script(k).now - w.now), Work(j, script(k).reply), rest, id);
  }

  lemma {:induction false} HandlingRuns(cfg: Config, w: World, j: nat, script: Script, k: nat, id: TaskId)
    returns (run: seq<Label>)
    requires InHandler(w, j) && !w.jobs[j].stage.phase.Returned?
    requires w.now <= script(k).now && forall a, b :: k <= a <= b ==> script(a).now <= script(b).now
    requires MayAsk(w.jobs[j].stage.phase, w.jobs[j].msg.body, id)
    ensures HandlesBy(cfg, w, j, script, k, id, run)
    decreases Remaining(w.jobs[j].stage.phase)
  {
    var job := w.jobs[j];
    var p' := Step(w.s, job.stage.phase, job.msg.body, job.deadline, script(k)).1;
    if p'.Returned? {
      run := LastCall(cfg, w, j, script, k, id);
    } else {
      StepMayAsk(w.s, job.stage.phase, job.msg.body, job.deadline, script(k), id);
      var w2 := CallInTime(cfg, w, j, script(k), id);
      var rest := HandlingRuns(cfg, w2, j, script, k + 1, id);
      OneCallMore(cfg, w, j, script, k, id, w2, rest);
      run := [Tick(script(k).now - w.now), Work(j, script(k).reply)] + rest;
    }
  }

  lemma StepMayAsk(s: Stores, p: Phase, b: Body, deadline: Time, c: Call, id: TaskId)
    requires MayAsk(p, b, id)
    ensures MayAsk(Step(s, p, b, deadline, c).1, b, id)
    ensures !p.Returned? ==> Remaining(Step(s, p, b, deadline, c).1) < Remaining(p)
  {
  }

  /**
   * A handler that nobody interrupts does what `HandleAll`, and so the method `Handle`, says, with the same LLM calls,
   * and leaves its message to be acknowledged, retried or rejected.
   */
  lemma HandlingRefines(cfg: Config, w: World, j: nat, script: Script, id: TaskId) returns (run: seq<Label>)
    requires j in w.jobs && w.jobs[j].stage == Handling(Fresh)
    requires w.now <= script(0).now && forall a, b :: 0 <= a <= b ==> script(a).now <= script(b).now
    requires w.jobs[j].msg.body.content.Created? ==> w.jobs[j].msg.body.content.taskId == id
    ensures Legal(cfg, w, run) && forall l :: l in run ==> l.Tick? || (l.Work? && l.j == j)
    ensures var job, w' := w.jobs[j], After(cfg, w, run);
            var o := HandleAll(w.s, job.msg.body, job.deadline, script);
            && j in w'.jobs && w'.s == o.stores && LlmCalls(cfg, w, run, id) == o.asked
            && w'.work == w.work && w'.dlq == w.dlq && w'.jobs - {j} == w.jobs - {j}
            && w'.jobs[j].msg == job.msg && w'.jobs[j].held == job.held
            && w'.jobs[j].stage
               == if o.ok then Acking else if RetryCount(job.msg.retries) >= 3 then Rejecting else Retrying
  {
    run := HandlingRuns(cfg, w, j, script, 0, id);
  }

  // ----- Settling -----

  /** The settling steps of a delivery whose handler has returned `ok`. */
  function SettleLabels(m: Message, ok: bool, j: nat, publish: Reply, settle: Reply): seq<Label> {
    if !ok && RetryCount(m.retries) < MAX_RETRIES then [Settle(j, publish), Settle(j, settle)] else [Settle(j, settle)]
  }

  /** The queues of `w` without job `j`'s delivery, and that delivery, as the broker sees them. */
  ghost predicate Holding(w: World, j: nat, q: Queues) {
    && j in w.jobs && w.jobs[j].held && w.jobs[j].msg in q.unacked
    && w.work == multiset(q.work) && w.dlq == multiset(q.dlq)
  }

  lemma Two(cfg: Config, w: World, a: Label, b: Label)
    requires Enabled(cfg, w, a) && Enabled(cfg, Next(cfg, w, a), b)
    ensures Legal(cfg, w, [a, b]) && After(cfg, w, [a, b]) == Next(cfg, Next(cfg, w, a), b)
  {
    assert [a, b][1..] == [b];
    One(cfg, AnyStep, Next(cfg, w, a), b);
  }

  /**
   * `w` after settling: the queues are those of `q`, and the delivery is still there exactly when it was not settled.
   */
  ghost predicate Settled(w: World, j: nat, q: Queues, settle: Reply) {
    w.work == multiset(q.work) && w.dlq == multiset(q.dlq) && (j in w.jobs <==> settle.Err?)
  }

  lemma AckRefines(w: World, j: nat, q: Queues, settle: Reply)
    requires Holding(w, j, q) && w.jobs[j].stage == Acking
    ensures Settled(SettleNext(w, j, settle), j, Acked(q, w.jobs[j].msg, settle), settle)
  {
  }

  lemma RejectRefines(w: World, j: nat, q: Queues, settle: Reply)
    requires Holding(w, j, q) && w.jobs[j].stage == Rejecting
    ensures Settled(SettleNext(w, j, settle), j, Rejected(q, w.jobs[j].msg, settle), settle)
  {
  }

  /** A republish that works is followed by the acknowledgement, one that fails by the rejection. */
  lemma RepublishRefines(w: World, j: nat, q: Queues, publish: Reply)
    requires Holding(w, j, q) && w.jobs[j].stage == Retrying
    ensures var w', m := SettleNext(w, j, publish), w.jobs[j].msg;
            && j in w'.jobs && w'.jobs[j].msg == m
            && (if publish.Ok? then w'.jobs[j].stage == Acking && Holding(w', j, q.(work := q.work + [Bumped(m)]))
                else w'.jobs[j].stage == Rejecting && Holding(w', j, q))
  {
  }

  lemma RetryRefines(w: World, j: nat, q: Queues, publish: Reply, settle: Reply)
    requires Holding(w, j, q) && w.jobs[j].stage == Retrying && RetryCount(w.jobs[j].msg.retries) < MAX_RETRIES
    ensures var w' := SettleNext(w, j, publish);
            && j in w'.jobs && !w'.jobs[j].stage.Handling?
            && Settled(SettleNext(w', j, settle), j,
                       Disposed(q, w.jobs[j].msg, false, MAX_RETRIES, publish, settle), settle)
  {
    var w', m := SettleNext(w, j, publish), w.jobs[j].msg;
    RepublishRefines(w, j, q, publish);
    if publish.Ok? {
      AckRefines(w', j, q.(work := q.work + [Bumped(m)]), settle);
    } else {
      RejectRefines(w', j, q, settle);
    }
  }

  /** What settling job `j` comes to, as steps on its own. */
  function AfterSettling(w: World, j: nat, ok: bool, publish: Reply, settle: Reply): World
    requires j in w.jobs && w.jobs[j].stage == StageAfter(Returned(ok), w.jobs[j].msg)
  {
    if w.jobs[j].stage == Retrying && j in SettleNext(w, j, publish).jobs
       && !SettleNext(w, j, publish).jobs[j].stage.Handling?
    then SettleNext(SettleNext(w, j, publish), j, settle)
    else SettleNext(w, j, settle)
  }

  lemma SettlingSettles(w: World, j: nat, q: Queues, ok: bool, publish: Reply, settle: Reply)
    requires Holding(w, j, q) && w.jobs[j].stage == StageAfter(Returned(ok), w.jobs[j].msg)
    ensures Settled(AfterSettling(w, j, ok, publish, settle), j,
                    Disposed(q, w.jobs[j].msg, ok, MAX_RETRIES, publish, settle), settle)
  {
    match w.jobs[j].stage
    case Acking => AckRefines(w, j, q, settle);
    case Rejecting => RejectRefines(w, j, q, settle);
    case Retrying => RetryRefines(w, j, q, publish, settle);
  }

  lemma SettleStep(cfg: Config, w: World, j: nat, reply: Reply)
    requires j in w.jobs && !w.jobs[j].stage.Handling?
    ensures Enabled(cfg, w, Settle(j, reply)) && Next(cfg, w, Settle(j, reply)) == SettleNext(w, j, reply)
  {
  }

  lemma RetryingRuns(cfg: Config, w: World, j: nat, q: Queues, publish: Reply, settle: Reply)
    requires Holding(w, j, q) && w.jobs[j].stage == Retrying
    requires StageAfter(Returned(false), w.jobs[j].msg) == Retrying
    ensures var run := [Settle(j, publish), Settle(j, settle)];
            Legal(cfg, w, run) && After(cfg, w, run) == AfterSettling(w, j, false, publish, settle)
  {
    RepublishRefines(w, j, q, publish);
    SettleStep(cfg, w, j, publish);
    SettleStep(cfg, SettleNext(w, j, publish), j, settle);
    Two(cfg, w, Settle(j, publish), Settle(j, settle));
  }

  lemma SettlingRuns(cfg: Config, w: World, j: nat, q: Queues, ok: bool, publish: Reply, settle: Reply)
    requires Holding(w, j, q) && w.jobs[j].stage == StageAfter(Returned(ok), w.jobs[j].msg)
    ensures var run := SettleLabels(w.jobs[j].msg, ok, j, publish, settle);
            Legal(cfg, w, run) && After(cfg, w, run) == AfterSettling(w, j, ok, publish, settle)
  {
    if w.jobs[j].stage == Retrying {
      RetryingRuns(cfg, w, j, q, publish, settle);
    } else {
      SettleStep(cfg, w, j, settle);
      One(cfg, AnyStep, w, Settle(j, settle));
    }
  }

  /** Uninterrupted, the settling steps move messages between the queues as `Disposed` says. */
  lemma SettlingRefines(cfg: Config, w: World, j: nat, q: Queues, ok: bool, publish: Reply, settle: Reply)
    requires Holding(w, j, q) && w.jobs[j].stage == StageAfter(Returned(ok), w.jobs[j].msg)
    ensures var run := SettleLabels(w.jobs[j].msg, ok, j, publish, settle);
            && Legal(cfg, w, run)
            && Settled(After(cfg, w, run), j, Disposed(q, w.jobs[j].msg, ok, MAX_RETRIES, publish, settle), settle)
  {
    SettlingSettles(w, j, q, ok, publish, settle);
    SettlingRuns(cfg, w, j, q, ok, publish, settle);
  }

  // ----- Requests -----

  /** Uninterrupted, creating a task stores it as given and announces it, unless the publish is lost. */
  lemma CreateRefines(cfg: Config, w: World, r: nat, id: TaskId, title: string, description: string, e: EventId,
                      publish: Publish)
    requires r !in w.requests && id !in w.s.issued
    ensures var run := [Insert(r, id, title, description), Announce(r, e, publish)];
            && Legal(cfg, w, run)
            && var w' := After(cfg, w, run);
               && w'.s == w.s.(rows := w.s.rows[id := Task(id, title, description, Pending, "", w.now, w.now)],
                               issued := w.s.issued + {id})
               && (publish.Lost? ==> w'.work == w.work)
               && (!publish.Lost? ==>
                     w'.work == w.work + multiset{Message(Body(e, Created(id, title, description)), Absent)})
  {
    Two(cfg, w, Insert(r, id, title, description), Announce(r, e, publish));
  }

  /** A request that finds the row in the cache answers it. */
  lemma HitRefines(cfg: Config, w: World, r: nat, id: TaskId, read: Reply)
    requires r !in w.requests && read.Ok? && id in w.s.cache
    ensures Legal(cfg, w, [Read(r, id, read)])
    ensures After(cfg, w, [Read(r, id, read)]) == w.(requests := w.requests[r := Answered(id, w.s.cache[id])])
  {
    One(cfg, AnyStep, w, Read(r, id, read));
  }

  /** One that does not, answers the row of the table and puts it into the cache. */
  lemma MissRefines(cfg: Config, w: World, r: nat, id: TaskId, read: Reply, load: Reply, fill: Reply)
    requires r !in w.requests && !(read.Ok? && id in w.s.cache) && load.Ok? && id in w.s.rows && Keyed(w.s.rows)
    ensures var run := [Read(r, id, read), Load(r, load), Fill(r, fill)];
            && Legal(cfg, w, run)
            && var w' := After(cfg, w, run);
               && w'.requests == w.requests[r := Answered(id, w.s.rows[id])]
               && w'.s == w.s.(cache := if fill.Ok? then w.s.cache[id := w.s.rows[id]] else w.s.cache)
  {
    var w1 := w.(requests := w.requests[r := Loading(id)]);
    LoadFinds(cfg, w1, r, load);
    assert Next(cfg, w, Read(r, id, read)) == w1;
    Three(cfg, AnyStep, w, Read(r, id, read), Load(r, load), Fill(r, fill));
    Fills(cfg, Next(cfg, w1, Load(r, load)), r, fill);
  }

  lemma Fills(cfg: Config, w: World, r: nat, fill: Reply)
    requires r in w.requests && w.requests[r].Filling? && w.requests[r].id == w.requests[r].row.id
    ensures var q, w' := w.requests[r], Next(cfg, w, Fill(r, fill));
            && w'.requests == w.requests[r := Answered(q.id, q.row)]
            && w'.s == w.s.(cache := if fill.Ok? then w.s.cache[q.id := q.row] else w.s.cache)
  {
  }

  lemma LoadFinds(cfg: Config, w: World, r: nat, load: Reply)
    requires r in w.requests && w.requests[r].Loading? && load.Ok? && w.requests[r].id in w.s.rows
    ensures var id := w.requests[r].id;
            && Enabled(cfg, w, Load(r, load))
            && Next(cfg, w, Load(r, load)) == w.(requests := w.requests[r := Filling(id, w.s.rows[id])])
  {
  }

  /** Whatever the cache held, once the entry of a row has expired the next request goes to the table. */
  lemma ExpiryRefines(cfg: Config, w: World, r: nat, id: TaskId, read: Reply, load: Reply)
    requires r !in w.requests && load.Ok? && id in w.s.rows
    ensures var run := [ExpireRow(id), Read(r, id, read), Load(r, load)];
            && Legal(cfg, w, run)
            && After(cfg, w, run).requests == w.requests[r := Filling(id, w.s.rows[id])]
            && After(cfg, w, run).s == w.s.(cache := w.s.cache - {id})
  {
    var w1 := w.(s := w.s.(cache := w.s.cache - {id}));
    var w2 := w1.(requests := w.requests[r := Loading(id)]);
    assert Next(cfg, w, ExpireRow(id)) == w1;
    assert Next(cfg, w1, Read(r, id, read)) == w2;
    LoadFinds(cfg, w2, r, load);
    Three(cfg, AnyStep, w, ExpireRow(id), Read(r, id, read), Load(r, load));
  }

  /** Deleting a task drops its row, then its cached copy. */
  lemma DeleteRefines(cfg: Config, w: World, r: nat, id: TaskId, del: Reply)
    requires r !in w.requests && id in w.s.rows
    ensures var run := [Remove(r, id), Evict(r, del)];
            && Legal(cfg, w, run)
            && After(cfg, w, run).s == w.s.(rows := w.s.rows - {id},
                                            cache := if del.Ok? then w.s.cache - {id} else w.s.cache)
  {
    Two(cfg, w, Remove(r, id), Evict(r, del));
  }

  // ----- Markers -----

  /** What a step does to the markers, in the terms of the guard. */
  ghost function OpsOf(w: World, l: Label): seq<MarkerOp> {
    if l.ExpireMarker? then [MarkerOp.Expire(l.e)]
    else if !l.Work? || !InHandler(w, l.j) then []
    else
      var job := w.jobs[l.j];
      match job.stage.phase
      case Fresh =>
        if job.msg.body.content.Created? || job.msg.body.content.BadPayload?
        then [MarkerOp.Claim(job.msg.body.eventId, l.reply)] else []
      case Releasing(_) => [MarkerOp.Release(job.msg.body.eventId, InTime(Call(w.now, l.reply), job.deadline))]
      case _ => []
  }

  ghost function RunOps(cfg: Config, w: World, run: seq<Label>): seq<MarkerOp>
    requires Legal(cfg, w, run)
    decreases run
  {
    if run == [] then [] else OpsOf(w, run[0]) + RunOps(cfg, Next(cfg, w, run[0]), run[1..])
  }

  /** The step gets a handler of event `e` past its guard. */
  ghost predicate Passes(w: World, l: Label, e: EventId) {
    && l.Work? && InHandler(w, l.j) && w.jobs[l.j].msg.body.eventId == e
    && w.jobs[l.j].stage.phase == Fresh && HandlerStep(w, l.j, l.reply).1.Claiming?
  }

  ghost function Starts(cfg: Config, w: World, run: seq<Label>, e: EventId): nat
    requires Legal(cfg, w, run)
    decreases run
  {
    if run == [] then 0 else (if Passes(w, run[0], e) then 1 else 0) + Starts(cfg, Next(cfg, w, run[0]), run[1..], e)
  }

  lemma WorkMarks(w: World, j: nat, reply: Reply, e: EventId)
    requires InHandler(w, j)
    ensures var l, w' := Work(j, reply), WorkNext(w, j, reply);
            && w'.s.markers == AfterAll(w.s.markers, OpsOf(w, l))
            && (if Passes(w, l, e) then 1 else 0) <= Grants(w.s.markers, OpsOf(w, l), e)
  {
    var l := Work(j, reply);
    assert WorkNext(w, j, reply).s == HandlerStep(w, j, reply).0;
    if OpsOf(w, l) != [] {
      OneOp(w.s.markers, OpsOf(w, l)[0], e);
      assert OpsOf(w, l) == [OpsOf(w, l)[0]];
    }
  }

  lemma OneOp(markers: set<EventId>, op: MarkerOp, e: EventId)
    ensures AfterAll(markers, [op]) == AfterOp(markers, op)
    ensures Grants(markers, [op], e) == if Granted(markers, op, e) then 1 else 0
  {
    assert [op][1..] == [];
  }

  lemma StepMarks(cfg: Config, w: World, l: Label, e: EventId)
    requires Enabled(cfg, w, l)
    ensures Next(cfg, w, l).s.markers == AfterAll(w.s.markers, OpsOf(w, l))
    ensures (if Passes(w, l, e) then 1 else 0) <= Grants(w.s.markers, OpsOf(w, l), e)
  {
    if l.Work? {
      WorkMarks(w, l.j, l.reply, e);
      assert Next(cfg, w, l) == WorkNext(w, l.j, l.reply);
    } else if l.ExpireMarker? {
      OneOp(w.s.markers, MarkerOp.Expire(l.e), e);
    } else {
      assert Next(cfg, w, l).s.markers == w.s.markers;
    }
  }

  lemma OpsAppend(markers: set<EventId>, a: seq<MarkerOp>, b: seq<MarkerOp>, e: EventId)
    requires |a| <= 1
    ensures AfterAll(markers, a + b) == AfterAll(AfterAll(markers, a), b)
    ensures Grants(markers, a + b, e) == Grants(markers, a, e) + Grants(AfterAll(markers, a), b, e)
  {
    if a == [] {
      assert a + b == b;
    } else {
      assert (a + b)[0] == a[0] && (a + b)[1..] == b && a == [a[0]];
      OneOp(markers, a[0], e);
    }
  }

  /** The markers of the system go through the operations of the guard, and its grants are what lets handlers start. */
  lemma {:induction false} MarkersRefine(cfg: Config, w: World, run: seq<Label>, e: EventId)
    requires Legal(cfg, w, run)
    ensures After(cfg, w, run).s.markers == AfterAll(w.s.markers, RunOps(cfg, w, run))
    ensures Starts(cfg, w, run, e) <= Grants(w.s.markers, RunOps(cfg, w, run), e)
    decreases run
  {
    if run != [] {
      var w' := Next(cfg, w, run[0]);
      StepMarks(cfg, w, run[0], e);
      MarkersRefine(cfg, w', run[1..], e);
      OpsAppend(w.s.markers, OpsOf(w, run[0]), RunOps(cfg, w', run[1..]), e);
    }
  }

  /** In every run an event starts at most once, and once more for each time its marker went away or Redis was away. */
  lemma StartsBounded(cfg: Config, run: seq<Label>, e: EventId)
    requires Legal(cfg, EMPTY, run) && e != ""
    ensures var ops := RunOps(cfg, EMPTY, run);
            Starts(cfg, EMPTY, run, e) <= 1 + Removals({}, ops, e) + FailedOpen(ops, e)
  {
    MarkersRefine(cfg, EMPTY, run, e);
    GrantsBounded(RunOps(cfg, EMPTY, run), e);
  }
}
