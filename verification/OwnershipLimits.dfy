/** Ownership is exclusive exactly in the guarded configurations: each hypothesis is necessary. */
module OwnershipLimits {
  import opened Tasks
  import opened Repository
  import opened Messages
  import opened Summarizer
  import opened Consumers
  import opened Pipeline
  import opened Runs
  import opened Ownership

  /** Job 0 claims task 0 as soon as it is announced. */
  lemma FirstClaim(cfg: Config, sc: Scope) returns (w: World, t: Task)
    requires Serves(sc, 1)
    ensures Leads(cfg, sc, EMPTY, w) && w.now == 0 && w.sweeps == map[]
    ensures w.s.rows == map[0 := t] && t.id == 0 && t.status == Processing && t.createdAt == t.updatedAt == 0
    ensures w.jobs.Keys == {0} && w.jobs[0].stage == Handling(Claimed(0)) && w.jobs[0].deadline == HANDLER_LIMIT
    ensures w.requests.Keys == {0} && w.requests[0] == Over
  {
    var v, t0, m := FirstTask(cfg, sc);
    NoJobs(v.jobs);
    w := ServesClaim(cfg, sc, v, 0, m);
    FirstOfAll(v, t0, m);
    t := WithClaim(v, 0, m).s.rows[0];
  }

  lemma FirstOfAll(v: World, t: Task, m: Message)
    requires v.s.rows == map[0 := t] && v.jobs == map[] && About(m, 0) && v.now == 0 && t == NewTask(0, "t", "", 0)
    ensures var w := WithClaim(v, 0, m);
            && 0 in w.s.rows && w.s.rows == map[0 := w.s.rows[0]] && w.s.rows[0].id == 0
            && w.s.rows[0].status == Processing && w.s.rows[0].createdAt == w.s.rows[0].updatedAt == 0
            && w.jobs.Keys == {0} && w.jobs[0].stage == Handling(Claimed(0)) && w.jobs[0].deadline == HANDLER_LIMIT
  {
  }

  lemma NoJobs(jobs: map<nat, Job>)
    requires jobs == map[]
    ensures |jobs| == 0
  {
  }

  /** The clock moves past the processing timeout. */
  lemma StaleClaim(cfg: Config, sc: Scope) returns (w: World, t: Task)
    requires Configured(cfg) && Serves(sc, 1)
    ensures Leads(cfg, sc, EMPTY, w) && w.now == cfg.processingTimeout + 1 && w.sweeps == map[]
    ensures w.s.rows == map[0 := t] && t.id == 0 && t.status == Processing && t.createdAt == t.updatedAt == 0
    ensures w.jobs.Keys == {0} && w.jobs[0].stage == Handling(Claimed(0)) && w.jobs[0].deadline == HANDLER_LIMIT
    ensures w.requests.Keys == {0} && w.requests[0] == Over
  {
    w, t := FirstClaim(cfg, sc);
    w := TakeTick(cfg, sc, EMPTY, w, cfg.processingTimeout + 1);
  }

  /** Sweep `k` looks at the table, whose only row is stale. */
  lemma Looks(cfg: Config, sc: Scope, w: World, k: nat, t: Task) returns (w': World)
    requires Configured(cfg) && k < cfg.replicas && Serves(sc, 0) && Leads(cfg, sc, EMPTY, w) && k !in w.sweeps
    requires w.s.rows == map[0 := t] && t.id == 0 && t.status == Processing
    requires t.updatedAt < w.now - cfg.processingTimeout
    ensures Leads(cfg, sc, EMPTY, w') && w' == w.(sweeps := w.sweeps[k := Sweep([t], Reset)])
  {
    OnlyStale(cfg, w.s.rows, w.now, t);
    w' := TakeSnapshot(cfg, sc, EMPTY, w, k, [t]);
  }

  lemma OnlyStale(cfg: Config, rows: Rows, at: Time, t: Task)
    requires Configured(cfg) && rows == map[0 := t] && t.id == 0
    requires t.status == Processing && t.updatedAt < at - cfg.processingTimeout
    ensures StaleBatch(rows, at - cfg.pendingGrace, at - cfg.processingTimeout, cfg.batchSize, [t])
  {
  }

  /** Sweep `k` resets the row of task 0 that it saw in `processing`, and announces the task again. */
  lemma Republishes(cfg: Config, sc: Scope, w: World, k: nat) returns (w': World, m: Message)
    requires Serves(sc, 0) && Leads(cfg, sc, EMPTY, w) && RowAt(w, k, Reset) && Row(w, k).id == 0 && 0 in w.s.rows
    ensures Leads(cfg, sc, EMPTY, w') && w'.now == w.now && w'.jobs == w.jobs && w'.s.markers == w.s.markers
    ensures Claimable(w'.s.rows, 0) && m in w'.work && About(m, 0)
    ensures m.body.eventId != "" && m.body.eventId !in w.s.markers
    ensures forall o :: o != k && o in w.sweeps ==> o in w'.sweeps && w'.sweeps[o] == w.sweeps[o]
  {
    var e := FreshEvent(w.s.markers);
    m := Announcement(e, Row(w, k));
    var w1 := TakeReset(cfg, sc, EMPTY, w, k);
    var w2 := TakeClear(cfg, sc, EMPTY, w1, k);
    w' := TakeSend(cfg, sc, EMPTY, w2, k, e, Confirmed);
  }

  /** And worker `j`, in a team of more than are at work, claims it. */
  lemma HandsOver(cfg: Config, sc: Scope, w: World, k: nat, j: nat) returns (w': World)
    requires Serves(sc, |w.jobs| + 1) && Leads(cfg, sc, EMPTY, w) && j !in w.jobs
    requires RowAt(w, k, Reset) && Row(w, k).id == 0 && 0 in w.s.rows
    ensures Leads(cfg, sc, EMPTY, w') && w'.now == w.now && 0 in w'.s.rows
    ensures LiveOwner(w', j, 0) && w'.jobs[j].stage == Handling(Claimed(0)) && w'.jobs == w.jobs[j := w'.jobs[j]]
    ensures forall o :: o != k && o in w.sweeps ==> o in w'.sweeps && w'.sweeps[o] == w.sweeps[o]
  {
    var w1, m := Republishes(cfg, sc, w, k);
    w' := ServesClaim(cfg, sc, w1, j, m);
  }

  /** Two workers hold a fresh claim of task 0 and can both still write. */
  ghost predicate Contested(cfg: Config, sc: Scope, w: World, a: nat, b: nat) {
    && Leads(cfg, sc, EMPTY, w) && a != b && 0 in w.s.rows
    && LiveOwner(w, a, 0) && w.jobs[a].stage == Handling(Claimed(0))
    && LiveOwner(w, b, 0) && w.jobs[b].stage == Handling(Claimed(0))
  }

  /** A claim can outlive the processing timeout: the reconciler hands the task to a second worker. */
  lemma ShortTimeoutBreaks(cfg: Config, sc: Scope) returns (w: World)
    requires Configured(cfg) && cfg.replicas >= 1 && cfg.processingTimeout + 1 < HANDLER_LIMIT && Serves(sc, 2)
    ensures Contested(cfg, sc, w, 0, 1)
  {
    var v, t := StaleClaim(cfg, sc);
    var w1 := Looks(cfg, sc, v, 0, t);
    LoneJob(w1.jobs, 0);
    assert LiveOwner(w1, 0, 0) && 1 !in w1.jobs;
    w := HandsOver(cfg, sc, w1, 0, 1);
    assert w.jobs[0] == w1.jobs[0];
  }

  lemma LoneJob(jobs: map<nat, Job>, j: nat)
    requires jobs.Keys == {j}
    ensures |jobs| == 1
  {
    assert |jobs| == |jobs.Keys|;
  }

  /** Two reconcilers see the same dead claim. */
  lemma BothSeeIt(cfg: Config, sc: Scope) returns (w: World, t: Task)
    requires Configured(cfg) && cfg.replicas >= 2 && Serves(sc, 1)
    ensures Leads(cfg, sc, EMPTY, w) && w.jobs.Keys == {0} && w.jobs[0].stage == Handling(Claimed(0))
    ensures w.s.rows == map[0 := t] && t.id == 0 && t.status == Processing
    ensures w.sweeps == map[0 := Sweep([t], Reset), 1 := Sweep([t], Reset)]
  {
    w, t := StaleClaim(cfg, sc);
    w := Looks(cfg, sc, w, 0, t);
    w := Looks(cfg, sc, w, 1, t);
    assert w.sweeps == map[0 := Sweep([t], Reset), 1 := Sweep([t], Reset)];
  }

  /** The only worker dies. */
  lemma Dies(cfg: Config, sc: Scope, w: World, j: nat) returns (w': World)
    requires (sc.Wired? || sc.Team?) && Leads(cfg, sc, EMPTY, w) && w.jobs.Keys == {j}
    ensures Leads(cfg, sc, EMPTY, w') && w'.jobs == map[] && w'.s == w.s && w'.sweeps == w.sweeps && w'.now == w.now
  {
    w' := Take(cfg, sc, EMPTY, w, Crash(j));
    assert w'.jobs == map[];
  }

  /** The worker dies, and the faster reconciler hands the task to another one. */
  lemma OneHandsOver(cfg: Config, sc: Scope) returns (w: World)
    requires Configured(cfg) && cfg.replicas >= 2 && (sc.Wired? || sc.Team?) && Serves(sc, 1)
    ensures Leads(cfg, sc, EMPTY, w) && w.jobs.Keys == {1} && 0 in w.s.rows
    ensures LiveOwner(w, 1, 0) && w.jobs[1].stage == Handling(Claimed(0))
    ensures RowAt(w, 1, Reset) && Row(w, 1).id == 0
  {
    var v, t := BothSeeIt(cfg, sc);
    var w1 := Dies(cfg, sc, v, 0);
    NoJobs(w1.jobs);
    w := HandsOver(cfg, sc, w1, 0, 1);
  }

  /** The slower one then resets the row under its new owner. */
  lemma TwoReconcilersBreak(cfg: Config, sc: Scope) returns (w: World)
    requires Configured(cfg) && cfg.replicas >= 2 && (sc.Wired? || sc.Team?) && Serves(sc, 2)
    ensures Contested(cfg, sc, w, 1, 2)
  {
    var v := OneHandsOver(cfg, sc);
    LoneJob(v.jobs, 1);
    w := HandsOver(cfg, sc, v, 1, 2);
    assert LiveOwner(w, 1, 0);
  }

  lemma ContestedWorld(cfg: Config, sc: Scope) returns (w: World, a: nat, b: nat)
    requires Configured(cfg) && !Guarded(cfg) && (sc.Wired? || sc.Team?) && Serves(sc, 2)
    ensures Contested(cfg, sc, w, a, b)
  {
    if cfg.replicas >= 2 {
      w := TwoReconcilersBreak(cfg, sc);
      a, b := 1, 2;
    } else {
      w := ShortTimeoutBreaks(cfg, sc);
      a, b := 0, 1;
    }
  }

  /** One contender completes the task; then the other fails and puts it back to `pending`. */
  lemma ContestUndoesCompletion(cfg: Config, sc: Scope, w: World, a: nat, b: nat) returns (v: World, l: Label)
    requires Contested(cfg, sc, w, a, b) && Serves(sc, 0)
    ensures Leads(cfg, sc, EMPTY, v) && Enabled(cfg, v, l) && Allowed(sc, v, l)
    ensures IsCompleted(v, 0) && Claimable(Next(cfg, v, l).s.rows, 0)
  {
    var u := OtherFails(cfg, sc, w, b, a);
    v := Answers(cfg, sc, u, a);
    l := Work(b, Ok(""));
    assert Next(cfg, v, l) == WorkNext(v, b, Ok(""));
    GivesUp(v, b);
  }

  lemma GivesUp(w: World, b: nat)
    requires InHandler(w, b) && w.jobs[b].stage.phase == Resetting(0) && w.now < w.jobs[b].deadline && 0 in w.s.rows
    ensures Claimable(WorkNext(w, b, Ok("")).s.rows, 0)
  {
  }

  lemma Restaged(jobs: map<nat, Job>, j: nat, before: Stage, after: Stage)
    requires j in jobs
    ensures var once := jobs[j := jobs[j].(stage := before)];
            once[j := once[j].(stage := after)] == jobs[j := jobs[j].(stage := after)]
  {
  }

  lemma GetsAnswer(cfg: Config, sc: Scope, w: World, a: nat, text: string) returns (w': World)
    requires Serves(sc, 0) && Leads(cfg, sc, EMPTY, w) && InHandler(w, a) && w.jobs[a].stage.phase == Claimed(0)
    ensures Leads(cfg, sc, EMPTY, w')
    ensures w' == AtStage(w, a, Handling(Applying(0, text))).(s := w.s.(cache := w.s.cache - {0}))
  {
    var w1 := GoesAsking(cfg, sc, EMPTY, w, a, 0);
    w' := HearsBack(cfg, sc, EMPTY, w1, a, 0, Reply.Ok(text));
    Restaged(w.jobs, a, Handling(Asking(0)), Handling(Applying(0, text)));
  }

  /** The LLM answers job `a`, which completes the task; nobody else has moved. */
  lemma Answers(cfg: Config, sc: Scope, w: World, a: nat) returns (w': World)
    requires Serves(sc, 0) && Leads(cfg, sc, EMPTY, w) && 0 in w.s.rows
    requires LiveOwner(w, a, 0) && w.jobs[a].stage == Handling(Claimed(0))
    ensures Leads(cfg, sc, EMPTY, w') && w'.now == w.now && w'.sweeps == w.sweeps && w'.requests == w.requests
    ensures IsCompleted(w', 0) && w'.s.rows[0].id == w.s.rows[0].id
    ensures w'.jobs == w.jobs[a := w.jobs[a].(stage := Handling(Rereading(0)))]
  {
    var text := "summary";
    var w1 := GetsAnswer(cfg, sc, w, a, text);
    w' := RecordsAnswer(cfg, sc, EMPTY, w1, a, 0, text);
    Restaged(w.jobs, a, Handling(Applying(0, text)), Handling(Rereading(0)));
  }

  /** The LLM fails job `b`, which is about to reset the row; job `a` has not moved. */
  lemma OtherFails(cfg: Config, sc: Scope, w: World, b: nat, a: nat) returns (w': World)
    requires Contested(cfg, sc, w, a, b) && Serves(sc, 0)
    ensures Leads(cfg, sc, EMPTY, w') && w'.now == w.now && 0 in w'.s.rows
    ensures a in w'.jobs && w'.jobs[a] == w.jobs[a]
    ensures b in w'.jobs && w'.jobs[b].stage == Handling(Resetting(0)) && w'.jobs[b].deadline == w.jobs[b].deadline
  {
    w' := GoesAsking(cfg, sc, EMPTY, w, b, 0);
    w' := HearsBack(cfg, sc, EMPTY, w', b, 0, Err);
    w' := GivesMarkerBack(cfg, sc, EMPTY, w', b, 0);
  }

  // ----- One worker -----

  /** With one worker, at most one job is not parked. */
  lemma {:induction false} OneBusy(cfg: Config, n: nat, w: World, run: seq<Label>)
    requires n <= 1 && Legal(cfg, w, run) && Within(cfg, Team(n), w, run) && |Busy(w)| <= 1
    ensures |Busy(After(cfg, w, run))| <= 1
    decreases run
  {
    if run != [] {
      StepBusy(cfg, w, run[0]);
      OneBusy(cfg, n, Next(cfg, w, run[0]), run[1..]);
    }
  }

  /** Only a delivery makes another job busy. */
  lemma StepBusy(cfg: Config, w: World, l: Label)
    requires Enabled(cfg, w, l)
    ensures |Busy(Next(cfg, w, l))| <= |Busy(w)| + if l.Deliver? then 1 else 0
  {
    var a, b := Busy(w), Busy(Next(cfg, w, l));
    if JobLabel(l) {
      JobBusy(cfg, w, l);
      if l.Deliver? {
        SubsetSize(b, a + {l.j});
      } else {
        SubsetSize(b, a);
      }
    } else {
      assert Next(cfg, w, l).jobs == w.jobs;
    }
  }

  lemma JobBusy(cfg: Config, w: World, l: Label)
    requires Enabled(cfg, w, l) && JobLabel(l)
    ensures Busy(Next(cfg, w, l)) <= Busy(w) + if l.Deliver? then {l.j} else {}
  {
    match l
    case Deliver(_, _) =>
    case Work(_, _) =>
    case Settle(j, reply) => SettlingBusy(w, j, reply);
    case Disconnect(_) =>
    case Crash(_) =>
  }

  lemma SettlingBusy(w: World, j: nat, reply: Reply)
    requires j in w.jobs && !w.jobs[j].stage.Handling?
    ensures Busy(SettleNext(w, j, reply)) <= Busy(w)
  {
  }

  lemma OneWorkerExclusive(cfg: Config, n: nat, w: World)
    requires n <= 1 && DeployedBy(cfg, n, w)
    ensures Exclusive(w)
  {
    var run :| Legal(cfg, EMPTY, run) && Within(cfg, Team(n), EMPTY, run) && After(cfg, EMPTY, run) == w;
    OneBusy(cfg, n, EMPTY, run);
    forall a: nat, b: nat, id | LiveOwner(w, a, id) && LiveOwner(w, b, id) ensures a == b {
      if a != b {
        SubsetSize({a, b}, Busy(w));
      }
    }
  }

  /**
   * A task never has two owners that can write, in any run of the system on its own messages with `n` workers, if and
   * only if there is one worker, or there is at most one reconciler and its processing timeout is not shorter than a
   * handler's context.
   */
  lemma ExclusiveIff(cfg: Config, n: nat)
    requires Configured(cfg)
    ensures (forall w :: DeployedBy(cfg, n, w) ==> Exclusive(w))
       <==> n <= 1 || cfg.replicas == 0 || (cfg.replicas == 1 && 120_000_000_000 <= cfg.processingTimeout + 1)
  {
    if n <= 1 {
      forall w | DeployedBy(cfg, n, w) ensures Exclusive(w) {
        OneWorkerExclusive(cfg, n, w);
      }
    } else if Guarded(cfg) {
      forall w | DeployedBy(cfg, n, w) ensures Exclusive(w) {
        ScopeReachable(cfg, Team(n), w);
        OneOwner(cfg, w);
      }
    } else {
      var w, a, b := ContestedWorld(cfg, Team(n));
      assert !Exclusive(w);
    }
  }

  // ----- The lifecycle -----

  /** A worker completes the task that a sweep is about to reset. */
  lemma CompletedUnderSweep(cfg: Config, sc: Scope) returns (w: World, k: nat)
    requires Configured(cfg) && !Guarded(cfg) && (sc.Wired? || sc.Team?) && Serves(sc, 1)
    ensures Leads(cfg, sc, EMPTY, w) && RowAt(w, k, Reset) && Row(w, k).id == 0 && IsCompleted(w, 0)
  {
    if cfg.replicas >= 2 {
      var v := OneHandsOver(cfg, sc);
      w := Answers(cfg, sc, v, 1);
      k := 1;
    } else {
      w := CompletedLate(cfg, sc);
      k := 0;
    }
  }

  lemma CompletedLate(cfg: Config, sc: Scope) returns (w: World)
    requires Configured(cfg) && cfg.replicas >= 1 && cfg.processingTimeout + 1 < HANDLER_LIMIT && Serves(sc, 1)
    ensures Leads(cfg, sc, EMPTY, w) && RowAt(w, 0, Reset) && Row(w, 0).id == 0 && IsCompleted(w, 0)
  {
    var v, t := StaleClaim(cfg, sc);
    var w1 := Looks(cfg, sc, v, 0, t);
    w := Answers(cfg, sc, w1, 0);
  }

  /**
   * Every step of every run follows the documented lifecycle if and only if there is at most one reconciler and its
   * timeout is not shorter than a handler's context; that there is only one worker does not help.
   */
  lemma LifecycleIff(cfg: Config, n: nat)
    requires Configured(cfg) && 1 <= n
    ensures (forall w, l :: DeployedBy(cfg, n, w) && Enabled(cfg, w, l) && Allowed(Team(n), w, l) ==>
               Follows(w, Next(cfg, w, l)))
       <==> cfg.replicas == 0 || (cfg.replicas == 1 && 120_000_000_000 <= cfg.processingTimeout + 1)
  {
    if Guarded(cfg) {
      forall w, l | DeployedBy(cfg, n, w) && Enabled(cfg, w, l) && Allowed(Team(n), w, l)
        ensures Follows(w, Next(cfg, w, l))
      {
        ScopeReachable(cfg, Team(n), w);
        LifecycleHolds(cfg, w, l);
      }
    } else {
      var w, k := CompletedUnderSweep(cfg, Team(n));
      var l := ResetRow(k, Ok(""));
      ResetNext(cfg, w, k, Ok(""));
      assert !RowFollows(w.s.rows[0], Next(cfg, w, l).s.rows[0]);
    }
  }
}
