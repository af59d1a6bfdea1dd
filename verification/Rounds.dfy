/**
 * A healthy round: one sweep runs to its end, and the messages about the tasks it picked are handled. Whatever state
 * the tasks were in, whatever else happens meanwhile, none of them is left unfinished.
 */
module Rounds {
  import opened Tasks
  import opened Repository
  import opened Batches
  import opened Messages
  import opened Summarizer
  import opened Pipeline
  import opened Runs

  /** The step makes a finished task unfinished again: somebody resets or claims under a live owner's feet. */
  ghost predicate Undoes(w: World, w': World) {
    exists id :: id in w.s.rows && !Waiting(w, id) && Waiting(w', id)
  }

  ghost predicate NeverUndone(cfg: Config, w: World, run: seq<Label>)
    requires Legal(cfg, w, run)
    decreases run
  {
    run != [] ==> !Undoes(w, Next(cfg, w, run[0])) && NeverUndone(cfg, Next(cfg, w, run[0]), run[1..])
  }

  /** The sweep is over, and no message about `ids` is queued or being handled, expired handlers aside. */
  ghost predicate AllHandled(w: World, since: Time, k: nat, ids: set<TaskId>) {
    && k !in w.sweeps
    && (forall m, id :: m in w.work && id in ids ==> !About(m, id))
    && (forall j :: !Minded(w, j, since, ids))
  }

  /**
   * A sweep from its snapshot to its end, and the handling of every message about the tasks in it, the latter without
   * failures (`Prompt`). Nothing is said about the rows.
   */
  ghost predicate Round(cfg: Config, w: World, round: seq<Label>) {
    && round != [] && round[0].Snapshot? && Legal(cfg, w, round)
    && var ids := Ids(round[0].picked);
       && Within(cfg, Prompt(w.now, round[0].k, ids), w, round)
       && AllHandled(After(cfg, w, round), w.now, round[0].k, ids)
  }

  // ----- Where a task stands during a round -----

  /** Handler `j` is about task `id` and not one of those whose time was up. */
  predicate Minds(w: World, j: nat, since: Time, id: TaskId) {
    InHandler(w, j) && since < w.jobs[j].deadline && About(w.jobs[j].msg, id)
  }

  /** Handler `j` owns task `id` and is on its way to complete it. */
  predicate Completes(w: World, j: nat, since: Time, id: TaskId) {
    && Minds(w, j, since, id)
    && (match w.jobs[j].stage.phase
        case Claimed(i) => i == id
        case Asking(i) => i == id
        case Applying(i, _) => i == id
        case _ => false)
  }

  ghost predicate Owned(w: World, since: Time, id: TaskId) {
    exists j :: Completes(w, j, since, id)
  }

  predicate AtClaim(w: World, j: nat, since: Time, id: TaskId) {
    Minds(w, j, since, id) && w.jobs[j].stage.phase == Claiming(id)
  }

  /** Nobody else uses the event id of message body `b`, and no handler that has a copy of it was late at `since`. */
  ghost predicate OwnEvent(w: World, since: Time, b: Body) {
    && SoleBody(w, b)
    && (forall j :: j in w.jobs && w.jobs[j].msg.body.eventId == b.eventId ==> since < w.jobs[j].deadline)
  }

  predicate StartsWith(w: World, j: nat, b: Body) {
    InHandler(w, j) && w.jobs[j].msg.body == b && w.jobs[j].stage.phase == Fresh
  }

  /** A message with body `b` is on its way to a handler that will pass the duplicate guard. */
  ghost predicate UnderWay(w: World, since: Time, b: Body) {
    && b.content.Created? && b.eventId != "" && b.eventId !in w.s.markers && OwnEvent(w, since, b)
    && ((exists m :: m in w.work && m.body == b) || (exists j :: StartsWith(w, j, b)))
  }

  /** Somebody is about to claim task `id`: a handler, or one that gets message `b`. */
  ghost predicate ClaimComing(w: World, since: Time, id: TaskId, b: Body) {
    (b.content.Created? && b.content.taskId == id && UnderWay(w, since, b)) || exists j :: AtClaim(w, j, since, id)
  }

  /** Done, or being done, or pending. */
  ghost predicate Viable(w: World, since: Time, id: TaskId) {
    Done(w, id) || (id in w.s.issued && (Owned(w, since, id) || Claimable(w.s.rows, id)))
  }

  /** Done, or being done, or pending with a claim to come. */
  ghost predicate Secured(w: World, since: Time, id: TaskId, b: Body) {
    || Done(w, id)
    || (id in w.s.issued
        && (Owned(w, since, id) || (Claimable(w.s.rows, id) && ClaimComing(w, since, id, b))))
  }

  // ----- One step -----

  /** A step of a round, in a sound world. */
  ghost predicate RoundStep(cfg: Config, w: World, l: Label, since: Time, k: nat, ids: set<TaskId>) {
    && Enabled(cfg, w, l) && Sound(w) && since <= w.now && PromptStep(w, l, since, k, ids)
    && !Undoes(w, Next(cfg, w, l))
  }

  lemma OverStays(cfg: Config, w: World, l: Label, since: Time, k: nat, ids: set<TaskId>, id: TaskId)
    requires RoundStep(cfg, w, l, since, k, ids) && Done(w, id)
    ensures Done(Next(cfg, w, l), id)
  {
    StepRewrites(cfg, w, l);
  }

  /** A handler that is minded, and does not step itself, stays as it is. */
  lemma MindedStays(cfg: Config, w: World, l: Label, since: Time, k: nat, ids: set<TaskId>, j: nat)
    requires Enabled(cfg, w, l) && PromptStep(w, l, since, k, ids) && Minded(w, j, since, ids)
    requires !(l.Work? && l.j == j)
    ensures var w' := Next(cfg, w, l);
            && InHandler(w', j) && w'.jobs[j].stage == w.jobs[j].stage && w'.jobs[j].msg == w.jobs[j].msg
            && w'.jobs[j].deadline == w.jobs[j].deadline
  {
    if JobLabel(l) {
      if l.j != j {
        OtherJobs(cfg, w, l, j);
      } else {
        assert l.Disconnect?;
      }
    } else {
      assert Next(cfg, w, l).jobs == w.jobs;
    }
  }

  /** The owner goes on to complete the task. */
  lemma OwnerWorks(w: World, j: nat, reply: Reply, since: Time, id: TaskId)
    requires Completes(w, j, since, id) && reply.Ok? && w.now < w.jobs[j].deadline && id in w.s.issued
    ensures var w' := WorkNext(w, j, reply); Completes(w', j, since, id) || Done(w', id)
  {
  }

  lemma OwnedStays(cfg: Config, w: World, l: Label, since: Time, k: nat, ids: set<TaskId>, id: TaskId)
    requires RoundStep(cfg, w, l, since, k, ids) && id in ids && id in w.s.issued && Owned(w, since, id)
    ensures Owned(Next(cfg, w, l), since, id) || Done(Next(cfg, w, l), id)
  {
    var j :| Completes(w, j, since, id);
    assert Minded(w, j, since, ids);
    if l.Work? && l.j == j {
      OwnerWorks(w, j, l.reply, since, id);
    } else {
      MindedStays(cfg, w, l, since, k, ids, j);
      assert Completes(Next(cfg, w, l), j, since, id);
    }
  }

  /** Whoever claims the task becomes an owner that completes it. */
  lemma ClaimOwns(w: World, l: Label, since: Time, id: TaskId)
    requires Sound(w) && since <= w.now && ClaimStep(w, l, id)
    ensures Completes(WorkNext(w, l.j, l.reply), l.j, since, id)
  {
    assert WorksOn(w.jobs[l.j].stage.phase, id);
  }

  /** A pending row stays pending, or is claimed, or gets finished or deleted. */
  lemma PendingGoesOn(cfg: Config, w: World, l: Label, since: Time, k: nat, ids: set<TaskId>, id: TaskId)
    requires RoundStep(cfg, w, l, since, k, ids) && id in ids && Claimable(w.s.rows, id)
    ensures var w' := Next(cfg, w, l);
            Done(w', id) || Claimable(w'.s.rows, id) || (Owned(w', since, id) && ClaimStep(w, l, id))
  {
    StepRewrites(cfg, w, l);
    if ClaimStep(w, l, id) {
      ClaimOwns(w, l, since, id);
    }
  }

  lemma ViableStays(cfg: Config, w: World, l: Label, since: Time, k: nat, ids: set<TaskId>, id: TaskId)
    requires RoundStep(cfg, w, l, since, k, ids) && id in ids && Viable(w, since, id)
    ensures Viable(Next(cfg, w, l), since, id)
  {
    StepRewrites(cfg, w, l);
    if Done(w, id) {
      OverStays(cfg, w, l, since, k, ids, id);
    } else if Owned(w, since, id) {
      OwnedStays(cfg, w, l, since, k, ids, id);
    } else {
      PendingGoesOn(cfg, w, l, since, k, ids, id);
    }
  }

  /** A minded handler at its claim claims a pending task. */
  lemma ClaimerWorks(w: World, j: nat, reply: Reply, since: Time, id: TaskId)
    requires AtClaim(w, j, since, id) && reply.Ok? && w.now < w.jobs[j].deadline && Claimable(w.s.rows, id)
    ensures Completes(WorkNext(w, j, reply), j, since, id)
  {
  }

  lemma AtClaimStays(cfg: Config, w: World, l: Label, since: Time, k: nat, ids: set<TaskId>, id: TaskId, j: nat)
    requires RoundStep(cfg, w, l, since, k, ids) && id in ids && Claimable(w.s.rows, id) && AtClaim(w, j, since, id)
    ensures Owned(Next(cfg, w, l), since, id) || AtClaim(Next(cfg, w, l), j, since, id)
  {
    assert Minded(w, j, since, ids);
    if l.Work? && l.j == j {
      ClaimerWorks(w, j, l.reply, since, id);
      assert Completes(Next(cfg, w, l), j, since, id);
    } else {
      MindedStays(cfg, w, l, since, k, ids, j);
    }
  }

  /** The event stays message `b`'s own: whoever publishes uses another. */
  lemma EventStaysOwn(cfg: Config, w: World, l: Label, since: Time, k: nat, ids: set<TaskId>, b: Body)
    requires Enabled(cfg, w, l) && PromptStep(w, l, since, k, ids) && since <= w.now && UnderWay(w, since, b)
    ensures OwnEvent(Next(cfg, w, l), since, b)
  {
    assert !ForeignUse(w, l, b);
    SoleStays(cfg, w, l, b);
    JobsStay(cfg, w, l);
  }

  /** A fresh handler of `b` gets to its claim. */
  lemma StarterWorks(w: World, j: nat, reply: Reply, since: Time, b: Body)
    requires StartsWith(w, j, b) && b.content.Created? && b.eventId !in w.s.markers && since < w.jobs[j].deadline
    ensures AtClaim(WorkNext(w, j, reply), j, since, b.content.taskId)
  {
  }

  /** Somebody with message `b` takes its marker: it is a handler of `b` that gets to its claim. Nobody else does. */
  lemma MarkerTaken(cfg: Config, w: World, l: Label, since: Time, b: Body)
    requires Enabled(cfg, w, l) && UnderWay(w, since, b) && b.eventId in Next(cfg, w, l).s.markers
    ensures l.Work? && AtClaim(Next(cfg, w, l), l.j, since, b.content.taskId)
  {
    assert l.Work? && InHandler(w, l.j);
    assert Next(cfg, w, l).s == HandlerStep(w, l.j, l.reply).0;
    assert w.jobs[l.j].stage.phase == Fresh && w.jobs[l.j].msg.body.eventId == b.eventId;
    StarterWorks(w, l.j, l.reply, since, b);
  }

  /** The copy of `b` itself: delivered, or still where it was. */
  lemma CopyStays(cfg: Config, w: World, l: Label, since: Time, k: nat, ids: set<TaskId>, b: Body)
    requires Enabled(cfg, w, l) && PromptStep(w, l, since, k, ids) && UnderWay(w, since, b) && b.content.taskId in ids
    ensures var w' := Next(cfg, w, l);
            || (exists m :: m in w'.work && m.body == b) || (exists j :: StartsWith(w', j, b))
            || (exists j :: AtClaim(w', j, since, b.content.taskId))
  {
    if m :| m in w.work && m.body == b {
      QueuedStays(cfg, w, l, m);
    } else {
      var j :| StartsWith(w, j, b);
      assert Minded(w, j, since, ids);
      if l.Work? && l.j == j {
        StarterWorks(w, j, l.reply, since, b);
        assert AtClaim(Next(cfg, w, l), j, since, b.content.taskId);
      } else {
        MindedStays(cfg, w, l, since, k, ids, j);
        assert StartsWith(Next(cfg, w, l), j, b);
      }
    }
  }

  lemma QueuedStays(cfg: Config, w: World, l: Label, m: Message)
    requires Enabled(cfg, w, l) && m in w.work
    ensures var w' := Next(cfg, w, l); m in w'.work || (exists j :: StartsWith(w', j, m.body))
  {
    var w' := Next(cfg, w, l);
    if l.Deliver? {
      assert l.m == m ==> StartsWith(w', l.j, m.body);
    } else {
      assert w.work <= w'.work;
    }
  }

  lemma ClaimStaysComing(cfg: Config, w: World, l: Label, since: Time, k: nat, ids: set<TaskId>, id: TaskId, b: Body)
    requires RoundStep(cfg, w, l, since, k, ids) && id in ids && Claimable(w.s.rows, id) && ClaimComing(w, since, id, b)
    ensures Owned(Next(cfg, w, l), since, id) || ClaimComing(Next(cfg, w, l), since, id, b)
  {
    if j :| AtClaim(w, j, since, id) {
      AtClaimStays(cfg, w, l, since, k, ids, id, j);
    } else {
      EventStaysOwn(cfg, w, l, since, k, ids, b);
      CopyStays(cfg, w, l, since, k, ids, b);
      if b.eventId in Next(cfg, w, l).s.markers {
        MarkerTaken(cfg, w, l, since, b);
      }
    }
  }

  lemma SecuredStays(cfg: Config, w: World, l: Label, since: Time, k: nat, ids: set<TaskId>, id: TaskId, b: Body)
    requires RoundStep(cfg, w, l, since, k, ids) && id in ids && Secured(w, since, id, b)
    ensures Secured(Next(cfg, w, l), since, id, b)
  {
    StepRewrites(cfg, w, l);
    if Done(w, id) {
      OverStays(cfg, w, l, since, k, ids, id);
    } else if Owned(w, since, id) {
      OwnedStays(cfg, w, l, since, k, ids, id);
    } else {
      PendingGoesOn(cfg, w, l, since, k, ids, id);
      ClaimStaysComing(cfg, w, l, since, k, ids, id, b);
    }
  }

  // ----- The sweep -----

  predicate InTurn(w: World, k: nat, i: nat, t: Task) {
    k in w.sweeps && i < |w.sweeps[k].rest| && w.sweeps[k].rest[i] == t
  }

  /** The row was seen in `processing` and sweep `k` has not reset it yet. */
  predicate NeedsReset(w: World, k: nat, i: nat, t: Task)
    requires k in w.sweeps
  {
    t.status == Processing && (i > 0 || w.sweeps[k].stage == Reset)
  }

  ghost predicate ToSend(w: World, since: Time, k: nat, i: nat, t: Task) {
    InTurn(w, k, i, t) && (NeedsReset(w, k, i, t) || Viable(w, since, t.id))
  }

  /** The sweep still has to announce `t`, or its rescue is on the way. */
  ghost predicate Tended(w: World, since: Time, k: nat, t: Task) {
    && t.id in w.s.issued && Unfinished(t)
    && ((exists i :: ToSend(w, since, k, i, t)) || (exists b :: Secured(w, since, t.id, b)))
  }

  /** On to the next row. */
  lemma OnwardTends(w: World, since: Time, k: nat, i: nat, t: Task)
    requires ToSend(w, since, k, i, t) && i > 0 && Unfinished(t)
    ensures InTurn(Onward(w, k), k, i - 1, t)
    ensures NeedsReset(Onward(w, k), k, i - 1, t) || Viable(w, since, t.id)
  {
  }

  /** Announcing a task whose row is in order. */
  lemma Announces(cfg: Config, w: World, l: Label, since: Time, k: nat, ids: set<TaskId>, t: Task)
    requires RoundStep(cfg, w, l, since, k, ids) && t.id in ids && l.SendRow? && l.k == k && Row(w, k) == t
    requires Viable(w, since, t.id)
    ensures Secured(Next(cfg, w, l), since, t.id, Announcement(l.e, t).body)
  {
    var w', b := Next(cfg, w, l), Announcement(l.e, t).body;
    ViableStays(cfg, w, l, since, k, ids, t.id);
    assert Announcement(l.e, t) in w'.work;
    assert OwnEvent(w', since, b);
    assert UnderWay(w', since, b);
  }

  /** A step of sweep `k` leaves its rows as they are, or goes on to the next one. */
  lemma SweepMoves(cfg: Config, w: World, l: Label, since: Time, k: nat, ids: set<TaskId>)
    requires Enabled(cfg, w, l) && PromptStep(w, l, since, k, ids) && SweepLabel(l) && l.k == k
    requires k in w.sweeps && w.sweeps[k].rest != []
    ensures var w' := Next(cfg, w, l);
            || w'.sweeps == Onward(w, k).sweeps
            || (k in w'.sweeps && w'.sweeps[k].rest == w.sweeps[k].rest)
  {
  }

  /** A step of sweep `k` while `t` is its first row. */
  lemma FirstRowTended(cfg: Config, w: World, l: Label, since: Time, k: nat, ids: set<TaskId>, t: Task)
    requires RoundStep(cfg, w, l, since, k, ids) && SweepLabel(l) && l.k == k
    requires t.id in ids && t.id in w.s.issued && Unfinished(t) && ToSend(w, since, k, 0, t)
    ensures Tended(Next(cfg, w, l), since, k, t)
  {
    var w' := Next(cfg, w, l);
    match l
    case ResetRow(_, _) => FirstResetTended(cfg, w, l, since, k, ids, t);
    case ClearRow(_, reply) =>
      ViableStays(cfg, w, l, since, k, ids, t.id);
      ClearNext(cfg, w, k, reply);
      assert ToSend(w', since, k, 0, t);
    case SendRow(_, _, _) => Announces(cfg, w, l, since, k, ids, t);
  }

  lemma FirstResetTended(cfg: Config, w: World, l: Label, since: Time, k: nat, ids: set<TaskId>, t: Task)
    requires RoundStep(cfg, w, l, since, k, ids) && l.ResetRow? && l.k == k
    requires t.id in ids && t.id in w.s.issued && Unfinished(t) && InTurn(w, k, 0, t)
    ensures Tended(Next(cfg, w, l), since, k, t)
  {
    var w' := Next(cfg, w, l);
    if t.id in w.s.rows {
      ResetNext(cfg, w, k, l.reply);
      assert ToSend(w', since, k, 0, t);
    } else {
      assert w'.s == w.s;
      assert Secured(w', since, t.id, Body("", Garbage));
    }
  }

  /** A step of sweep `k` while `t` is further back. */
  lemma LaterRowTended(cfg: Config, w: World, l: Label, since: Time, k: nat, ids: set<TaskId>, t: Task, i: nat)
    requires RoundStep(cfg, w, l, since, k, ids) && SweepLabel(l) && l.k == k
    requires t.id in ids && t.id in w.s.issued && Unfinished(t) && i > 0 && ToSend(w, since, k, i, t)
    ensures Tended(Next(cfg, w, l), since, k, t)
  {
    var w' := Next(cfg, w, l);
    StepRewrites(cfg, w, l);
    if Viable(w, since, t.id) {
      ViableStays(cfg, w, l, since, k, ids, t.id);
    }
    OnwardTends(w, since, k, i, t);
    SweepMoves(cfg, w, l, since, k, ids);
    if w'.sweeps == Onward(w, k).sweeps {
      assert ToSend(w', since, k, i - 1, t);
    } else {
      assert ToSend(w', since, k, i, t);
    }
  }

  lemma OtherSweeps(cfg: Config, w: World, l: Label, k: nat)
    requires Enabled(cfg, w, l) && k in w.sweeps && !(SweepLabel(l) && l.k == k)
    ensures k in Next(cfg, w, l).sweeps && Next(cfg, w, l).sweeps[k] == w.sweeps[k]
  {
  }

  /** A row still to be announced, at a step of anybody. */
  lemma ToSendTended(cfg: Config, w: World, l: Label, since: Time, k: nat, ids: set<TaskId>, t: Task, i: nat)
    requires RoundStep(cfg, w, l, since, k, ids) && t.id in ids && t.id in w.s.issued && Unfinished(t)
    requires ToSend(w, since, k, i, t)
    ensures Tended(Next(cfg, w, l), since, k, t)
  {
    if !(SweepLabel(l) && l.k == k) {
      StepRewrites(cfg, w, l);
      OtherSweeps(cfg, w, l, k);
      if Viable(w, since, t.id) {
        ViableStays(cfg, w, l, since, k, ids, t.id);
      }
      assert ToSend(Next(cfg, w, l), since, k, i, t);
    } else if i == 0 {
      FirstRowTended(cfg, w, l, since, k, ids, t);
    } else {
      LaterRowTended(cfg, w, l, since, k, ids, t, i);
    }
  }

  lemma TendedStays(cfg: Config, w: World, l: Label, since: Time, k: nat, ids: set<TaskId>, t: Task)
    requires RoundStep(cfg, w, l, since, k, ids) && t.id in ids && Tended(w, since, k, t)
    ensures Tended(Next(cfg, w, l), since, k, t)
  {
    if b :| Secured(w, since, t.id, b) {
      StepRewrites(cfg, w, l);
      SecuredStays(cfg, w, l, since, k, ids, t.id, b);
    } else {
      var i :| ToSend(w, since, k, i, t);
      ToSendTended(cfg, w, l, since, k, ids, t, i);
    }
  }

  lemma {:induction false} RunTends(cfg: Config, w: World, run: seq<Label>, since: Time, k: nat, ids: set<TaskId>,
                                    t: Task)
    requires Legal(cfg, w, run) && Within(cfg, Prompt(since, k, ids), w, run) && NeverUndone(cfg, w, run)
    requires Sound(w) && since <= w.now && t.id in ids && Tended(w, since, k, t)
    ensures Tended(After(cfg, w, run), since, k, t)
    decreases run
  {
    if run != [] {
      TendedStays(cfg, w, run[0], since, k, ids, t);
      StepSound(cfg, w, run[0]);
      RunTends(cfg, Next(cfg, w, run[0]), run[1..], since, k, ids, t);
    }
  }

  /** A snapshot tends every row it picks. */
  lemma SnapshotTends(cfg: Config, w: World, l: Label, t: Task)
    requires Sound(w) && l.Snapshot? && Enabled(cfg, w, l) && t in l.picked
    ensures Tended(Next(cfg, w, l), w.now, l.k, t)
  {
    var w' := Next(cfg, w, l);
    var i :| 0 <= i < |l.picked| && l.picked[i] == t;
    assert InTurn(w', l.k, i, t);
    assert ToSend(w', w.now, l.k, i, t);
  }

  /** When everything is handled, nobody owns the task any more and no claim is to come. */
  lemma NobodyLeft(w: World, since: Time, k: nat, ids: set<TaskId>, id: TaskId, b: Body)
    requires AllHandled(w, since, k, ids) && id in ids
    ensures !Owned(w, since, id) && !ClaimComing(w, since, id, b)
  {
    forall j ensures !Minds(w, j, since, id) {
      assert !Minded(w, j, since, ids);
    }
    if b.content.Created? && b.content.taskId == id && UnderWay(w, since, b) {
      if m :| m in w.work && m.body == b {
        assert About(m, id);
      } else {
        var j :| StartsWith(w, j, b);
        assert Minds(w, j, since, id);
      }
    }
  }

  lemma NothingLeft(w: World, since: Time, k: nat, ids: set<TaskId>, t: Task)
    requires AllHandled(w, since, k, ids) && t.id in ids && Tended(w, since, k, t)
    ensures !Waiting(w, t.id)
  {
    assert forall i :: !ToSend(w, since, k, i, t);
    var b :| Secured(w, since, t.id, b);
    NobodyLeft(w, since, k, ids, t.id, b);
  }

  /**
   * A healthy round leaves no picked task unfinished, whatever crashes, markers and messages came before it and
   * whatever the rest of the system does meanwhile, short of undoing finished work.
   */
  lemma RoundFinishes(cfg: Config, w: World, round: seq<Label>, t: Task)
    requires Reachable(cfg, w) && Round(cfg, w, round) && NeverUndone(cfg, w, round) && t in round[0].picked
    ensures !Waiting(After(cfg, w, round), t.id)
  {
    ReachableSound(cfg, w);
    var l, ids := round[0], Ids(round[0].picked);
    SnapshotTends(cfg, w, l, t);
    StepSound(cfg, w, l);
    RunTends(cfg, Next(cfg, w, l), round[1..], w.now, l.k, ids, t);
    NothingLeft(After(cfg, w, round), w.now, l.k, ids, t);
  }

  // ----- Such rounds exist -----

  lemma {:induction false} FreshJob(js: set<nat>) returns (j: nat)
    ensures forall x :: x in js ==> x < j
  {
    if js == {} {
      j := 0;
    } else {
      var x :| x in js;
      var l := FreshJob(js - {x});
      assert forall y :: y in js ==> y == x || y in js - {x};
      j := if l <= x then x + 1 else l;
    }
  }

  lemma UnusedEvent(w: World) returns (e: EventId)
    ensures Unused(w, e)
  {
    var queued := set m | m in w.work :: m.body.eventId;
    var held := set j | j in w.jobs :: w.jobs[j].msg.body.eventId;
    e := FreshEvent(w.s.markers + queued + held);
    assert e !in w.s.markers + queued + held;
    assert forall m :: m in w.work ==> m.body.eventId in queued;
    assert forall j :: j in w.jobs ==> w.jobs[j].msg.body.eventId in held;
  }

  /** The first row of sweep `k` is up, at the given stage. */
  predicate Facing(w: World, k: nat, rest: seq<Task>, stage: RowStage) {
    k in w.sweeps && w.sweeps[k] == Sweep(rest, stage)
  }

  lemma ResetsFirst(cfg: Config, sc: Scope, v: World, w: World, rest: seq<Task>) returns (w': World)
    requires sc.Prompt? && Leads(cfg, sc, v, w) && rest != [] && Facing(w, sc.k, rest, Reset)
    ensures Leads(cfg, sc, v, w') && w'.jobs == w.jobs && w'.now == w.now
    ensures if rest[0].id in w.s.rows then Facing(w', sc.k, rest, Clear)
            else Facing(w', sc.k, rest[1..], FirstStage(rest[1..]))
  {
    w' := Take(cfg, sc, v, w, ResetRow(sc.k, Ok("")));
  }

  lemma ClearsFirst(cfg: Config, sc: Scope, v: World, w: World, rest: seq<Task>) returns (w': World)
    requires sc.Prompt? && Leads(cfg, sc, v, w) && rest != [] && Facing(w, sc.k, rest, Clear)
    ensures Leads(cfg, sc, v, w') && w'.jobs == w.jobs && w'.now == w.now && Facing(w', sc.k, rest, Send)
  {
    w' := Take(cfg, sc, v, w, ClearRow(sc.k, Ok("")));
  }

  lemma SendsFirst(cfg: Config, sc: Scope, v: World, w: World, rest: seq<Task>) returns (w': World)
    requires sc.Prompt? && Leads(cfg, sc, v, w) && rest != [] && Facing(w, sc.k, rest, Send)
    ensures Leads(cfg, sc, v, w') && w'.jobs == w.jobs && w'.now == w.now
    ensures Facing(w', sc.k, rest[1..], FirstStage(rest[1..]))
  {
    var e := UnusedEvent(w);
    w' := Take(cfg, sc, v, w, SendRow(sc.k, e, Confirmed));
  }

  /** Sweep `k` announces its first row, after a reset where one is due, or skips it when it is gone. */
  lemma SweepsOne(cfg: Config, sc: Scope, v: World, w: World, rest: seq<Task>) returns (w': World)
    requires sc.Prompt? && Leads(cfg, sc, v, w) && rest != [] && Facing(w, sc.k, rest, FirstStage(rest))
    ensures Leads(cfg, sc, v, w') && w'.jobs == w.jobs && w'.now == w.now
    ensures Facing(w', sc.k, rest[1..], FirstStage(rest[1..]))
  {
    w' := w;
    if FirstStage(rest) == Reset {
      w' := ResetsFirst(cfg, sc, v, w, rest);
      if rest[0].id !in w.s.rows {
        return;
      }
      w' := ClearsFirst(cfg, sc, v, w', rest);
    }
    w' := SendsFirst(cfg, sc, v, w', rest);
  }

  lemma {:induction false} SweepsAll(cfg: Config, sc: Scope, v: World, w: World, rest: seq<Task>) returns (w': World)
    requires sc.Prompt? && Leads(cfg, sc, v, w) && Facing(w, sc.k, rest, FirstStage(rest))
    ensures Leads(cfg, sc, v, w') && w'.jobs == w.jobs && w'.now == w.now && sc.k !in w'.sweeps
    decreases |rest|
  {
    if rest == [] {
      w' := Take(cfg, sc, v, w, StopSweep(sc.k));
    } else {
      var w1 := SweepsOne(cfg, sc, v, w, rest);
      w' := SweepsAll(cfg, sc, v, w1, rest[1..]);
    }
  }

  /** A handler gets on with every step, and nobody else is affected. */
  lemma GetsOn(w: World, j: nat, reply: Reply)
    requires InHandler(w, j)
    ensures var w' := WorkNext(w, j, reply);
            && (InHandler(w', j) ==> Remaining(w'.jobs[j].stage.phase) < Remaining(w.jobs[j].stage.phase)
                                     && w'.jobs[j].deadline == w.jobs[j].deadline)
            && w'.jobs - {j} == w.jobs - {j} && j in w'.jobs
  {
    assert WorkNext(w, j, reply).jobs - {j} == w.jobs - {j};
  }

  /** A handler that gets its answers in time returns. */
  lemma {:induction false} RunsOut(cfg: Config, sc: Scope, v: World, w: World, j: nat) returns (w': World)
    requires sc.Prompt? && Leads(cfg, sc, v, w) && InHandler(w, j) && w.now < w.jobs[j].deadline
    ensures Leads(cfg, sc, v, w') && w'.now == w.now && w'.sweeps == w.sweeps && w'.work == w.work
    ensures !InHandler(w', j) && w'.jobs - {j} == w.jobs - {j}
    decreases Remaining(w.jobs[j].stage.phase)
  {
    GetsOn(w, j, Ok(""));
    w' := TakeWork(cfg, sc, v, w, j, Ok(""));
    if InHandler(w', j) {
      w' := RunsOut(cfg, sc, v, w', j);
    }
  }

  /** Only job `j` has moved, and it is not in its handler any more. */
  lemma OthersMinded(w: World, w': World, j: nat, since: Time, ids: set<TaskId>)
    requires !InHandler(w', j) && w'.jobs - {j} == w.jobs - {j}
    ensures forall o :: Minded(w', o, since, ids) ==> o != j && Minded(w, o, since, ids)
  {
    forall o: nat | o != j && o in w'.jobs ensures o in w.jobs && w'.jobs[o] == w.jobs[o] {
      assert o in w'.jobs - {j};
      assert (w'.jobs - {j})[o] == (w.jobs - {j})[o];
    }
  }

  function MindedJobs(w: World, since: Time, ids: set<TaskId>): set<nat> {
    set j | j in w.jobs && Minded(w, j, since, ids)
  }

  /** The handlers that are at work on the tasks return. */
  lemma {:induction false} RunsAllOut(cfg: Config, sc: Scope, v: World, w: World) returns (w': World)
    requires sc.Prompt? && Leads(cfg, sc, v, w) && w.now <= sc.since
    ensures Leads(cfg, sc, v, w') && w'.now == w.now && w'.sweeps == w.sweeps
    ensures forall j :: !Minded(w', j, sc.since, sc.ids)
    decreases |MindedJobs(w, sc.since, sc.ids)|
  {
    w' := w;
    if j :| Minded(w, j, sc.since, sc.ids) {
      var w1 := RunsOut(cfg, sc, v, w, j);
      OthersMinded(w, w1, j, sc.since, sc.ids);
      SubsetSize(MindedJobs(w1, sc.since, sc.ids) + {j}, MindedJobs(w, sc.since, sc.ids));
      w' := RunsAllOut(cfg, sc, v, w1);
    }
  }

  /** One message is delivered and handled. */
  lemma HandlesOne(cfg: Config, sc: Scope, v: World, w: World, m: Message) returns (w': World)
    requires sc.Prompt? && Leads(cfg, sc, v, w) && m in w.work && sc.k !in w.sweeps
    requires forall j :: !Minded(w, j, sc.since, sc.ids)
    ensures Leads(cfg, sc, v, w') && w'.work == w.work - multiset{m} && sc.k !in w'.sweeps
    ensures forall j :: !Minded(w', j, sc.since, sc.ids)
  {
    var j := FreshJob(w.jobs.Keys);
    var w1 := TakeDelivery(cfg, sc, v, w, j, m);
    w' := RunsOut(cfg, sc, v, w1, j);
    assert w'.jobs - {j} == w.jobs - {j};
    OthersMinded(w, w', j, sc.since, sc.ids);
  }

  /** All messages about the tasks get delivered and handled. */
  lemma {:induction false} HandlesAll(cfg: Config, sc: Scope, v: World, w: World) returns (w': World)
    requires sc.Prompt? && Leads(cfg, sc, v, w) && sc.k !in w.sweeps
    requires forall j :: !Minded(w, j, sc.since, sc.ids)
    ensures Leads(cfg, sc, v, w') && AllHandled(w', sc.since, sc.k, sc.ids)
    decreases |w.work|
  {
    w' := w;
    if m, id :| m in w.work && id in sc.ids && About(m, id) {
      var w1 := HandlesOne(cfg, sc, v, w, m);
      w' := HandlesAll(cfg, sc, v, w1);
    }
  }

  /** Any batch that the stale query may answer has a healthy round, whatever state its tasks are in. */
  lemma RoundExists(cfg: Config, w: World, k: nat, picked: seq<Task>) returns (round: seq<Label>)
    requires k < cfg.replicas && k !in w.sweeps
    requires StaleBatch(w.s.rows, w.now - cfg.pendingGrace, w.now - cfg.processingTimeout, cfg.batchSize, picked)
    ensures Round(cfg, w, round) && round[0] == Snapshot(k, w.now, picked)
  {
    var sc, l := Prompt(w.now, k, Ids(picked)), Snapshot(k, w.now, picked);
    assert Enabled(cfg, w, l) && Allowed(sc, w, l);
    var w1 := Next(cfg, w, l);
    Stay(cfg, sc, w1);
    var w2 := SweepsAll(cfg, sc, w1, w1, picked);
    var w3 := RunsAllOut(cfg, sc, w1, w2);
    var w4 := HandlesAll(cfg, sc, w1, w3);
    round := FirstThen(cfg, sc, w, l, w4);
  }

  lemma FirstThen(cfg: Config, sc: Scope, w: World, l: Label, w': World) returns (run: seq<Label>)
    requires Enabled(cfg, w, l) && Allowed(sc, w, l) && Leads(cfg, sc, Next(cfg, w, l), w')
    ensures run != [] && run[0] == l && Legal(cfg, w, run) && Within(cfg, sc, w, run) && After(cfg, w, run) == w'
  {
    var w1 := Next(cfg, w, l);
    var more :| Legal(cfg, w1, more) && Within(cfg, sc, w1, more) && After(cfg, w1, more) == w';
    Cons(cfg, sc, w, l, more);
    run := [l] + more;
  }

  function WaitingIds(w: World): set<TaskId> {
    set id | id in w.s.rows && Waiting(w, id)
  }

  /** With time, all unfinished work is stale. */
  lemma TimePasses(cfg: Config, sc: Scope, o: World, v: World) returns (w: World)
    requires Configured(cfg) && Leads(cfg, sc, o, v) && TableSound(v) && Allowed(sc, v, Tick(Patience(cfg)))
    ensures Leads(cfg, sc, o, w) && w.s == v.s && w.sweeps == v.sweeps
    ensures StaleIds(w.s.rows, w.now - cfg.pendingGrace, w.now - cfg.processingTimeout) == WaitingIds(v)
  {
    w := TakeTick(cfg, sc, o, v, Patience(cfg));
  }

  function Patience(cfg: Config): nat
    requires Configured(cfg)
  {
    cfg.pendingGrace + cfg.processingTimeout + 1
  }

  lemma FullRound(cfg: Config, w: World, k: nat) returns (round: seq<Label>)
    requires Keyed(w.s.rows) && k < cfg.replicas && k !in w.sweeps
    ensures Round(cfg, w, round)
    ensures var n := |StaleIds(w.s.rows, w.now - cfg.pendingGrace, w.now - cfg.processingTimeout)|;
            |round[0].picked| == if n < cfg.batchSize then n else cfg.batchSize
  {
    var picked := StaleBatchExists(w.s.rows, w.now - cfg.pendingGrace, w.now - cfg.processingTimeout, cfg.batchSize);
    round := RoundExists(cfg, w, k, picked);
  }

  /** So every reachable world with an idle reconciler has one ahead of it, for as full a batch as there is work. */
  lemma RoundAhead(cfg: Config, v: World, k: nat) returns (w: World, round: seq<Label>)
    requires Configured(cfg) && Reachable(cfg, v) && k < cfg.replicas && k !in v.sweeps
    ensures Reachable(cfg, w) && w.s == v.s && Round(cfg, w, round)
    ensures var n := |WaitingIds(v)|; |round[0].picked| == if n < cfg.batchSize then n else cfg.batchSize
  {
    w := StaleAhead(cfg, v);
    round := FullRound(cfg, w, k);
  }

  lemma StaleAhead(cfg: Config, v: World) returns (w: World)
    requires Configured(cfg) && Reachable(cfg, v)
    ensures Reachable(cfg, w) && Keyed(w.s.rows) && w.s == v.s && w.sweeps == v.sweeps
    ensures StaleIds(w.s.rows, w.now - cfg.pendingGrace, w.now - cfg.processingTimeout) == WaitingIds(v)
  {
    ReachableSound(cfg, v);
    w := TimePasses(cfg, AnyStep, EMPTY, v);
  }
}
