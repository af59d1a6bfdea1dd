/** No message is lost before it was handled, and a late duplicate of finished work does nothing. */
module Delivery {
  import opened Tasks
  import opened Repository
  import opened Messages
  import opened Summarizer
  import opened Pipeline
  import opened Runs
  import opened Accounting

  // ----- At least once -----

  /** A message with body `b` is among `ms`. */
  ghost predicate Has(ms: multiset<Message>, b: Body) {
    exists m :: m in ms && m.body == b
  }

  /** Job `j` holds an unacknowledged copy that it is not about to acknowledge. */
  predicate Holds(w: World, j: nat, b: Body) {
    j in w.jobs && w.jobs[j].held && w.jobs[j].msg.body == b && !w.jobs[j].stage.Acking?
  }

  /** A copy of `b` is in the work queue, in the dead-letter queue or unacknowledged. */
  ghost predicate HasCopy(w: World, b: Body) {
    Has(w.work, b) || Has(w.dlq, b) || exists j :: Holds(w, j, b)
  }

  /** The step makes a handler call on a copy of `b` return without an error. */
  ghost predicate HandledOk(w: World, l: Label, b: Body) {
    l.Work? && InHandler(w, l.j) && w.jobs[l.j].msg.body == b && HandlerStep(w, l.j, l.reply).1 == Returned(true)
  }

  /** The step puts a message with body `b` on the queue: a publish of the service or of anybody else. */
  ghost predicate Sends(w: World, l: Label, b: Body) {
    || (l.Inject? && l.m.body == b)
    || (l.Announce? && l.r in w.requests && w.requests[l.r].Announcing? && !l.publish.Lost?
        && Announcement(l.e, w.requests[l.r].t).body == b)
    || (l.SendRow? && RowAt(w, l.k, Send) && !l.publish.Lost? && Announcement(l.e, Row(w, l.k)).body == b)
  }

  ghost predicate EverSent(cfg: Config, w: World, run: seq<Label>, b: Body)
    requires Legal(cfg, w, run)
    decreases run
  {
    run != [] && (Sends(w, run[0], b) || EverSent(cfg, Next(cfg, w, run[0]), run[1..], b))
  }

  ghost predicate EverHandledOk(cfg: Config, w: World, run: seq<Label>, b: Body)
    requires Legal(cfg, w, run)
    decreases run
  {
    run != [] && (HandledOk(w, run[0], b) || EverHandledOk(cfg, Next(cfg, w, run[0]), run[1..], b))
  }

  lemma QueueKeeps(a: multiset<Message>, m: Message, b: Body)
    requires Has(a, b)
    ensures Has(a + multiset{m}, b)
    ensures m.body != b ==> Has(a - multiset{m}, b)
  {
    var x :| x in a && x.body == b;
    assert x in a + multiset{m};
    assert m.body != b ==> x in a - multiset{m};
  }

  lemma QueueGets(a: multiset<Message>, m: Message)
    ensures Has(a + multiset{m}, m.body)
  {
    assert m in a + multiset{m};
  }

  lemma WorkKeepsCopy(w: World, j: nat, reply: Reply, b: Body)
    requires InHandler(w, j) && Holds(w, j, b) && HandlerStep(w, j, reply).1 != Returned(true)
    ensures Holds(WorkNext(w, j, reply), j, b)
  {
  }

  lemma SettleKeepsCopy(w: World, j: nat, reply: Reply, b: Body)
    requires j in w.jobs && !w.jobs[j].stage.Handling? && Holds(w, j, b)
    ensures HasCopy(SettleNext(w, j, reply), b)
  {
    var w' := SettleNext(w, j, reply);
    QueueGets(w.work, Bumped(w.jobs[j].msg));
    QueueGets(w.dlq, w.jobs[j].msg);
    assert Has(w'.work, b) || Has(w'.dlq, b) || Holds(w', j, b);
  }

  lemma LossKeepsCopy(w: World, j: nat, b: Body)
    requires Holds(w, j, b)
    ensures Has(Requeued(w, j), b)
  {
    QueueGets(w.work, w.jobs[j].msg);
  }

  /** A job's own step: its copy stays, moves to a queue, or was handled. */
  lemma JobKeepsCopy(cfg: Config, w: World, l: Label, b: Body)
    requires Enabled(cfg, w, l) && JobLabel(l) && !l.Deliver? && !HandledOk(w, l, b) && Holds(w, l.j, b)
    ensures HasCopy(Next(cfg, w, l), b)
  {
    match l
    case Work(j, reply) => WorkKeepsCopy(w, j, reply, b);
    case Settle(j, reply) => SettleKeepsCopy(w, j, reply, b);
    case Disconnect(j) => LossKeepsCopy(w, j, b);
    case Crash(j) => LossKeepsCopy(w, j, b);
  }

  /** Another job's copy is not affected. */
  lemma OthersKeepCopy(cfg: Config, w: World, l: Label, j: nat, b: Body)
    requires Enabled(cfg, w, l) && Holds(w, j, b) && !(JobLabel(l) && l.j == j)
    ensures Holds(Next(cfg, w, l), j, b)
  {
    if JobLabel(l) {
      OtherJobs(cfg, w, l, j);
    }
  }

  /** A queued copy stays queued unless it is delivered; a dead letter stays. */
  lemma QueuesKeepCopy(cfg: Config, w: World, l: Label, b: Body)
    requires Enabled(cfg, w, l) && (Has(w.work, b) || Has(w.dlq, b))
    ensures HasCopy(Next(cfg, w, l), b)
  {
    var w' := Next(cfg, w, l);
    if Has(w.dlq, b) {
      var x :| x in w.dlq && x.body == b;
      assert x in w'.dlq;
    } else if l.Deliver? {
      QueueKeeps(w.work, l.m, b);
      assert l.m.body == b ==> Holds(w', l.j, b);
    } else {
      var x :| x in w.work && x.body == b;
      assert x in w'.work;
    }
  }

  lemma StepKeepsCopy(cfg: Config, w: World, l: Label, b: Body)
    requires Enabled(cfg, w, l) && HasCopy(w, b) && !HandledOk(w, l, b)
    ensures HasCopy(Next(cfg, w, l), b)
  {
    if Has(w.work, b) || Has(w.dlq, b) {
      QueuesKeepCopy(cfg, w, l, b);
    } else {
      var j :| Holds(w, j, b);
      if JobLabel(l) && l.j == j {
        JobKeepsCopy(cfg, w, l, b);
      } else {
        OthersKeepCopy(cfg, w, l, j, b);
      }
    }
  }

  lemma SentIsCopied(cfg: Config, w: World, l: Label, b: Body)
    requires Enabled(cfg, w, l) && Sends(w, l, b)
    ensures HasCopy(Next(cfg, w, l), b)
  {
    match l
    case Inject(m) => QueueGets(w.work, m);
    case Announce(r, e, _) => QueueGets(w.work, Announcement(e, w.requests[r].t));
    case SendRow(k, e, _) => QueueGets(w.work, Announcement(e, Row(w, k)));
  }

  /**
   * At-least-once: in every run, through crashes, lost connections, failed acknowledgements and failed republishes, a
   * message that was ever enqueued has a copy queued, unacknowledged or dead-lettered until a handler accepted it.
   */
  lemma {:induction false} NeverLost(cfg: Config, w: World, run: seq<Label>, b: Body)
    requires Legal(cfg, w, run)
    requires HasCopy(w, b) || EverSent(cfg, w, run, b)
    ensures EverHandledOk(cfg, w, run, b) || HasCopy(After(cfg, w, run), b)
    decreases run
  {
    if run != [] && !HandledOk(w, run[0], b) {
      var w' := Next(cfg, w, run[0]);
      if HasCopy(w, b) {
        StepKeepsCopy(cfg, w, run[0], b);
      } else if Sends(w, run[0], b) {
        SentIsCopied(cfg, w, run[0], b);
      }
      NeverLost(cfg, w', run[1..], b);
    }
  }

  // ----- Conservation -----

  /** The jobs whose delivery RabbitMQ still counts as unacknowledged. */
  function HeldJobs(w: World): set<nat> {
    set j | j in w.jobs && w.jobs[j].held
  }

  /** All the messages there are: queued, dead-lettered or unacknowledged. */
  function MessageCount(w: World): nat {
    |w.work| + |w.dlq| + |HeldJobs(w)|
  }

  /** The step enqueues a message: a publish that is not lost, or a republish for another attempt. */
  ghost predicate Enqueues(w: World, l: Label) {
    || l.Inject?
    || (l.Announce? && l.r in w.requests && w.requests[l.r].Announcing? && !l.publish.Lost?)
    || (l.SendRow? && RowAt(w, l.k, Send) && !l.publish.Lost?)
    || (l.Settle? && l.j in w.jobs && w.jobs[l.j].stage == Retrying && w.jobs[l.j].held && l.reply.Ok?)
  }

  /** The step acknowledges one. */
  predicate Acknowledges(w: World, l: Label) {
    l.Settle? && l.j in w.jobs && w.jobs[l.j].stage == Acking && w.jobs[l.j].held && l.reply.Ok?
  }

  lemma SettlingConserves(w: World, j: nat, reply: Reply)
    requires j in w.jobs && !w.jobs[j].stage.Handling?
    ensures var w', l := SettleNext(w, j, reply), Settle(j, reply);
            MessageCount(w') == MessageCount(w) + Bit(Enqueues(w, l)) - Bit(Acknowledges(w, l))
  {
    var w' := SettleNext(w, j, reply);
    if j in w'.jobs {
      HeldAlike(w, w', j);
    } else {
      HeldWithout(w, w', j);
    }
  }

  lemma HeldAlike(w: World, w': World, j: nat)
    requires j in w.jobs && j in w'.jobs && w'.jobs == w.jobs[j := w'.jobs[j]] && w'.jobs[j].held == w.jobs[j].held
    ensures HeldJobs(w') == HeldJobs(w)
  {
  }

  lemma HeldWithout(w: World, w': World, j: nat)
    requires j in w.jobs && w'.jobs == w.jobs - {j}
    ensures HeldJobs(w') == HeldJobs(w) - {j}
  {
  }

  lemma DeliveryConserves(w: World, j: nat, m: Message)
    requires j !in w.jobs && m in w.work
    ensures MessageCount(Delivered(w, j, m)) == MessageCount(w)
  {
    assert HeldJobs(Delivered(w, j, m)) == HeldJobs(w) + {j};
  }

  lemma WorkConserves(w: World, j: nat, reply: Reply)
    requires InHandler(w, j)
    ensures MessageCount(WorkNext(w, j, reply)) == MessageCount(w)
  {
    assert HeldJobs(WorkNext(w, j, reply)) == HeldJobs(w);
  }

  /** A delivery that is still held goes back to the queue. */
  lemma LossConserves(w: World, w': World, j: nat)
    requires j in w.jobs && w'.work == Requeued(w, j) && w'.dlq == w.dlq
    requires forall o :: o in w'.jobs && w'.jobs[o].held ==> o != j && o in w.jobs && w.jobs[o].held
    requires forall o :: o != j && o in w.jobs && w.jobs[o].held ==> o in w'.jobs && w'.jobs[o].held
    ensures MessageCount(w') == MessageCount(w)
  {
    assert HeldJobs(w') == HeldJobs(w) - {j};
  }

  lemma JobConserves(cfg: Config, w: World, l: Label)
    requires Enabled(cfg, w, l) && JobLabel(l) && !l.Settle?
    ensures MessageCount(JobNext(cfg, w, l)) == MessageCount(w)
  {
    match l
    case Deliver(j, m) => DeliveryConserves(w, j, m);
    case Work(j, reply) => WorkConserves(w, j, reply);
    case Disconnect(j) => LossConserves(w, JobNext(cfg, w, l), j);
    case Crash(j) => LossConserves(w, JobNext(cfg, w, l), j);
  }

  lemma PublishConserves(cfg: Config, w: World, l: Label)
    requires Enabled(cfg, w, l) && !JobLabel(l)
    ensures MessageCount(Next(cfg, w, l)) == MessageCount(w) + Bit(Enqueues(w, l))
  {
    assert HeldJobs(Next(cfg, w, l)) == HeldJobs(w);
  }

  /** Only a publish or an acknowledgement changes the number of messages; crashes and lost connections do not. */
  lemma StepConserves(cfg: Config, w: World, l: Label)
    requires Enabled(cfg, w, l)
    ensures MessageCount(Next(cfg, w, l)) == MessageCount(w) + Bit(Enqueues(w, l)) - Bit(Acknowledges(w, l))
  {
    if l.Settle? {
      SettlingConserves(w, l.j, l.reply);
      assert Next(cfg, w, l) == SettleNext(w, l.j, l.reply);
    } else if JobLabel(l) {
      JobConserves(cfg, w, l);
      assert Next(cfg, w, l) == JobNext(cfg, w, l);
    } else {
      PublishConserves(cfg, w, l);
    }
  }

  ghost function EnqueuedIn(cfg: Config, w: World, run: seq<Label>): nat
    requires Legal(cfg, w, run)
    decreases run
  {
    if run == [] then 0 else Bit(Enqueues(w, run[0])) + EnqueuedIn(cfg, Next(cfg, w, run[0]), run[1..])
  }

  ghost function AcknowledgedIn(cfg: Config, w: World, run: seq<Label>): nat
    requires Legal(cfg, w, run)
    decreases run
  {
    if run == [] then 0 else Bit(Acknowledges(w, run[0])) + AcknowledgedIn(cfg, Next(cfg, w, run[0]), run[1..])
  }

  /** Conservation over every run: what was enqueued is acknowledged, dead-lettered, unacknowledged or still queued. */
  lemma {:induction false} MessagesConserved(cfg: Config, w: World, run: seq<Label>)
    requires Legal(cfg, w, run)
    ensures MessageCount(w) + EnqueuedIn(cfg, w, run) == MessageCount(After(cfg, w, run)) + AcknowledgedIn(cfg, w, run)
    decreases run
  {
    if run != [] {
      StepConserves(cfg, w, run[0]);
      MessagesConserved(cfg, Next(cfg, w, run[0]), run[1..]);
    }
  }

  // ----- Accepted and worked on -----

  /** The step decides on the task of message `b`: nothing to claim, completed, or gone in the meantime. */
  ghost predicate Worked(w: World, l: Label, b: Body) {
    && l.Work? && InHandler(w, l.j) && w.jobs[l.j].msg.body == b
    && var p, p' := w.jobs[l.j].stage.phase, HandlerStep(w, l.j, l.reply).1;
       (p.Claiming? && p' == Returned(true)) || (p.Applying? && !p'.Releasing?)
  }

  ghost predicate EverWorked(cfg: Config, w: World, run: seq<Label>, b: Body)
    requires Legal(cfg, w, run)
    decreases run
  {
    run != [] && (Worked(w, run[0], b) || EverWorked(cfg, Next(cfg, w, run[0]), run[1..], b))
  }

  ghost predicate AnyMishap(w: World, l: Label, b: Body) {
    || Happens(FailedClaim, w, l, b) || Happens(FailedRelease, w, l, b) || Happens(Crashed, w, l, b)
    || Happens(CutOff, w, l, b) || Happens(ForeignEvent, w, l, b)
  }

  ghost predicate Smooth(cfg: Config, w: World, run: seq<Label>, b: Body)
    requires Legal(cfg, w, run)
    decreases run
  {
    run != [] ==> !AnyMishap(w, run[0], b) && Smooth(cfg, Next(cfg, w, run[0]), run[1..], b)
  }

  /** Handlers of `b` have not decided on the task, and hold their delivery until they have given up. */
  predicate Undecided(w: World, j: nat, b: Body) {
    InHandler(w, j) && w.jobs[j].msg.body == b ==>
      || w.jobs[j].stage.phase.Resetting? || w.jobs[j].stage.phase.Clearing?
      || (w.jobs[j].held && (w.jobs[j].stage.phase == Fresh || InHands(w, j, b)))
  }

  /** The marker of `b` is in the hands of one of its handlers. */
  ghost predicate MarkerHeld(w: World, b: Body) {
    b.eventId in w.s.markers ==> b.eventId != "" && exists j :: InHands(w, j, b)
  }

  ghost predicate Pristine(w: World, b: Body) {
    b.content.Created? && SoleBody(w, b) && (forall j :: Undecided(w, j, b)) && MarkerHeld(w, b)
  }

  lemma WorkUndecided(w: World, j: nat, reply: Reply, b: Body)
    requires InHandler(w, j) && b.content.Created? && Undecided(w, j, b)
    requires !Worked(w, Work(j, reply), b) && !AnyMishap(w, Work(j, reply), b)
    ensures Undecided(WorkNext(w, j, reply), j, b)
  {
  }

  lemma OwnUndecided(cfg: Config, w: World, l: Label, b: Body)
    requires Enabled(cfg, w, l) && JobLabel(l) && b.content.Created? && Undecided(w, l.j, b)
    requires !Worked(w, l, b) && !AnyMishap(w, l, b)
    ensures Undecided(JobNext(cfg, w, l), l.j, b)
  {
    match l
    case Deliver(_, _) =>
    case Work(j, reply) => WorkUndecided(w, j, reply, b);
    case Settle(j, reply) => SettlingHandlers(w, j, reply);
    case Disconnect(_) =>
    case Crash(_) =>
  }

  lemma StepUndecided(cfg: Config, w: World, l: Label, b: Body, j: nat)
    requires Enabled(cfg, w, l) && Pristine(w, b) && !Worked(w, l, b) && !AnyMishap(w, l, b)
    ensures Undecided(Next(cfg, w, l), j, b)
  {
    assert Undecided(w, j, b);
    if JobLabel(l) && l.j == j {
      OwnUndecided(cfg, w, l, b);
    } else if JobLabel(l) && j in w.jobs {
      OtherJobs(cfg, w, l, j);
    } else if JobLabel(l) {
      JobsStay(cfg, w, l);
    } else {
      assert Next(cfg, w, l).jobs == w.jobs;
    }
  }

  /** A handler that may have the marker keeps it in hand, or gives it back. */
  lemma WorkKeepsMarker(w: World, j: nat, reply: Reply, b: Body)
    requires InHandler(w, j) && b.content.Created? && MarkerHeld(w, b)
    requires !Worked(w, Work(j, reply), b) && !AnyMishap(w, Work(j, reply), b)
    requires w.jobs[j].msg.body.eventId == b.eventId ==> w.jobs[j].msg.body == b
    ensures MarkerHeld(WorkNext(w, j, reply), b)
  {
    var w' := WorkNext(w, j, reply);
    assert w'.s == HandlerStep(w, j, reply).0;
    if b.eventId in w'.s.markers {
      if b.eventId in w.s.markers {
        var o :| InHands(w, o, b);
        assert InHands(w', o, b) || o == j;
        assert o == j ==> InHands(w', j, b);
      } else {
        assert InHands(w', j, b);
      }
    }
  }

  lemma StepKeepsMarker(cfg: Config, w: World, l: Label, b: Body)
    requires Enabled(cfg, w, l) && Pristine(w, b) && !Worked(w, l, b) && !AnyMishap(w, l, b)
    ensures MarkerHeld(Next(cfg, w, l), b)
  {
    if l.Work? {
      WorkKeepsMarker(w, l.j, l.reply, b);
      assert Next(cfg, w, l) == WorkNext(w, l.j, l.reply);
    } else if b.eventId in w.s.markers {
      var j :| InHands(w, j, b);
      OthersKeepHands(cfg, w, l, j, b);
    } else {
      assert Next(cfg, w, l).s.markers <= w.s.markers;
    }
  }

  lemma OthersKeepHands(cfg: Config, w: World, l: Label, j: nat, b: Body)
    requires Enabled(cfg, w, l) && !l.Work? && !AnyMishap(w, l, b) && InHands(w, j, b)
    ensures InHands(Next(cfg, w, l), j, b)
  {
    if JobLabel(l) && l.j != j {
      OtherJobs(cfg, w, l, j);
    }
  }

  /** A drop as a duplicate leaves the copy of the handler that has the marker. */
  lemma DropKeepsCopy(cfg: Config, w: World, l: Label, b: Body)
    requires Enabled(cfg, w, l) && Pristine(w, b) && HandledOk(w, l, b) && !Worked(w, l, b)
    ensures HasCopy(Next(cfg, w, l), b)
  {
    assert Undecided(w, l.j, b);
    assert w.jobs[l.j].stage.phase == Fresh && b.eventId in w.s.markers;
    var o :| InHands(w, o, b);
    assert Undecided(w, o, b);
    assert Next(cfg, w, l) == WorkNext(w, l.j, l.reply);
    assert Holds(Next(cfg, w, l), o, b);
  }

  lemma StepPristine(cfg: Config, w: World, l: Label, b: Body)
    requires Enabled(cfg, w, l) && Pristine(w, b) && !Worked(w, l, b) && !AnyMishap(w, l, b)
    ensures Pristine(Next(cfg, w, l), b)
    ensures HasCopy(w, b) ==> HasCopy(Next(cfg, w, l), b)
  {
    SoleStays(cfg, w, l, b);
    forall j ensures Undecided(Next(cfg, w, l), j, b) {
      StepUndecided(cfg, w, l, b, j);
    }
    StepKeepsMarker(cfg, w, l, b);
    if HasCopy(w, b) {
      if HandledOk(w, l, b) {
        DropKeepsCopy(cfg, w, l, b);
      } else {
        StepKeepsCopy(cfg, w, l, b);
      }
    }
  }

  /**
   * `NeverLost` counts a message as accepted that was only dropped as a duplicate of itself. Without a mishap no
   * message about a task is lost that way either: it has a copy until a handler has decided on its task.
   */
  lemma {:induction false} KeptUntilWorked(cfg: Config, w: World, run: seq<Label>, b: Body)
    requires Legal(cfg, w, run) && Smooth(cfg, w, run, b) && Pristine(w, b)
    requires HasCopy(w, b) || EverSent(cfg, w, run, b)
    ensures EverWorked(cfg, w, run, b) || HasCopy(After(cfg, w, run), b)
    decreases run
  {
    if run != [] && !Worked(w, run[0], b) {
      StepPristine(cfg, w, run[0], b);
      if !HasCopy(w, b) && Sends(w, run[0], b) {
        SentIsCopied(cfg, w, run[0], b);
      }
      KeptUntilWorked(cfg, Next(cfg, w, run[0]), run[1..], b);
    }
  }

  // ----- Each mishap can lose a message -----

  lemma TakeSettle(cfg: Config, sc: Scope, v: World, w: World, j: nat) returns (w': World)
    requires sc.Except? && Leads(cfg, sc, v, w) && j in w.jobs && !w.jobs[j].stage.Handling?
    ensures Leads(cfg, sc, v, w') && w' == SettleNext(w, j, Ok(""))
  {
    assert Next(cfg, w, Settle(j, Ok(""))) == SettleNext(w, j, Ok(""));
    w' := Take(cfg, sc, v, w, Settle(j, Ok("")));
  }

  /** A handler with a marked event is done. */
  lemma FindsMarker(cfg: Config, sc: Scope, v: World, w: World, j: nat) returns (w': World)
    requires sc.Except? && Leads(cfg, sc, v, w) && InHandler(w, j) && w.jobs[j].stage.phase == Fresh
    requires var b := w.jobs[j].msg.body; b.content.Created? && b.eventId != "" && b.eventId in w.s.markers
    ensures Leads(cfg, sc, v, w') && w' == AtStage(w, j, Acking)
  {
    DroppedAtGuard(w.s, w.jobs[j].msg.body);
    w' := TakeWork(cfg, sc, v, w, j, Ok(""));
  }

  lemma DroppedAtGuard(s: Stores, b: Body)
    requires b.content.Created? && b.eventId != "" && b.eventId in s.markers
    ensures StepFresh(s, b, Ok("")) == (s, Returned(true))
  {
  }

  lemma Acks(cfg: Config, sc: Scope, v: World, w: World, j: nat) returns (w': World)
    requires sc.Except? && Leads(cfg, sc, v, w) && j in w.jobs && w.jobs[j].stage == Acking && w.jobs[j].held
    ensures Leads(cfg, sc, v, w') && w' == w.(jobs := w.jobs - {j})
  {
    w' := TakeSettle(cfg, sc, v, w, j);
  }

  /** A queued copy of a marked message is delivered, dropped as a duplicate and acknowledged. */
  lemma DropsCopy(cfg: Config, sc: Scope, v: World, w: World, j: nat, m: Message) returns (w': World)
    requires sc.Except? && Leads(cfg, sc, v, w) && j !in w.jobs && m in w.work
    requires m.body.content.Created? && m.body.eventId != "" && m.body.eventId in w.s.markers
    ensures Leads(cfg, sc, v, w') && w' == w.(work := w.work - multiset{m})
  {
    var w1 := TakeDelivery(cfg, sc, v, w, j, m);
    var w2 := FindsMarker(cfg, sc, v, w1, j);
    w' := Acks(cfg, sc, v, w2, j);
    assert w'.jobs == w.jobs;
  }

  /** The only job's retry is enqueued and its delivery acknowledged. */
  lemma Retries(cfg: Config, sc: Scope, v: World, w: World, j: nat) returns (w': World)
    requires sc.Except? && Leads(cfg, sc, v, w) && j in w.jobs && w.jobs[j].stage == Retrying && w.jobs[j].held
    ensures Leads(cfg, sc, v, w')
    ensures w' == w.(jobs := w.jobs - {j}, work := w.work + multiset{Bumped(w.jobs[j].msg)})
  {
    var w1 := TakeSettle(cfg, sc, v, w, j);
    w' := Acks(cfg, sc, v, w1, j);
    assert w'.jobs == w.jobs - {j};
  }

  /** Without its connection, a job can neither republish nor reject. */
  lemma RetriesInVain(cfg: Config, sc: Scope, v: World, w: World, j: nat) returns (w': World)
    requires sc.Except? && Leads(cfg, sc, v, w) && j in w.jobs && w.jobs[j].stage == Retrying && !w.jobs[j].held
    ensures Leads(cfg, sc, v, w') && w' == AtStage(w, j, Parked)
  {
    SettlesInVain(w, j);
    var w1 := TakeSettle(cfg, sc, v, w, j);
    w' := TakeSettle(cfg, sc, v, w1, j);
  }

  lemma SettlesInVain(w: World, j: nat)
    requires j in w.jobs && w.jobs[j].stage == Retrying && !w.jobs[j].held
    ensures var w1 := SettleNext(w, j, Ok(""));
            && j in w1.jobs && !w1.jobs[j].stage.Handling?
            && SettleNext(w1, j, Ok("")) == AtStage(w, j, Parked)
  {
    assert SettleNext(w, j, Ok("")) == AtStage(w, j, Rejecting);
    assert AtStage(AtStage(w, j, Rejecting), j, Parked).jobs == AtStage(w, j, Parked).jobs;
  }

  /** A message has reached job 0 and passed the guard. */
  lemma GetsToClaim(cfg: Config, sc: Scope, v: World, w: World, m: Message) returns (w': World)
    requires sc.Except? && Leads(cfg, sc, v, w) && w.jobs == map[] && m in w.work && m.body.content.Created?
    requires m.body.eventId != "" && m.body.eventId !in w.s.markers
    ensures Leads(cfg, sc, v, w') && w' == AtItsClaim(w, 0, m)
  {
    var w1 := TakeDelivery(cfg, sc, v, w, 0, m);
    w' := PassesGuard(cfg, sc, v, w1, 0, m.body.eventId, m.body.content.taskId);
    GuardedDelivery(w, 0, m);
  }

  lemma LosesClaim(cfg: Config, sc: Scope, v: World, w: World, j: nat, id: TaskId) returns (w': World)
    requires sc.Except? && sc.kind.FailedClaim? && Leads(cfg, sc, v, w)
    requires InHandler(w, j) && w.jobs[j].stage.phase == Claiming(id) && RetryCount(w.jobs[j].msg.retries) < MAX_RETRIES
    ensures Leads(cfg, sc, v, w') && w' == AtStage(w, j, Retrying)
  {
    w' := TakeWork(cfg, sc, v, w, j, Err);
  }

  lemma ReleaseLost(w: World, j: nat, id: TaskId)
    requires InHandler(w, j) && w.jobs[j].stage.phase == Releasing(id)
    ensures WorkNext(w, j, Err) == AtStage(w, j, Handling(Resetting(id)))
  {
    assert HandlerStep(w, j, Err).0.markers == w.s.markers;
  }

  lemma LosesRelease(cfg: Config, sc: Scope, v: World, w: World, j: nat, id: TaskId) returns (w': World)
    requires sc.Except? && sc.kind.FailedRelease? && Leads(cfg, sc, v, w)
    requires InHandler(w, j) && w.jobs[j].stage.phase == Releasing(id)
    ensures Leads(cfg, sc, v, w') && w' == AtStage(w, j, Handling(Resetting(id)))
  {
    ReleaseLost(w, j, id);
    w' := TakeWork(cfg, sc, v, w, j, Err);
  }

  /** A handler that has claimed its task is failed by the LLM. */
  lemma FailedByLlm(cfg: Config, sc: Scope, v: World, w: World, j: nat, id: TaskId) returns (w': World)
    requires sc.Except? && Leads(cfg, sc, v, w) && InHandler(w, j) && w.jobs[j].stage.phase == Claiming(id)
    requires Claimable(w.s.rows, id) && w.now < w.jobs[j].deadline
    ensures Leads(cfg, sc, v, w') && id in w'.s.rows
    ensures w' == w.(s := w.s.(rows := w'.s.rows, cache := w'.s.cache), jobs := w'.jobs)
    ensures w'.jobs == w.jobs[j := w.jobs[j].(stage := Handling(Releasing(id)), claimedAt := w.now)]
  {
    var w1 := WinsClaim(cfg, sc, v, w, j, id);
    var w2 := GoesAsking(cfg, sc, v, w1, j, id);
    w' := HearsBack(cfg, sc, v, w2, j, id, Err);
    assert w'.jobs == w.jobs[j := w'.jobs[j]];
  }

  /** It puts the row back to `pending`. */
  lemma PutsRowBack(cfg: Config, sc: Scope, v: World, w: World, j: nat, id: TaskId) returns (w': World)
    requires sc.Except? && Leads(cfg, sc, v, w) && InHandler(w, j) && w.jobs[j].stage.phase == Resetting(id)
    requires id in w.s.rows && w.now < w.jobs[j].deadline
    ensures Leads(cfg, sc, v, w')
    ensures w' == AtStage(w, j, Handling(Clearing(id)))
                    .(s := w.s.(rows := StatusWritten(w.s.rows, id, Pending, "", w.now)))
  {
    w' := TakeWork(cfg, sc, v, w, j, Ok(""));
  }

  /** It drops the cached row and is to be retried. */
  lemma DropsCached(cfg: Config, sc: Scope, v: World, w: World, j: nat, id: TaskId) returns (w': World)
    requires sc.Except? && Leads(cfg, sc, v, w) && InHandler(w, j) && w.jobs[j].stage.phase == Clearing(id)
    requires RetryCount(w.jobs[j].msg.retries) < MAX_RETRIES
    ensures Leads(cfg, sc, v, w') && w' == AtStage(w, j, Retrying).(s := w.s.(cache := w.s.cache - {id}))
  {
    w' := TakeWork(cfg, sc, v, w, j, Ok(""));
  }

  lemma GivesRowBack(cfg: Config, sc: Scope, v: World, w: World, j: nat, id: TaskId) returns (w': World)
    requires sc.Except? && Leads(cfg, sc, v, w) && InHandler(w, j) && w.jobs[j].stage.phase == Resetting(id)
    requires id in w.s.rows && w.now < w.jobs[j].deadline && RetryCount(w.jobs[j].msg.retries) < MAX_RETRIES
    ensures Leads(cfg, sc, v, w') && Claimable(w'.s.rows, id)
    ensures w' == AtStage(w, j, Retrying).(s := w.s.(rows := w'.s.rows, cache := w'.s.cache))
  {
    var w1 := PutsRowBack(cfg, sc, v, w, j, id);
    w' := DropsCached(cfg, sc, v, w1, j, id);
    assert w'.jobs == AtStage(w, j, Retrying).jobs;
  }

  /** Task 0 is unfinished, no copy of its message is left, and none is being handled. */
  ghost predicate Lost(w: World, b: Body) {
    && Waiting(w, 0) && b.content.Created? && b.content.taskId == 0 && !HasCopy(w, b)
    && forall j :: InHandler(w, j) ==> w.jobs[j].msg.body != b
  }

  /** The only message of `v`, which announces its pending task 0. */
  predicate JustAnnounced(v: World, m: Message) {
    && v.jobs == map[] && v.work == multiset{m} && v.dlq == multiset{} && v.s.markers == {}
    && About(m, 0) && m.body.eventId != "" && m.retries == Absent && Claimable(v.s.rows, 0)
  }

  lemma NothingLeft(w: World, b: Body)
    requires w.work == w.dlq == multiset{} && Waiting(w, 0) && b.content.Created? && b.content.taskId == 0
    requires forall j :: j in w.jobs ==> !w.jobs[j].held || w.jobs[j].msg.body != b
    requires forall j :: InHandler(w, j) ==> w.jobs[j].msg.body != b
    ensures Lost(w, b)
  {
  }

  /** Job 0 alone handles message `m` of task 0 and may have its marker; no other copy is left. */
  predicate OnlyHandled(w: World, m: Message) {
    && w.jobs.Keys == {0} && w.jobs[0].msg == m && InHandler(w, 0) && w.now < w.jobs[0].deadline
    && w.work == w.dlq == multiset{} && 0 in w.s.rows
    && About(m, 0) && m.retries == Absent && m.body.eventId != ""
  }

  /** Only the queued message `m` of the pending task 0 is left, and its event is marked. */
  predicate OnlyQueued(w: World, m: Message) {
    && w.jobs == map[] && w.work == multiset{m} && w.dlq == multiset{} && Claimable(w.s.rows, 0)
    && About(m, 0) && m.body.eventId != "" && m.body.eventId in w.s.markers
  }

  lemma ToItsClaim(cfg: Config, sc: Scope, v: World, m: Message) returns (w: World)
    requires sc.Except? && JustAnnounced(v, m)
    ensures Leads(cfg, sc, v, w) && OnlyHandled(w, m) && w.jobs[0].held && w.jobs[0].stage == Handling(Claiming(0))
    ensures m.body.eventId in w.s.markers && Claimable(w.s.rows, 0)
  {
    Stay(cfg, sc, v);
    w := GetsToClaim(cfg, sc, v, v, m);
    assert w.jobs.Keys == {0} && w.work == multiset{};
  }

  lemma ToItsRelease(cfg: Config, sc: Scope, v: World, w: World, m: Message) returns (w': World)
    requires sc.Except? && Leads(cfg, sc, v, w) && OnlyHandled(w, m) && w.jobs[0].stage == Handling(Claiming(0))
    requires Claimable(w.s.rows, 0)
    ensures Leads(cfg, sc, v, w') && OnlyHandled(w', m) && w'.jobs[0].stage == Handling(Releasing(0))
    ensures w'.jobs[0].held == w.jobs[0].held && w'.s.markers == w.s.markers
  {
    w' := FailedByLlm(cfg, sc, v, w, 0, 0);
  }

  lemma ToItsRetry(cfg: Config, sc: Scope, v: World, w: World, m: Message) returns (w': World)
    requires sc.Except? && Leads(cfg, sc, v, w) && OnlyHandled(w, m) && w.jobs[0].stage == Handling(Resetting(0))
    ensures Leads(cfg, sc, v, w') && Claimable(w'.s.rows, 0) && w'.s.markers == w.s.markers
    ensures w'.jobs.Keys == {0} && w'.jobs[0] == w.jobs[0].(stage := Retrying)
    ensures w'.work == w'.dlq == multiset{}
  {
    w' := GivesRowBack(cfg, sc, v, w, 0, 0);
  }

  lemma QueuedAgain(cfg: Config, sc: Scope, v: World, w: World, m: Message) returns (w': World)
    requires sc.Except? && Leads(cfg, sc, v, w) && w.jobs.Keys == {0} && w.jobs[0].stage == Retrying && w.jobs[0].held
    requires w.jobs[0].msg == m && w.work == w.dlq == multiset{} && Claimable(w.s.rows, 0)
    requires About(m, 0) && m.body.eventId != "" && m.body.eventId in w.s.markers
    ensures Leads(cfg, sc, v, w') && OnlyQueued(w', Bumped(m))
  {
    w' := Retries(cfg, sc, v, w, 0);
    assert w'.jobs == map[] && w'.work == multiset{Bumped(m)};
  }

  /** The last copy is dropped. */
  lemma LastDropped(cfg: Config, sc: Scope, v: World, w: World, m: Message) returns (w': World)
    requires sc.Except? && Leads(cfg, sc, v, w) && OnlyQueued(w, m)
    ensures Leads(cfg, sc, v, w') && Lost(w', m.body)
  {
    w' := DropsCopy(cfg, sc, v, w, 0, m);
    assert w'.work == multiset{};
    NothingLeft(w', m.body);
  }

  lemma LostByClaim(cfg: Config, v: World, m: Message) returns (w: World)
    requires JustAnnounced(v, m)
    ensures Leads(cfg, Except(FailedClaim, m.body), v, w) && Lost(w, m.body)
  {
    var sc := Except(FailedClaim, m.body);
    var w1 := ToItsClaim(cfg, sc, v, m);
    var w2 := LosesClaim(cfg, sc, v, w1, 0, 0);
    var w3 := QueuedAgain(cfg, sc, v, w2, m);
    w := LastDropped(cfg, sc, v, w3, Bumped(m));
  }

  lemma LostByRelease(cfg: Config, v: World, m: Message) returns (w: World)
    requires JustAnnounced(v, m)
    ensures Leads(cfg, Except(FailedRelease, m.body), v, w) && Lost(w, m.body)
  {
    var sc := Except(FailedRelease, m.body);
    var w1 := ToItsClaim(cfg, sc, v, m);
    var w2 := ToItsRelease(cfg, sc, v, w1, m);
    var w3 := LosesRelease(cfg, sc, v, w2, 0, 0);
    var w4 := ToItsRetry(cfg, sc, v, w3, m);
    var w5 := QueuedAgain(cfg, sc, v, w4, m);
    w := LastDropped(cfg, sc, v, w5, Bumped(m));
  }

  lemma LostByCrash(cfg: Config, v: World, m: Message) returns (w: World)
    requires JustAnnounced(v, m)
    ensures Leads(cfg, Except(Crashed, m.body), v, w) && Lost(w, m.body)
  {
    var sc := Except(Crashed, m.body);
    var w1 := ToItsClaim(cfg, sc, v, m);
    var w2 := CrashesAtClaim(cfg, v, w1, m);
    w := LastDropped(cfg, sc, v, w2, m);
  }

  lemma CrashesAtClaim(cfg: Config, v: World, w: World, m: Message) returns (w': World)
    requires Leads(cfg, Except(Crashed, m.body), v, w) && OnlyHandled(w, m) && w.jobs[0].held
    requires w.jobs[0].stage == Handling(Claiming(0)) && m.body.eventId in w.s.markers && Claimable(w.s.rows, 0)
    ensures Leads(cfg, Except(Crashed, m.body), v, w') && OnlyQueued(w', m)
  {
    w' := Take(cfg, Except(Crashed, m.body), v, w, Crash(0));
    assert w'.jobs == map[] && w'.work == multiset{m};
  }

  /** The connection of a handler is lost at its claim: its message is queued again. */
  lemma CutsOff(cfg: Config, v: World, w: World, m: Message) returns (w': World)
    requires Leads(cfg, Except(CutOff, m.body), v, w) && w.jobs.Keys == {0} && InHands(w, 0, m.body)
    requires w.jobs[0].msg == m && w.jobs[0].held
    ensures Leads(cfg, Except(CutOff, m.body), v, w')
    ensures w' == w.(work := w.work + multiset{m}, jobs := w.jobs[0 := w.jobs[0].(held := false)])
  {
    w' := Take(cfg, Except(CutOff, m.body), v, w, Disconnect(0));
  }

  /** The copy is dropped as a duplicate of the message that the handler without a connection is still handling. */
  lemma LosesCopy(cfg: Config, v: World, w: World, m: Message) returns (w': World)
    requires Leads(cfg, Except(CutOff, m.body), v, w) && OnlyHandled(w, m) && w.jobs[0].held
    requires w.jobs[0].stage == Handling(Claiming(0)) && m.body.eventId in w.s.markers && Claimable(w.s.rows, 0)
    ensures Leads(cfg, Except(CutOff, m.body), v, w') && OnlyHandled(w', m) && !w'.jobs[0].held
    ensures w'.jobs[0].stage == Handling(Claiming(0)) && Claimable(w'.s.rows, 0)
  {
    var w1 := CutsOff(cfg, v, w, m);
    assert w1.work == multiset{m} && w1.s.markers == w.s.markers;
    w' := DropsCopy(cfg, Except(CutOff, m.body), v, w1, 1, m);
  }

  lemma LostByCutOff(cfg: Config, v: World, m: Message) returns (w: World)
    requires JustAnnounced(v, m)
    ensures Leads(cfg, Except(CutOff, m.body), v, w) && Lost(w, m.body)
  {
    var sc := Except(CutOff, m.body);
    var w1 := ToItsClaim(cfg, sc, v, m);
    var w2 := LosesCopy(cfg, v, w1, m);
    var w3 := ToItsRelease(cfg, sc, v, w2, m);
    w := GivesUpCutOff(cfg, sc, v, w3, m);
  }

  lemma GivesUpCutOff(cfg: Config, sc: Scope, v: World, w: World, m: Message) returns (w': World)
    requires sc.Except? && Leads(cfg, sc, v, w) && OnlyHandled(w, m) && !w.jobs[0].held
    requires w.jobs[0].stage == Handling(Releasing(0))
    ensures Leads(cfg, sc, v, w') && Lost(w', m.body)
  {
    var w1 := GivesMarkerBack(cfg, sc, v, w, 0, 0);
    assert OnlyHandled(w1, m);
    var w2 := ToItsRetry(cfg, sc, v, w1, m);
    w' := RetriesInVain(cfg, sc, v, w2, 0);
    assert w'.jobs.Keys == {0};
    NothingLeft(w', m.body);
  }

  /** Task 1 is created and announced under the same event id. */
  lemma SharesEvent(cfg: Config, v: World, m: Message) returns (w: World, other: Message)
    requires JustAnnounced(v, m) && v.requests.Keys == {0} && v.s.issued == {0} && v.s.rows.Keys == {0}
    ensures Leads(cfg, Except(ForeignEvent, m.body), v, w)
    ensures w.work == multiset{m, other} && w.dlq == multiset{} && w.jobs == map[] && w.s.markers == {}
    ensures About(other, 1) && other.body.eventId == m.body.eventId && Claimable(w.s.rows, 0)
  {
    var sc := Except(ForeignEvent, m.body);
    Stay(cfg, sc, v);
    var w1 := InsertsSecond(cfg, sc, v);
    other := Announcement(m.body.eventId, w1.s.rows[1]);
    w := Take(cfg, sc, v, w1, Announce(1, m.body.eventId, Confirmed));
  }

  lemma InsertsSecond(cfg: Config, sc: Scope, v: World) returns (w: World)
    requires sc.Except? && Leads(cfg, sc, v, v) && 1 !in v.requests && 1 !in v.s.issued && 1 !in v.s.rows
    ensures Leads(cfg, sc, v, w) && 1 in w.s.rows && w.s.rows[1].id == 1 && w.s.rows - {1} == v.s.rows
    ensures 1 in w.requests && w.requests[1] == Announcing(w.s.rows[1])
    ensures w.jobs == v.jobs && w.work == v.work && w.dlq == v.dlq && w.s.markers == v.s.markers
  {
    w := Take(cfg, sc, v, v, Insert(1, 1, "u", ""));
    assert w.s.rows - {1} == v.s.rows;
  }

  /** The other message takes the marker. */
  lemma OtherTakesMarker(cfg: Config, sc: Scope, v: World, w: World, m: Message, other: Message) returns (w': World)
    requires sc.Except? && Leads(cfg, sc, v, w) && w.work == multiset{m, other} && w.jobs == map[]
    requires About(other, 1) && other.body.eventId == m.body.eventId != "" && m.body.eventId !in w.s.markers
    ensures Leads(cfg, sc, v, w') && w'.jobs.Keys == {0} && w'.jobs[0].msg == other && w'.work == multiset{m}
    ensures w'.dlq == w.dlq && w'.s.rows == w.s.rows && m.body.eventId in w'.s.markers
  {
    w' := GetsToClaim(cfg, sc, v, w, other);
    assert multiset{m, other} - multiset{other} == multiset{m};
    assert w'.jobs.Keys == {0};
  }

  lemma LostByEvent(cfg: Config, v: World, m: Message) returns (w: World)
    requires JustAnnounced(v, m) && v.requests.Keys == {0} && v.s.issued == {0} && v.s.rows.Keys == {0}
    ensures Leads(cfg, Except(ForeignEvent, m.body), v, w) && Lost(w, m.body)
  {
    var sc := Except(ForeignEvent, m.body);
    var w1, other := SharesEvent(cfg, v, m);
    var w2 := OtherTakesMarker(cfg, sc, v, w1, m, other);
    w := DropsCopy(cfg, sc, v, w2, 1, m);
    assert w.work == multiset{};
    NothingLeft(w, m.body);
  }

  lemma LostBy(cfg: Config, kind: Mishap, v: World, m: Message) returns (w: World)
    requires JustAnnounced(v, m) && v.requests.Keys == {0} && v.s.issued == {0} && v.s.rows.Keys == {0}
    ensures Leads(cfg, Except(kind, m.body), v, w) && Lost(w, m.body)
  {
    match kind
    case FailedClaim => w := LostByClaim(cfg, v, m);
    case FailedRelease => w := LostByRelease(cfg, v, m);
    case Crashed => w := LostByCrash(cfg, v, m);
    case CutOff => w := LostByCutOff(cfg, v, m);
    case ForeignEvent => w := LostByEvent(cfg, v, m);
  }

  /**
   * No kind of mishap can be left out: for each there is a run on the system's own messages, with no mishap of another
   * kind, in which a message is accepted, no copy of it is left or being handled, and its task is unfinished.
   */
  lemma HollowAcceptance(cfg: Config, kind: Mishap) returns (w: World, run: seq<Label>, b: Body)
    ensures Deployed(cfg, w) && HasCopy(w, b) && Pristine(w, b)
    ensures Legal(cfg, w, run) && Within(cfg, Except(kind, b), w, run) && EverHandledOk(cfg, w, run, b)
    ensures Lost(After(cfg, w, run), b)
  {
    var t, m;
    w, t, m := FirstTask(cfg, Wired);
    b := m.body;
    OnlySent(w, m);
    var w' := LostBy(cfg, kind, w, m);
    run :| Legal(cfg, w, run) && Within(cfg, Except(kind, b), w, run) && After(cfg, w, run) == w';
    NeverLost(cfg, w, run, b);
  }

  lemma OnlySent(v: World, m: Message)
    requires JustAnnounced(v, m)
    ensures HasCopy(v, m.body) && Pristine(v, m.body)
  {
    QueueGets(multiset{}, m);
  }

  // ----- Late duplicates -----

  /** Those of `late` that handle a message about the task have not got past its claim. */
  ghost predicate NotBegun(w: World, late: set<nat>, id: TaskId) {
    forall j :: j in late && InHandler(w, j) && About(w.jobs[j].msg, id) ==>
      w.jobs[j].stage.phase in {Fresh, Claiming(id)}
  }

  /** No handler is between a claim of the task and the write that gives it away. */
  ghost predicate NobodyOwns(w: World, id: TaskId) {
    forall j :: InHandler(w, j) && Owning(w.jobs[j].stage.phase) ==> w.jobs[j].stage.phase.id != id
  }

  /** Every delivery from now on is late. */
  function StillLate(late: set<nat>, l: Label): set<nat> {
    if l.Deliver? then late + {l.j} else late
  }

  /** A late handler's step for a message about `id` changes neither the table nor the row cache, and is no LLM call. */
  ghost predicate DropsDuplicate(cfg: Config, w: World, l: Label, late: set<nat>, id: TaskId)
    requires Enabled(cfg, w, l)
  {
    l.Work? && l.j in late && About(w.jobs[l.j].msg, id) ==>
      && Next(cfg, w, l).s.rows == w.s.rows && Next(cfg, w, l).s.cache == w.s.cache
      && !w.jobs[l.j].stage.phase.Asking?
  }

  ghost predicate DropsDuplicates(cfg: Config, w: World, run: seq<Label>, late: set<nat>, id: TaskId)
    requires Legal(cfg, w, run)
    decreases run
  {
    run != [] ==>
      && DropsDuplicate(cfg, w, run[0], late, id)
      && DropsDuplicates(cfg, Next(cfg, w, run[0]), run[1..], StillLate(late, run[0]), id)
  }

  lemma FinishedStays(cfg: Config, w: World, l: Label, id: TaskId)
    requires Enabled(cfg, w, l) && Sound(w) && Done(w, id) && !PendingWrite(w, l, id)
    ensures Done(Next(cfg, w, l), id)
    ensures var rows := Next(cfg, w, l).s.rows;
            id in rows ==> id in w.s.rows && (NobodyOwns(w, id) ==> rows[id] == w.s.rows[id])
  {
    StepRewrites(cfg, w, l);
    RewrittenDone(w, l, Next(cfg, w, l), id);
  }

  lemma RewrittenDone(w: World, l: Label, w': World, id: TaskId)
    requires TableRewritten(w, l, w') && TableSound(w) && Done(w, id) && !PendingWrite(w, l, id)
    ensures Done(w', id)
    ensures id in w'.s.rows ==> id in w.s.rows && (NobodyOwns(w, id) ==> w'.s.rows[id] == w.s.rows[id])
  {
  }

  /** A late handler that has not begun finds nothing to claim. */
  lemma LateWork(w: World, j: nat, reply: Reply, late: set<nat>, id: TaskId)
    requires InHandler(w, j) && Sound(w) && Done(w, id) && NotBegun(w, late, id)
    ensures var w' := WorkNext(w, j, reply);
            && NotBegun(w', late, id) && (NobodyOwns(w, id) ==> NobodyOwns(w', id))
            && (j in late && About(w.jobs[j].msg, id) ==>
                  w'.s.rows == w.s.rows && w'.s.cache == w.s.cache && !w.jobs[j].stage.phase.Asking?)
  {
    var p := w.jobs[j].stage.phase;
    var p' := HandlerStep(w, j, reply).1;
    assert Owning(p') && p'.id == id ==> Owning(p) && p.id == id;
  }

  lemma LateJobs(cfg: Config, w: World, l: Label, late: set<nat>, id: TaskId)
    requires Enabled(cfg, w, l) && Sound(w) && Done(w, id) && NotBegun(w, late, id)
    ensures var w' := Next(cfg, w, l);
            NotBegun(w', StillLate(late, l), id) && (NobodyOwns(w, id) ==> NobodyOwns(w', id))
    ensures DropsDuplicate(cfg, w, l, late, id)
  {
    if l.Work? {
      LateWork(w, l.j, l.reply, late, id);
    } else {
      OtherHandlers(cfg, w, l);
      OthersNotBegun(w, Next(cfg, w, l), late, if l.Deliver? then {l.j} else {}, id);
      assert StillLate(late, l) == late + if l.Deliver? then {l.j} else {};
    }
  }

  lemma OthersNotBegun(w: World, w': World, late: set<nat>, more: set<nat>, id: TaskId)
    requires HandlersOf(w, w') && NotBegun(w, late, id)
    requires forall j :: j in more && InHandler(w', j) ==> w'.jobs[j].stage == Handling(Fresh)
    ensures NotBegun(w', late + more, id) && (NobodyOwns(w, id) ==> NobodyOwns(w', id))
  {
  }

  lemma {:induction false} LateRun(cfg: Config, w: World, run: seq<Label>, late: set<nat>, id: TaskId)
    requires Legal(cfg, w, run) && Sound(w) && Done(w, id) && NotBegun(w, late, id) && Resets(cfg, w, run, id) == 0
    ensures DropsDuplicates(cfg, w, run, late, id) && Done(After(cfg, w, run), id)
    ensures var rows := After(cfg, w, run).s.rows;
            NobodyOwns(w, id) && id in rows ==> id in w.s.rows && rows[id] == w.s.rows[id]
    decreases run
  {
    if run != [] {
      LateJobs(cfg, w, run[0], late, id);
      FinishedStays(cfg, w, run[0], id);
      StepSound(cfg, w, run[0]);
      LateRun(cfg, Next(cfg, w, run[0]), run[1..], StillLate(late, run[0]), id);
    }
  }

  /**
   * From any reachable world in which a task is finished or gone, in every run without a write of `pending` to it:
   * the handlers that have not got past its claim yet, and all of later deliveries, drop their messages about it (old
   * or new events, markers present, lost or unreachable) with no LLM call and no change to table or cache. Only
   * handlers that had claimed it before may still call the LLM, and without an owner among them the row never changes
   * again.
   */
  lemma LateDuplicatesDropped(cfg: Config, w: World, run: seq<Label>, late: set<nat>, id: TaskId)
    requires Reachable(cfg, w) && Legal(cfg, w, run)
    requires Done(w, id) && NotBegun(w, late, id) && Resets(cfg, w, run, id) == 0
    ensures DropsDuplicates(cfg, w, run, late, id) && Done(After(cfg, w, run), id)
    ensures LlmCalls(cfg, w, run, id) <= |AboutToAsk(w, id)|
    ensures var rows := After(cfg, w, run).s.rows;
            NobodyOwns(w, id) && id in rows ==> id in w.s.rows && rows[id] == w.s.rows[id]
    ensures NobodyOwns(w, id) ==> LlmCalls(cfg, w, run, id) == 0
  {
    ReachableSound(cfg, w);
    LateRun(cfg, w, run, late, id);
    ClaimsBounded(cfg, w, run, id);
    CallsBounded(cfg, w, run, id);
    if NobodyOwns(w, id) {
      assert AboutToAsk(w, id) == {};
    }
  }
}
