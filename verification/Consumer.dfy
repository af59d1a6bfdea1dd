/** The consumer (internal/broker/consumer.go): handle a delivery, then ack it, republish it or dead-letter it. */
module Consumers {
  import opened Tasks
  import opened Repository
  import opened Dedupes
  import opened Messages
  import opened Summarizer

  /** How long a handler's context lives. */
  const HANDLER_LIMIT: Time := 2 * MINUTE

  /** A settling call that fails leaves the delivery unacknowledged. */
  function Acked(q: Queues, m: Message, reply: Reply): Queues {
    if reply.Ok? then q.(unacked := q.unacked - multiset{m}) else q
  }

  function Rejected(q: Queues, m: Message, reply: Reply): Queues {
    if reply.Ok? then q.(unacked := q.unacked - multiset{m}, dlq := q.dlq + [m]) else q
  }

  /** What happens to a delivery after its handler returned: `publish` and `settle` are the broker's answers. */
  function Disposed(q: Queues, m: Message, ok: bool, max: int, publish: Reply, settle: Reply): Queues {
    if ok then Acked(q, m, settle)
    else if RetryCount(m.retries) >= max || publish.Err? then Rejected(q, m, settle)
    else Acked(q.(work := q.work + [Bumped(m)]), m, settle)
  }

  /** Handlings a message can still cause, itself included. */
  function Weight(m: Message, max: int): nat {
    if RetryCount(m.retries) >= max then 1 else max + 1 - RetryCount(m.retries)
  }

  function TotalWeight(ms: seq<Message>, max: int): nat {
    if ms == [] then 0 else Weight(ms[0], max) + TotalWeight(ms[1..], max)
  }

  /**
   * The counter makes progress whatever header a message arrived with: the copy republished weighs less, although the
   * conversion to int32 may wrap.
   */
  lemma BumpedIsLighter(m: Message, max: int)
    requires 0 <= max < 0x8000_0000 && RetryCount(m.retries) < max
    ensures Weight(Bumped(m), max) < Weight(m, max)
    ensures -0x8000_0000 < RetryCount(m.retries) + 1 ==>
              RetryCount(Bumped(m).retries) == RetryCount(m.retries) + 1 <= max
  {
  }

  lemma {:induction false} WeightAppends(a: seq<Message>, m: Message, max: int)
    ensures TotalWeight(a + [m], max) == TotalWeight(a, max) + Weight(m, max)
  {
    if a == [] {
      assert TotalWeight([m][1..], max) == 0;
      assert a + [m] == [m];
    } else {
      assert (a + [m])[1..] == a[1..] + [m];
      WeightAppends(a[1..], m, max);
    }
  }

  ghost predicate CountsNatural(ms: seq<Message>) {
    forall m :: m in ms ==> 0 <= RetryCount(m.retries)
  }

  ghost predicate WithinLimit(ms: seq<Message>, max: int) {
    forall m :: m in ms ==> 0 <= RetryCount(m.retries) <= max
  }

  /** No count in the queues exceeds the limit. */
  ghost predicate Counted(q: Queues) {
    WithinLimit(q.work, MAX_RETRIES) && WithinLimit(q.dlq, MAX_RETRIES)
  }

  /** The handlings that `n` messages can cause at most: `max + 1` each. */
  function Budget(n: nat, max: nat): nat {
    if n == 0 then 0 else Budget(n - 1, max) + max + 1
  }

  lemma {:induction false} BudgetIsProduct(n: nat, max: nat)
    ensures Budget(n, max) == n * (max + 1)
  {
    if n > 0 {
      BudgetIsProduct(n - 1, max);
      assert n * (max + 1) == (n - 1) * (max + 1) + (max + 1);
    }
  }

  /** With retry counts of the broker's own making, a queue weighs at most `max + 1` a message. */
  lemma {:induction false} WeightBound(ms: seq<Message>, max: nat)
    ensures CountsNatural(ms) ==> |ms| <= TotalWeight(ms, max) <= Budget(|ms|, max)
  {
    if ms != [] {
      WeightBound(ms[1..], max);
    }
  }

  /** Whatever becomes of a delivery, the queue weighs less than with it, and no count gets past the limit. */
  lemma DisposalProgress(q: Queues, m: Message, ok: bool, publish: Reply)
    ensures var q' := Disposed(q, m, ok, MAX_RETRIES, publish, Ok(""));
            && TotalWeight(q'.work, MAX_RETRIES) < TotalWeight([m] + q.work, MAX_RETRIES)
            && (Counted(q.(work := [m] + q.work)) ==> Counted(q'))
  {
    assert ([m] + q.work)[1..] == q.work;
    if RetryCount(m.retries) < MAX_RETRIES {
      BumpedIsLighter(m, MAX_RETRIES);
    }
    WeightAppends(q.work, Bumped(m), MAX_RETRIES);
    assert m in [m] + q.work;
    assert forall x :: x in q.work ==> x in [m] + q.work;
  }

  /**
   * What becomes of a delivery that failed and carries the count `n`: below 3 it goes to the end of the queue with its
   * body and the next count, as an int32; otherwise, or when that does not work, it is dead-lettered as it came.
   */
  lemma FailureDisposed(q: Queues, m: Message, n: int, publish: Reply, settle: Reply)
    requires Carries(m.retries, n)
    ensures var q' := Disposed(q, m, false, MAX_RETRIES, publish, settle);
            if n < 3 && publish.Ok?
            then q'.dlq == q.dlq
                 && exists w :: -0x8000_0000 <= w < 0x8000_0000 && (n + 1 - w) % 0x1_0000_0000 == 0
                                && q'.work == q.work + [Message(m.body, Int32(w))]
            else q'.work == q.work && q'.dlq == q.dlq + if settle.Ok? then [m] else []
  {
    var w := Wrap32(n + 1);
    assert n < 3 ==> Bumped(m) == Message(m.body, Int32(w));
  }

  /** The environment of one handling: its deadline, the calls it makes, and the broker's answers afterwards. */
  datatype Attempt = Attempt(deadline: Time, script: Script, publish: Reply, settle: Reply)

  class Consumer {
    const broker: Broker
    const worker: TaskSummarizer

    ghost function Here(handled: nat): Progress
      reads broker, worker, worker.svc.repo, worker.svc.cache, worker.dedupe
    {
      Progress(worker.Contents(), broker.work, broker.dlq, worker.asked, handled)
    }

    constructor (broker: Broker, worker: TaskSummarizer)
      ensures this.broker == broker && this.worker == worker
    {
      this.broker, this.worker := broker, worker;
    }

    method RetryOrDeadLetter(m: Message, publish: Reply, settle: Reply)
      modifies broker
      ensures broker.Contents() == Disposed(old(broker.Contents()), m, false, MAX_RETRIES, publish, settle)
      ensures broker.unacked == if settle.Ok? then old(broker.unacked) - multiset{m} else old(broker.unacked)
    {
      var retries := RetryCount(m.retries);
      if retries >= MAX_RETRIES {
        broker.Nack(m, settle);
        return;
      }
      if publish.Err? {
        broker.Nack(m, settle);
        return;
      }
      broker.Requeue(Bumped(m));
      broker.Ack(m, settle);
    }

    /** One delivery from start to end. */
    method Handle(m: Message, a: Attempt) returns (ok: bool)
      requires worker.Valid()
      modifies broker, worker`asked, worker.svc.repo`rows, worker.svc.cache, worker.dedupe
      ensures worker.Valid()
      ensures var o := HandleAll(old(worker.Contents()), m.body, a.deadline, a.script);
              && worker.Contents() == o.stores && ok == o.ok && worker.asked == old(worker.asked) + o.asked
              && broker.Contents() == Disposed(old(broker.Contents()), m, o.ok, MAX_RETRIES, a.publish, a.settle)
      ensures ok ==>
                && broker.work == old(broker.work) && broker.dlq == old(broker.dlq)
                && broker.unacked == if a.settle.Ok? then old(broker.unacked) - multiset{m} else old(broker.unacked)
    {
      ok := worker.Handle(m.body, a.deadline, a.script);
      if !ok {
        RetryOrDeadLetter(m, a.publish, a.settle);
        return;
      }
      broker.Ack(m, a.settle);
    }

    /**
     * Takes the next delivery and handles it; settling succeeds, so the queue gets lighter. `n` were handled before.
     */
    method HandleNext(a: Attempt, ghost n: nat)
      requires worker.Valid() && broker.work != [] && a.settle.Ok?
      modifies broker, worker`asked, worker.svc.repo`rows, worker.svc.cache, worker.dedupe
      ensures worker.Valid()
      ensures Here(n + 1) == Advanced(old(Here(n)), a) && broker.unacked == old(broker.unacked)
      ensures TotalWeight(broker.work, MAX_RETRIES) < TotalWeight(old(broker.work), MAX_RETRIES)
      ensures Counted(old(broker.Contents())) ==> Counted(broker.Contents())
    {
      var m := broker.Deliver();
      ghost var q := broker.Contents();
      assert old(broker.work) == [m] + q.work;
      var ok := Handle(m, a);
      DisposalProgress(q, m, ok, a.publish);
    }

    /**
     * The consuming loop until the queue is empty, when nobody publishes and every settling call succeeds: it ends,
     * after at most the total weight of the queue, whatever the handlers do, and where it ends is what `Drained`
     * says.
     */
    method Drain(attempts: nat -> Attempt) returns (handled: nat)
      requires worker.Valid()
      requires forall i :: attempts(i).settle.Ok?
      modifies broker, worker`asked, worker.svc.repo`rows, worker.svc.cache, worker.dedupe
      ensures worker.Valid()
      ensures broker.work == [] && broker.unacked == old(broker.unacked)
      ensures Here(handled) == Drained(old(Here(0)), attempts)
      ensures handled <= TotalWeight(old(broker.work), MAX_RETRIES)
      ensures CountsNatural(old(broker.work)) ==> handled <= Budget(|old(broker.work)|, MAX_RETRIES)
      ensures Counted(old(broker.Contents())) ==> Counted(broker.Contents())
    {
      handled := 0;
      while broker.work != []
        invariant worker.Valid() && broker.unacked == old(broker.unacked)
        invariant handled + TotalWeight(broker.work, MAX_RETRIES) <= TotalWeight(old(broker.work), MAX_RETRIES)
        invariant Counted(old(broker.Contents())) ==> Counted(broker.Contents())
        invariant Drained(Here(handled), attempts) == Drained(old(Here(0)), attempts)
        decreases TotalWeight(broker.work, MAX_RETRIES)
      {
        HandleNext(attempts(handled), handled);
        handled := handled + 1;
      }
      assert CountsNatural(old(broker.work)) ==> handled <= Budget(|old(broker.work)|, MAX_RETRIES) by {
        WeightBound(old(broker.work), MAX_RETRIES);
      }
    }
  }

  /** Where a drain stands. */
  datatype Progress = Progress(stores: Stores, work: seq<Message>, dlq: seq<Message>, asked: nat, handled: nat)

  /** Where the drain of a queue of at most one message ends. */
  function Eventually(p: Progress, attempts: nat -> Attempt): Progress {
    if p.work == [] then p
    else
      var c := Chain(p.stores, p.work[0], MAX_RETRIES, attempts, p.handled);
      Progress(c.stores, [], p.dlq + c.dead, p.asked + c.asked, p.handled + c.handled)
  }

  /** Where it stands after one more handling. */
  function Advanced(p: Progress, a: Attempt): Progress
    requires p.work != []
  {
    var o := HandleAll(p.stores, p.work[0].body, a.deadline, a.script);
    var q := Disposed(Queues(p.work[1..], multiset{}, p.dlq), p.work[0], o.ok, MAX_RETRIES, a.publish, a.settle);
    Progress(o.stores, q.work, q.dlq, p.asked + o.asked, p.handled + 1)
  }

  /** Where the drain ends: the queue handled from its head, retries at its end, until it is empty. */
  function Drained(p: Progress, attempts: nat -> Attempt): Progress
    requires forall i :: attempts(i).settle.Ok?
    decreases TotalWeight(p.work, MAX_RETRIES)
  {
    if p.work == [] then p
    else
      var p' := Advanced(p, attempts(p.handled));
      AdvancedLighter(p, attempts(p.handled));
      Drained(p', attempts)
  }

  lemma AdvancedLighter(p: Progress, a: Attempt)
    requires p.work != [] && a.settle.Ok?
    ensures TotalWeight(Advanced(p, a).work, MAX_RETRIES) < TotalWeight(p.work, MAX_RETRIES)
  {
    var o := HandleAll(p.stores, p.work[0].body, a.deadline, a.script);
    DisposalProgress(Queues(p.work[1..], multiset{}, p.dlq), p.work[0], o.ok, a.publish);
    assert [p.work[0]] + p.work[1..] == p.work;
  }

  /** With every publish accepted, a queue of one message goes through the retry chain of that message. */
  lemma {:induction false} DrainIsChain(p: Progress, attempts: nat -> Attempt)
    requires |p.work| <= 1 && forall i :: attempts(i).settle.Ok? && attempts(i).publish.Ok?
    ensures Drained(p, attempts) == Eventually(p, attempts)
    decreases TotalWeight(p.work, MAX_RETRIES)
  {
    if p.work != [] {
      OneHandling(p, attempts);
      AdvancedLighter(p, attempts(p.handled));
      DrainIsChain(Advanced(p, attempts(p.handled)), attempts);
    }
  }

  /** Handling the only message gets the drain on. */
  lemma OneHandling(p: Progress, attempts: nat -> Attempt)
    requires |p.work| == 1 && attempts(p.handled).publish.Ok? && attempts(p.handled).settle.Ok?
    ensures var p' := Advanced(p, attempts(p.handled));
            |p'.work| <= 1 && Eventually(p', attempts) == Eventually(p, attempts)
  {
  }

  // ----- The retry chain of one message -----

  datatype ChainResult = ChainResult(stores: Stores, dead: seq<Message>, asked: nat, handled: nat)

  /** Message `m` handled again and again, attempt `i` next, on a broker that accepts every publish and settling. */
  function Chain(s: Stores, m: Message, max: int, attempts: nat -> Attempt, i: nat): ChainResult
    requires 0 <= max < 0x8000_0000
    decreases Weight(m, max)
  {
    var o := HandleAll(s, m.body, attempts(i).deadline, attempts(i).script);
    if o.ok then ChainResult(o.stores, [], o.asked, 1)
    else if RetryCount(m.retries) >= max then ChainResult(o.stores, [m], o.asked, 1)
    else
      var rest := Chain(o.stores, Bumped(m), max, attempts, i + 1);
      ChainResult(rest.stores, rest.dead, rest.asked + o.asked, rest.handled + 1)
  }

  /** Everything but the LLM answers, in time; the LLM is the fourth call of a handling. */
  ghost predicate Healthy(a: Attempt) {
    forall k :: a.script(k).now < a.deadline && (k != 3 ==> a.script(k).reply.Ok?)
  }

  function Llm(a: Attempt): Reply {
    a.script(3).reply
  }

  /** A message about a pending task whose event holds no marker. */
  predicate Ready(s: Stores, b: Body) {
    && b.content.Created?
    && Claimable(s.rows, b.content.taskId)
    && (b.eventId == "" || b.eventId !in s.markers)
  }

  function Rest(s: Stores, id: TaskId): (Rows, Rows) {
    (s.rows - {id}, s.cache - {id})
  }

  /** A healthy handling with an answer of the LLM completes the task, and nothing else changes. */
  lemma HealthyAnswer(s: Stores, b: Body, a: Attempt)
    requires Keyed(s.rows) && Ready(s, b) && Healthy(a) && Llm(a).Ok?
    ensures var o, id := HandleAll(s, b, a.deadline, a.script), b.content.taskId;
            && o.ok && o.asked == 1
            && id in o.stores.rows
            && o.stores.rows[id] == s.rows[id].(status := Completed, updatedAt := a.script(4).now,
                 summary := if Llm(a).text != "" then Llm(a).text else s.rows[id].summary)
            && id in o.stores.cache && o.stores.cache[id] == o.stores.rows[id]
            && Rest(o.stores, id) == Rest(s, id)
            && o.stores.markers == s.markers + (if b.eventId == "" then {} else {b.eventId})
  {
    var id := b.content.taskId;
    var (s1, p1) := Step(s, Fresh, b, a.deadline, a.script(0));
    var (s2, p2) := Step(s1, p1, b, a.deadline, a.script(1));
    var (s3, p3) := Step(s2, p2, b, a.deadline, a.script(2));
    var (s4, p4) := Step(s3, p3, b, a.deadline, a.script(3));
    var (s5, p5) := Step(s4, p4, b, a.deadline, a.script(4));
    var (s6, p6) := Step(s5, p5, b, a.deadline, a.script(5));
    var (s7, p7) := Step(s6, p6, b, a.deadline, a.script(6));
    assert p7 == Returned(true);
    assert Finish(s6, p6, b, a.deadline, a.script, 6) == Outcome(s7, true, 0);
    assert Finish(s4, p4, b, a.deadline, a.script, 4) == Finish(s6, p6, b, a.deadline, a.script, 6);
    assert Finish(s3, p3, b, a.deadline, a.script, 3) == Outcome(s7, true, 1);
    assert Finish(s1, p1, b, a.deadline, a.script, 1) == Finish(s3, p3, b, a.deadline, a.script, 3);
    assert s7.rows - {id} == s.rows - {id} && s7.cache - {id} == s.cache - {id};
  }

  /** A healthy handling that the LLM fails puts everything back: the task pending, its marker free, no cached row. */
  lemma HealthyFailure(s: Stores, b: Body, a: Attempt)
    requires Keyed(s.rows) && Ready(s, b) && Healthy(a) && Llm(a).Err?
    ensures var o, id := HandleAll(s, b, a.deadline, a.script), b.content.taskId;
            && !o.ok && o.asked == 1
            && o.stores == s.(rows := s.rows[id := s.rows[id].(updatedAt := a.script(5).now)], cache := s.cache - {id})
  {
    var id := b.content.taskId;
    var (s1, p1) := Step(s, Fresh, b, a.deadline, a.script(0));
    var (s2, p2) := Step(s1, p1, b, a.deadline, a.script(1));
    var (s3, p3) := Step(s2, p2, b, a.deadline, a.script(2));
    GivesBack(s3, id, b, a.deadline, a.script, 4);
    assert Finish(s3, p3, b, a.deadline, a.script, 3).asked == 1;
    assert Finish(s1, p1, b, a.deadline, a.script, 1) == Finish(s3, p3, b, a.deadline, a.script, 3);
    PutBack(s, s3, b, a.script(5).now);
  }

  /** Giving up with every call answered in time: no marker, a pending row, no cached row. */
  lemma GivesBack(s: Stores, id: TaskId, b: Body, deadline: Time, script: Script, k: nat)
    requires Keyed(s.rows) && id in s.rows
    requires forall i :: k <= i <= k + 2 ==> script(i).now < deadline && script(i).reply.Ok?
    ensures Finish(s, Releasing(id), b, deadline, script, k)
         == Outcome(GivenBack(s, id, b, script(k + 1).now), false, 0)
  {
    var (s1, p1) := Step(s, Releasing(id), b, deadline, script(k));
    var (s2, p2) := Step(s1, p1, b, deadline, script(k + 1));
    var (s3, p3) := Step(s2, p2, b, deadline, script(k + 2));
    assert Finish(s2, p2, b, deadline, script, k + 2) == Outcome(s3, false, 0);
    assert Finish(s1, p1, b, deadline, script, k + 1) == Outcome(s3, false, 0);
  }

  function GivenBack(s: Stores, id: TaskId, b: Body, now: Time): Stores
    requires id in s.rows
  {
    s.(markers := if b.eventId == "" then s.markers else s.markers - {b.eventId},
       rows := StatusWritten(s.rows, id, Pending, "", now),
       cache := s.cache - {id})
  }

  /** A claim that is given back leaves no trace but the time. */
  lemma PutBack(s: Stores, claimed: Stores, b: Body, now: Time)
    requires Keyed(s.rows) && Ready(s, b)
    requires var id := b.content.taskId;
             && claimed.rows.Keys == s.rows.Keys && claimed.issued == s.issued && claimed.cache == s.cache - {id}
             && claimed.markers == (if b.eventId == "" then s.markers else s.markers + {b.eventId})
             && exists at :: claimed.rows == StatusWritten(s.rows, id, Processing, "", at)
    ensures var id := b.content.taskId;
            GivenBack(claimed, id, b, now) ==
              s.(rows := s.rows[id := s.rows[id].(updatedAt := now)], cache := s.cache - {id})
  {
    var id := b.content.taskId;
    var g := GivenBack(claimed, id, b, now);
    assert g.markers == s.markers;
    assert g.cache == s.cache - {id};
    assert g.rows == s.rows[id := s.rows[id].(updatedAt := now)];
  }

  /** So does a handling whose answer could not be recorded, although the LLM was paid. */
  lemma AnswerLost(s: Stores, b: Body, a: Attempt)
    requires Keyed(s.rows) && Ready(s, b) && Llm(a).Ok? && a.script(4).reply.Err?
    requires forall k :: a.script(k).now < a.deadline && (k != 4 ==> a.script(k).reply.Ok?)
    ensures var o, id := HandleAll(s, b, a.deadline, a.script), b.content.taskId;
            && !o.ok && o.asked == 1
            && o.stores == s.(rows := s.rows[id := s.rows[id].(updatedAt := a.script(6).now)], cache := s.cache - {id})
  {
    var id := b.content.taskId;
    var (s1, p1) := Step(s, Fresh, b, a.deadline, a.script(0));
    var (s2, p2) := Step(s1, p1, b, a.deadline, a.script(1));
    var (s3, p3) := Step(s2, p2, b, a.deadline, a.script(2));
    GivesBack(s3, id, b, a.deadline, a.script, 5);
    assert Finish(s3, Applying(id, Llm(a).text), b, a.deadline, a.script, 4)
        == Finish(s3, Releasing(id), b, a.deadline, a.script, 5);
    assert Finish(s3, p3, b, a.deadline, a.script, 3).asked == 1;
    assert Finish(s1, p1, b, a.deadline, a.script, 1) == Finish(s3, p3, b, a.deadline, a.script, 3);
    PutBack(s, s3, b, a.script(6).now);
  }

  /** Which call of a handling that gets past its claim and fails is the release. */
  function ReleaseCall(script: Script): nat {
    if script(3).reply.Err? then 4 else 5
  }

  /**
   * After a failed handling the retry of the same event may run exactly when the claim of the task itself did not
   * fail and the release got through: a failed claim leaves the marker taken.
   */
  lemma RetryMayRunIff(s: Stores, b: Body, deadline: Time, script: Script)
    requires b.content.Created? && b.eventId != "" && b.eventId !in s.markers && script(0).reply.Ok?
    requires !HandleAll(s, b, deadline, script).ok
    ensures b.eventId !in HandleAll(s, b, deadline, script).stores.markers <==>
              InTime(script(1), deadline).Ok? && InTime(script(ReleaseCall(script)), deadline).Ok?
  {
    var id := b.content.taskId;
    var (s1, p1) := Step(s, Fresh, b, deadline, script(0));
    var (s2, p2) := Step(s1, p1, b, deadline, script(1));
    assert HandleAll(s, b, deadline, script) == Finish(s1, p1, b, deadline, script, 1);
    assert Finish(s1, p1, b, deadline, script, 1) == Finish(s2, p2, b, deadline, script, 2);
    if p2.Claimed? {
      ClaimedEnds(s2, id, b, deadline, script);
    }
  }

  /** From the claim on, a handling that fails has tried to give the marker back right before its reset. */
  lemma ClaimedEnds(s: Stores, id: TaskId, b: Body, deadline: Time, script: Script)
    ensures var o := Finish(s, Claimed(id), b, deadline, script, 2);
            || o.ok
            || o.stores.markers
               == ReleaseMarker(s.markers, b.eventId, InTime(script(ReleaseCall(script)), deadline))
  {
    var (s3, p3) := Step(s, Claimed(id), b, deadline, script(2));
    var (s4, p4) := Step(s3, p3, b, deadline, script(3));
    assert Finish(s, Claimed(id), b, deadline, script, 2) == Finish(s3, p3, b, deadline, script, 3);
    AskedOnce(s3, id, b, deadline, script, 3);
    if script(3).reply.Err? {
      Released(s4, id, b, deadline, script, 4);
    } else {
      var (s5, p5) := Step(s4, p4, b, deadline, script(4));
      assert Finish(s4, p4, b, deadline, script, 4) == Finish(s5, p5, b, deadline, script, 5);
      if p5.Releasing? {
        Released(s5, id, b, deadline, script, 5);
      } else {
        AfterCompletion(s5, p5, b, deadline, script, 5);
      }
    }
  }

  lemma Released(s: Stores, id: TaskId, b: Body, deadline: Time, script: Script, k: nat)
    ensures Finish(s, Releasing(id), b, deadline, script, k).stores.markers
              == ReleaseMarker(s.markers, b.eventId, InTime(script(k), deadline))
  {
    var (s1, p1) := Step(s, Releasing(id), b, deadline, script(k));
    AfterRelease(s1, p1, b, deadline, script, k + 1);
  }

  /** The marker is not touched after its release. */
  lemma {:induction false} AfterRelease(s: Stores, p: Phase, b: Body, deadline: Time, script: Script, k: nat)
    requires p.Resetting? || p.Clearing? || p.Returned?
    ensures Finish(s, p, b, deadline, script, k).stores.markers == s.markers
    decreases Remaining(p)
  {
    if !p.Returned? {
      var (s1, p1) := Step(s, p, b, deadline, script(k));
      AfterRelease(s1, p1, b, deadline, script, k + 1);
    }
  }

  /** Once the result is recorded, or the task gone, nothing makes the handling fail. */
  lemma {:induction false} AfterCompletion(s: Stores, p: Phase, b: Body, deadline: Time, script: Script, k: nat)
    requires p.Rereading? || p.Refreshing? || p == Returned(true)
    ensures Finish(s, p, b, deadline, script, k).ok
    decreases Remaining(p)
  {
    if !p.Returned? {
      var (s1, p1) := Step(s, p, b, deadline, script(k));
      AfterCompletion(s1, p1, b, deadline, script, k + 1);
    }
  }

  /**
   * An LLM call that outlives the handler's context: neither the release nor the reset gets through any more. The task
   * stays in `processing` with its marker taken, and only the reconciler can still help.
   */
  lemma TimeoutStrands(s: Stores, b: Body, deadline: Time, script: Script)
    requires Keyed(s.rows) && Ready(s, b) && b.eventId != "" && script(0).reply.Ok?
    requires InTime(script(1), deadline).Ok? && forall k :: 4 <= k ==> deadline <= script(k).now
    ensures var o, id := HandleAll(s, b, deadline, script), b.content.taskId;
            && !o.ok && o.asked == 1 && b.eventId in o.stores.markers
            && o.stores.rows == StatusWritten(s.rows, id, Processing, "", script(1).now)
  {
    var id := b.content.taskId;
    var (s1, p1) := Step(s, Fresh, b, deadline, script(0));
    var (s2, p2) := Step(s1, p1, b, deadline, script(1));
    var (s3, p3) := Step(s2, p2, b, deadline, script(2));
    var (s4, p4) := Step(s3, p3, b, deadline, script(3));
    assert Finish(s1, p1, b, deadline, script, 1) == Finish(s3, p3, b, deadline, script, 3);
    GivesUpLate(s3, id, b, deadline, script, 4);
    if p4.Applying? {
      assert Finish(s4, p4, b, deadline, script, 4) == Finish(s4, Releasing(id), b, deadline, script, 5);
      GivesUpLate(s3, id, b, deadline, script, 5);
    }
  }

  lemma GivesUpLate(s: Stores, id: TaskId, b: Body, deadline: Time, script: Script, k: nat)
    requires deadline <= script(k).now && deadline <= script(k + 1).now
    ensures Finish(s, Releasing(id), b, deadline, script, k) == Outcome(s, false, 0)
  {
    assert Finish(s, Resetting(id), b, deadline, script, k + 1) == Outcome(s, false, 0);
  }

  /** And that retry is dropped without an LLM call, whatever its environment, while Redis answers. */
  lemma MarkedRetryDropped(s: Stores, b: Body, deadline: Time, script: Script)
    requires b.content.Created? && b.eventId != "" && b.eventId in s.markers && script(0).reply.Ok?
    ensures HandleAll(s, b, deadline, script) == Outcome(s, true, 0)
  {
    assert Step(s, Fresh, b, deadline, script(0)) == (s, Returned(true));
  }

  /** The first answer comes at retry `j` from here, within the limit: completed after exactly j + 1 LLM calls. */
  lemma {:induction false} ChainCompletes(s: Stores, m: Message, max: int, attempts: nat -> Attempt, i: nat, j: nat)
    requires 0 <= max < 0x8000_0000 && Keyed(s.rows) && Ready(s, m.body)
    requires -0x8000_0000 <= RetryCount(m.retries) && RetryCount(m.retries) + j <= max
    requires forall k: nat :: Healthy(attempts(k))
    requires Llm(attempts(i + j)).Ok? && forall k :: i <= k < i + j ==> Llm(attempts(k)).Err?
    ensures var c, id := Chain(s, m, max, attempts, i), m.body.content.taskId;
            && c.asked == c.handled == j + 1 && c.dead == []
            && id in c.stores.rows && c.stores.rows[id].status == Completed
            && (Llm(attempts(i + j)).text != "" ==> c.stores.rows[id].summary == Llm(attempts(i + j)).text)
            && id in c.stores.cache && c.stores.cache[id] == c.stores.rows[id]
            && Rest(c.stores, id) == Rest(s, id)
    decreases j
  {
    var id := m.body.content.taskId;
    if j == 0 {
      HealthyAnswer(s, m.body, attempts(i));
    } else {
      HealthyFailure(s, m.body, attempts(i));
      var s' := HandleAll(s, m.body, attempts(i).deadline, attempts(i).script).stores;
      assert s'.rows - {id} == s.rows - {id} && s'.cache - {id} == s.cache - {id};
      ChainCompletes(s', Bumped(m), max, attempts, i + 1, j - 1);
    }
  }

  /**
   * No answer within the limit: exactly one LLM call an attempt, one dead letter that carries the limit as its count,
   * and the task is pending again, unmarked and uncached, for the reconciler to find.
   */
  lemma {:induction false} ChainExhausts(s: Stores, m: Message, max: int, attempts: nat -> Attempt, i: nat)
    requires 0 <= max < 0x8000_0000 && Keyed(s.rows) && Ready(s, m.body)
    requires -0x8000_0000 <= RetryCount(m.retries) <= max
    requires forall k: nat :: Healthy(attempts(k))
    requires forall k :: i <= k <= i + max - RetryCount(m.retries) ==> Llm(attempts(k)).Err?
    ensures var c, id := Chain(s, m, max, attempts, i), m.body.content.taskId;
            && c.asked == c.handled == max - RetryCount(m.retries) + 1
            && |c.dead| == 1 && c.dead[0].body == m.body && RetryCount(c.dead[0].retries) == max
            && (RetryCount(m.retries) < max ==> c.dead[0].retries == Int32(max))
            && Claimable(c.stores.rows, id) && id !in c.stores.cache
            && c.stores.markers == s.markers
            && Rest(c.stores, id) == Rest(s, id)
    decreases max - RetryCount(m.retries)
  {
    var id := m.body.content.taskId;
    HealthyFailure(s, m.body, attempts(i));
    var s' := HandleAll(s, m.body, attempts(i).deadline, attempts(i).script).stores;
    assert s'.rows - {id} == s.rows - {id} && s'.cache - {id} == s.cache - {id};
    if RetryCount(m.retries) < max {
      ChainExhausts(s', Bumped(m), max, attempts, i + 1);
    }
  }

  // ----- How many attempts a message gets -----

  /**
   * A message that carries the count `n`, in any of the forms a header can have, or no readable count, which stands
   * for 0: with no answer it is handled, and the LLM called, 4 - n times, once at least, and then it is
   * dead-lettered. So a message as the service publishes it, without a header, gets 4 attempts. Counts below those of
   * an int32, which nobody writes, wrap around at their first retry.
   */
  lemma AttemptsMade(s: Stores, m: Message, n: int, attempts: nat -> Attempt)
    requires -0x8000_0000 <= n && Carries(m.retries, n)
    requires Keyed(s.rows) && Ready(s, m.body) && forall k: nat :: Healthy(attempts(k))
    requires forall k: nat :: k == 0 || k + n <= 3 ==> Llm(attempts(k)).Err?
    ensures var c, id := Chain(s, m, MAX_RETRIES, attempts, 0), m.body.content.taskId;
            && c.asked == c.handled == (if n >= 3 then 1 else 4 - n)
            && c.dead == [m.(retries := if n >= 3 then m.retries else Int32(3))]
            && id in c.stores.rows && c.stores.rows[id].status == Pending && id !in c.stores.cache
            && c.stores.markers == s.markers
  {
    if n <= 3 {
      ChainExhausts(s, m, MAX_RETRIES, attempts, 0);
    } else {
      HealthyFailure(s, m.body, attempts(0));
    }
  }

  /** With the first answer at attempt `j`, within the limit, it is handled j + 1 times and completed. */
  lemma AnsweredAfter(s: Stores, m: Message, n: int, j: nat, attempts: nat -> Attempt)
    requires -0x8000_0000 <= n && Carries(m.retries, n)
    requires Keyed(s.rows) && Ready(s, m.body) && forall k: nat :: Healthy(attempts(k))
    requires j == 0 || n + j <= 3
    requires Llm(attempts(j)).Ok? && forall k: nat :: k < j ==> Llm(attempts(k)).Err?
    ensures var c, id := Chain(s, m, MAX_RETRIES, attempts, 0), m.body.content.taskId;
            && c.asked == c.handled == j + 1 && c.dead == []
            && id in c.stores.rows && c.stores.rows[id].status == Completed
            && (Llm(attempts(j)).text != "" ==> c.stores.rows[id].summary == Llm(attempts(j)).text)
  {
    if n + j <= 3 {
      ChainCompletes(s, m, MAX_RETRIES, attempts, 0, j);
    } else {
      HealthyAnswer(s, m.body, attempts(0));
    }
  }
}
