/** The reconciler (internal/reconciler/reconciler.go): republish what the broker has lost track of. */
module Reconcilers {
  import opened Tasks
  import opened Repository
  import opened Messages
  import opened Service

  /** The calls made for one row of a sweep. */
  datatype RowCalls = RowCalls(now: Time, event: EventId, reset: Reply, del: Reply, publish: Publish)

  datatype SweepState = SweepState(rows: Rows, cache: Rows, work: seq<Message>, rescued: nat)

  /** Republishing one row of the snapshot. */
  function SweepRow(s: SweepState, t: Task, c: RowCalls): SweepState {
    SweepState(
      ResetRows(s.rows, t, c.now, c.reset),
      ResetCache(s.rows, s.cache, t, c.reset, c.del),
      s.work + RowMessages(s.rows, t, c),
      s.rescued + if RowRescued(s.rows, t, c) then 1 else 0)
  }

  function RowMessages(rows: Rows, t: Task, c: RowCalls): seq<Message> {
    if Resettable(rows, t, c.reset) then Enqueued(Announcement(c.event, t), c.publish) else []
  }

  predicate RowRescued(rows: Rows, t: Task, c: RowCalls) {
    Resettable(rows, t, c.reset) && c.publish.Confirmed?
  }

  /** The sweep from row `i` of its snapshot to the end. */
  function SweepFrom(s: SweepState, picked: seq<Task>, calls: nat -> RowCalls, i: nat): SweepState
    decreases |picked| - i
  {
    if i >= |picked| then s else SweepFrom(SweepRow(s, picked[i], calls(i)), picked, calls, i + 1)
  }

  datatype Options = Options(interval: Time, pendingGrace: Time, processingTimeout: Time, batchSize: int)

  /** What `New` makes of the options: one that is not positive takes its default. */
  function WithDefaults(o: Options): Options {
    Options(
      if o.interval <= 0 then MINUTE else o.interval,
      if o.pendingGrace <= 0 then 5 * MINUTE else o.pendingGrace,
      if o.processingTimeout <= 0 then 10 * MINUTE else o.processingTimeout,
      if o.batchSize <= 0 then 100 else o.batchSize)
  }

  /** What the configuration is refused for lacking. */
  predicate Validated(o: Options) {
    o.interval <= o.pendingGrace
  }

  /**
   * The check on the grace runs before the defaults: it carries over to the settings in force exactly when the interval
   * was set, or the grace is unset or at least the default interval.
   */
  lemma ValidationCarriesIff(o: Options)
    requires Validated(o)
    ensures Validated(WithDefaults(o)) <==> (0 < o.interval || o.pendingGrace <= 0 || MINUTE <= o.pendingGrace)
  {
  }

  class Reconciler {
    const tasks: TaskService
    const options: Options

    ghost predicate Valid()
      reads tasks.repo
    {
      tasks.Valid() && 0 < options.batchSize
    }

    /** Each option in force is positive: as it was set if that was, its documented default otherwise. */
    constructor (tasks: TaskService, o: Options)
      ensures this.tasks == tasks && options == WithDefaults(o) && (tasks.Valid() ==> Valid())
      ensures 0 < options.interval && 0 < options.pendingGrace
      ensures 0 < options.processingTimeout && 0 < options.batchSize
      ensures 0 < o.interval ==> options.interval == o.interval
      ensures 0 < o.pendingGrace ==> options.pendingGrace == o.pendingGrace
      ensures 0 < o.processingTimeout ==> options.processingTimeout == o.processingTimeout
      ensures 0 < o.batchSize ==> options.batchSize == o.batchSize
      ensures o.interval <= 0 ==> options.interval == 60_000_000_000
      ensures o.pendingGrace <= 0 ==> options.pendingGrace == 300_000_000_000
      ensures o.processingTimeout <= 0 ==> options.processingTimeout == 600_000_000_000
      ensures o.batchSize <= 0 ==> options.batchSize == 100
    {
      this.tasks := tasks;
      this.options := WithDefaults(o);
    }

    ghost function Contents(rescued: nat): SweepState
      reads tasks.repo, tasks.cache, tasks.pub
    {
      SweepState(tasks.repo.rows, tasks.cache.entries, tasks.pub.work, rescued)
    }

    /** One pass; a row that fails is skipped. `picked` is the snapshot the stale query answered. */
    method Sweep(now: Time, find: Reply, calls: nat -> RowCalls)
      returns (rescued: nat, ok: bool, ghost picked: seq<Task>)
      requires Valid()
      modifies tasks.repo`rows, tasks.cache, tasks.pub`work
      ensures Valid()
      ensures ok == find.Ok?
      ensures !ok ==> rescued == 0 && Contents(0) == old(Contents(0))
      ensures rescued <= |picked| <= options.batchSize
      ensures ok ==>
                && StaleBatch(old(tasks.repo.rows), now - options.pendingGrace, now - options.processingTimeout,
                              options.batchSize, picked)
                && Contents(rescued) == SweepFrom(old(Contents(0)), picked, calls, 0)
    {
      rescued := 0;
      picked := [];
      var found := tasks.FindStale(now - options.pendingGrace, now - options.processingTimeout,
                                   options.batchSize, find);
      if found.Broken? {
        return 0, false, [];
      }
      var stale := found.value;
      picked := stale;
      ok := true;
      SweepEarns(tasks.repo.rows, Contents(0), picked, calls, 0);
      SentSize(tasks.repo.rows, picked, calls, 0);
      for i := 0 to |stale|
        invariant Valid()
        invariant SweepFrom(Contents(rescued), picked, calls, i) == SweepFrom(old(Contents(0)), picked, calls, 0)
      {
        var c := calls(i);
        ghost var before := Contents(rescued);
        var sent := tasks.RepublishCreated(stale[i], c.event, c.now, c.reset, c.del, c.publish);
        if sent {
          rescued := rescued + 1;
        }
        assert Contents(rescued).work == before.work + RowMessages(before.rows, stale[i], c);
        assert Contents(rescued) == SweepRow(before, stale[i], c);
      }
    }
  }

  // ----- Accounting -----

  /**
   * Rows of the snapshot from `i` on that are rescued, each judged on the table before the sweep and on its own
   * calls.
   */
  function RescuedRows(rows: Rows, picked: seq<Task>, calls: nat -> RowCalls, i: nat): nat
    decreases |picked| - i
  {
    if i >= |picked| then 0
    else (if RowRescued(rows, picked[i], calls(i)) then 1 else 0) + RescuedRows(rows, picked, calls, i + 1)
  }

  /** The messages those rows put on the queue. */
  function Sent(rows: Rows, picked: seq<Task>, calls: nat -> RowCalls, i: nat): seq<Message>
    decreases |picked| - i
  {
    if i >= |picked| then [] else RowMessages(rows, picked[i], calls(i)) + Sent(rows, picked, calls, i + 1)
  }

  /** The rows of a snapshot do not disturb each other: the sweep earns the sum of what its rows earn. */
  lemma {:induction false} SweepEarns(rows: Rows, s: SweepState, picked: seq<Task>, calls: nat -> RowCalls, i: nat)
    requires i <= |picked| && rows.Keys == s.rows.Keys
    ensures var e := SweepFrom(s, picked, calls, i);
            && e.rescued == s.rescued + RescuedRows(rows, picked, calls, i)
            && e.work == s.work + Sent(rows, picked, calls, i)
    decreases |picked| - i
  {
    if i < |picked| {
      var s' := SweepRow(s, picked[i], calls(i));
      RowKeys(rows, s, picked[i], calls(i));
      SweepEarns(rows, s', picked, calls, i + 1);
      assert s.work + RowMessages(rows, picked[i], calls(i)) + Sent(rows, picked, calls, i + 1)
          == s.work + (RowMessages(rows, picked[i], calls(i)) + Sent(rows, picked, calls, i + 1));
    }
  }

  /** What a row earns depends on which rows are live only. */
  lemma RowKeys(rows: Rows, s: SweepState, t: Task, c: RowCalls)
    requires rows.Keys == s.rows.Keys
    ensures SweepRow(s, t, c).rows.Keys == rows.Keys
    ensures RowMessages(s.rows, t, c) == RowMessages(rows, t, c) && RowRescued(s.rows, t, c) == RowRescued(rows, t, c)
  {
  }

  /** The final row of a task of the snapshot is decided by its own calls; other rows stay as they were. */
  lemma {:induction false} SweepWrites(s: SweepState, picked: seq<Task>, calls: nat -> RowCalls, i: nat)
    requires i <= |picked| && DistinctIds(picked)
    ensures var rows := SweepFrom(s, picked, calls, i).rows;
            && rows.Keys == s.rows.Keys
            && (forall id :: id in s.rows && id !in Ids(picked[i..]) ==> rows[id] == s.rows[id])
            && (forall k :: i <= k < |picked| && picked[k].id in s.rows ==>
                  rows[picked[k].id] == ResetRows(s.rows, picked[k], calls(k).now, calls(k).reset)[picked[k].id])
    decreases |picked| - i
  {
    if i < |picked| {
      var s' := SweepRow(s, picked[i], calls(i));
      SweepWrites(s', picked, calls, i + 1);
      assert picked[i..] == [picked[i]] + picked[i + 1..];
      assert picked[i].id !in Ids(picked[i + 1..]);
    }
  }

  /**
   * Sweep accounting under any pattern of failures: the returned count and the queue are exactly what each row earns
   * on its own, the snapshot is within the batch size, every row is pending at the moment it is announced
   * (`Announced`) and stays so to the end, and the other rows are as before.
   */
  lemma SweepAccounting(s: SweepState, picked: seq<Task>, pendingBefore: Time, processingBefore: Time, limit: nat,
                        calls: nat -> RowCalls)
    requires StaleBatch(s.rows, pendingBefore, processingBefore, limit, picked) && s.rescued == 0
    ensures var e := SweepFrom(s, picked, calls, 0);
            && e.rescued == RescuedRows(s.rows, picked, calls, 0) <= |picked| <= limit
            && e.work == s.work + Sent(s.rows, picked, calls, 0)
            && ((forall k :: 0 <= k < |picked| ==> !calls(k).publish.Unconfirmed?) ==>
                  |e.work| == |s.work| + e.rescued)
            && (forall k :: 0 <= k < |picked| ==>
                  var t, c := picked[k], calls(k);
                  var sent := t.status == Pending || c.reset.Ok?;
                  && (RowRescued(s.rows, t, c) <==> sent && c.publish.Confirmed?)
                  && RowMessages(s.rows, t, c)
                     == (if sent && !c.publish.Lost?
                         then [Message(Body(c.event, Created(t.id, t.title, t.description)), Absent)] else [])
                  && (RowMessages(s.rows, t, c) != [] ==> Claimable(e.rows, t.id) && Announced(s, picked, calls, k)))
            && (forall id :: id in s.rows && id !in Ids(picked) ==> id in e.rows && e.rows[id] == s.rows[id])
  {
    SweepEarns(s.rows, s, picked, calls, 0);
    SentSize(s.rows, picked, calls, 0);
    SweptArePending(s, picked, calls);
    forall k | 0 <= k < |picked|
      ensures Unfinished(picked[k]) && picked[k].id in s.rows
      ensures RowMessages(s.rows, picked[k], calls(k)) != [] ==> Announced(s, picked, calls, k)
    {
      assert picked[k] in picked && forall t :: t in picked[..k] ==> t in picked;
      if RowMessages(s.rows, picked[k], calls(k)) != [] {
        PublishedPending(s, picked, calls, k);
      }
    }
  }

  /** Row `k` of the snapshot is published, and it is pending when it is: a publish leaves the table alone. */
  ghost predicate Announced(s: SweepState, picked: seq<Task>, calls: nat -> RowCalls, k: nat)
    requires k < |picked|
  {
    var before := SweepFrom(s, picked[..k], calls, 0);
    var t, c := picked[k], calls(k);
    && SweepRow(before, t, c).work
       == before.work + [Message(Body(c.event, Created(t.id, t.title, t.description)), Absent)]
    && Claimable(ResetRows(before.rows, t, c.now, c.reset), t.id)
  }

  lemma PublishedPending(s: SweepState, picked: seq<Task>, calls: nat -> RowCalls, k: nat)
    requires DistinctIds(picked) && k < |picked| && picked[k].id in s.rows && s.rows[picked[k].id] == picked[k]
    requires Unfinished(picked[k]) && RowMessages(s.rows, picked[k], calls(k)) != []
    ensures Announced(s, picked, calls, k)
  {
    var before := SweepFrom(s, picked[..k], calls, 0);
    SweepWrites(s, picked[..k], calls, 0);
    assert picked[..k][0..] == picked[..k];
    forall t | t in picked[..k] ensures t.id != picked[k].id {
      var i :| 0 <= i < k && picked[i] == t;
    }
    assert picked[k].id in s.rows && picked[k].id !in Ids(picked[..k]);
    assert before.rows[picked[k].id] == picked[k];
  }

  /** Rows as the table holds them, unfinished, are pending once announced; the others are as before. */
  lemma SweptArePending(s: SweepState, picked: seq<Task>, calls: nat -> RowCalls)
    requires DistinctIds(picked)
    requires forall t :: t in picked ==> t.id in s.rows && s.rows[t.id] == t && Unfinished(t)
    ensures var e := SweepFrom(s, picked, calls, 0);
            && (forall k :: 0 <= k < |picked| && RowMessages(s.rows, picked[k], calls(k)) != [] ==>
                  Claimable(e.rows, picked[k].id))
            && (forall id :: id in s.rows && id !in Ids(picked) ==> id in e.rows && e.rows[id] == s.rows[id])
  {
    SweepWrites(s, picked, calls, 0);
    assert picked[0..] == picked;
    forall k | 0 <= k < |picked| && RowMessages(s.rows, picked[k], calls(k)) != []
      ensures Claimable(SweepFrom(s, picked, calls, 0).rows, picked[k].id)
    {
      assert picked[k] in picked;
    }
  }

  lemma {:induction false} SentSize(rows: Rows, picked: seq<Task>, calls: nat -> RowCalls, i: nat)
    requires i <= |picked|
    ensures RescuedRows(rows, picked, calls, i) <= |picked| - i
    ensures RescuedRows(rows, picked, calls, i) <= |Sent(rows, picked, calls, i)|
    ensures (forall k :: i <= k < |picked| ==> !calls(k).publish.Unconfirmed?) ==>
              |Sent(rows, picked, calls, i)| == RescuedRows(rows, picked, calls, i)
    decreases |picked| - i
  {
    if i < |picked| {
      SentSize(rows, picked, calls, i + 1);
    }
  }
}
