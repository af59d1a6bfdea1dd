/** The task use cases (internal/service/task_service.go) over the table, the row cache and the queue. */
module Service {
  import opened Tasks
  import opened Repository
  import opened Messages

  /** The table and the Redis row cache. */
  datatype View = View(rows: Rows, issued: set<TaskId>, cache: Rows)

  function Invalidated(cache: Rows, id: TaskId, reply: Reply): Rows {
    if reply.Ok? then cache - {id} else cache
  }

  function Filled(cache: Rows, t: Task, reply: Reply): Rows {
    if reply.Ok? then cache[t.id := t] else cache
  }

  predicate ValidInput(title: string, description: string) {
    0 < |title| <= 255 && |description| <= 20000
  }

  class RowCache {
    var entries: Rows

    constructor ()
      ensures entries == map[]
    {
      entries := map[];
    }

    method Set(t: Task, reply: Reply)
      modifies this
      ensures entries == Filled(old(entries), t, reply)
      ensures reply.Err? ==> entries == old(entries)
      ensures reply.Ok? ==> t.id in entries && entries[t.id] == t && entries - {t.id} == old(entries) - {t.id}
    {
      if reply.Ok? {
        entries := entries[t.id := t];
      }
    }

    method Del(id: TaskId, reply: Reply)
      modifies this
      ensures entries == Invalidated(old(entries), id, reply)
      ensures reply.Err? ==> entries == old(entries)
      ensures reply.Ok? ==> id !in entries && forall o :: o != id && o in old(entries) ==> o in entries
    {
      if reply.Ok? {
        entries := entries - {id};
      }
    }
  }

  datatype CreateResult = Stored(t: Task) | InvalidInput | StoreFailed

  class TaskService {
    const repo: TaskRepository
    const pub: Broker
    const cache: RowCache

    ghost predicate Valid()
      reads repo
    {
      repo.Valid()
    }

    ghost function Contents(): View
      reads repo, cache
    {
      View(repo.rows, repo.issued, cache.entries)
    }

    constructor (repo: TaskRepository, pub: Broker, cache: RowCache)
      ensures this.repo == repo && this.pub == pub && this.cache == cache
    {
      this.repo, this.pub, this.cache := repo, pub, cache;
    }

    /** Stores the task, then announces it; a failed publish does not fail the request. */
    method Create(id: TaskId, e: EventId, title: string, description: string, now: Time, insert: Reply,
                  publish: Publish)
      returns (r: CreateResult)
      requires Valid()
      modifies repo, pub`work
      ensures Valid()
      ensures r.InvalidInput? <==> title == "" || |title| > 255 || |description| > 20000
      ensures !r.InvalidInput? ==> (r.Stored? <==> insert.Ok? && id !in old(repo.issued))
      ensures r.Stored? ==>
                && r.t == Task(id, title, description, Pending, "", now, now)
                && id in repo.rows && repo.rows[id] == r.t
                && (publish.Lost? ==> pub.work == old(pub.work))
                && (!publish.Lost? ==>
                      pub.work == old(pub.work) + [Message(Body(e, Created(id, title, description)), Absent)])
      ensures !r.Stored? ==> Contents() == old(Contents()) && pub.work == old(pub.work)
      ensures !r.InvalidInput? ==>
                Contents() == Perform(old(Contents()), Op.Create(id, title, description, now, insert))
    {
      if !ValidInput(title, description) {
        return InvalidInput;
      }
      var ok := repo.Create(id, title, description, now, insert);
      if !ok {
        return StoreFailed;
      }
      var t := NewTask(id, title, description, now);
      var _ := pub.Publish(Announcement(e, t), publish);
      r := Stored(t);
    }

    /** Serves from the cache when warm; a cache failure or an undecodable entry falls through to the table. */
    method Get(id: TaskId, read: Reply, load: Reply, fill: Reply) returns (a: Answer<Task>)
      requires Valid()
      modifies cache
      ensures Valid()
      ensures read.Ok? && id in old(cache.entries) ==>
                a == Value(old(cache.entries)[id]) && Contents() == old(Contents())
      ensures !(read.Ok? && id in old(cache.entries)) ==>
                && (a.Broken? <==> load.Err?)
                && (load.Ok? ==> a == if id in repo.rows then Value(repo.rows[id]) else NotFound)
                && cache.entries == if a.Value? then Filled(old(cache.entries), a.value, fill) else old(cache.entries)
      ensures fill.Ok? ==> Contents() == Perform(old(Contents()), Op.Get(id, read, load))
      ensures a == Fetched(old(Contents()), id, read, load)
    {
      if read.Ok? && id in cache.entries {
        return Value(cache.entries[id]);
      }
      a := repo.GetByID(id, load);
      if a.Value? {
        cache.Set(a.value, fill);
      }
    }

    method List(limit: int, offset: int, count: Reply, find: Reply) returns (a: Answer<(seq<Task>, nat)>)
      requires Valid()
      ensures !a.NotFound? && (a.Broken? <==> count.Err? || find.Err?)
      ensures a.Value? ==>
                && a.value.1 == |repo.rows|
                && Page(repo.rows, if 1 <= limit <= 100 then limit else 20, if offset < 0 then 0 else offset, a.value.0)
    {
      var n := if limit <= 0 || limit > 100 then 20 else limit;
      var from := if offset < 0 then 0 else offset;
      a := repo.List(n, from, count, find);
    }

    method Delete(id: TaskId, reply: Reply, del: Reply) returns (a: Answer<()>)
      requires Valid()
      modifies repo`rows, cache
      ensures Valid()
      ensures a == if reply.Err? then Broken else if id in old(repo.rows) then Value(()) else NotFound
      ensures repo.rows == if a.Value? then old(repo.rows) - {id} else old(repo.rows)
      ensures cache.entries == if a.Value? then Invalidated(old(cache.entries), id, del) else old(cache.entries)
      ensures del.Ok? ==> Contents() == Perform(old(Contents()), Op.Delete(id, reply))
    {
      a := repo.Delete(id, reply);
      if a.Value? {
        cache.Del(id, del);
      }
    }

    /** Claims a task for summarisation: false when it is not pending. */
    method BeginProcessing(id: TaskId, now: Time, reply: Reply, del: Reply) returns (a: Answer<bool>)
      requires Valid()
      modifies repo`rows, cache
      ensures Valid() && !a.NotFound?
      ensures a.Broken? <==> reply.Err?
      ensures a.Value? ==> (a.value <==> id in old(repo.rows) && old(repo.rows)[id].status == Pending)
      ensures a == Value(true) && del.Ok? ==> id !in cache.entries
      ensures repo.rows == if a == Value(true) then StatusWritten(old(repo.rows), id, Processing, "", now)
                           else old(repo.rows)
      ensures cache.entries == if a == Value(true) then Invalidated(old(cache.entries), id, del) else old(cache.entries)
      ensures del.Ok? ==> Contents() == Perform(old(Contents()), Op.BeginProcessing(id, now, reply))
    {
      a := repo.MarkProcessing(id, now, reply);
      if a == Value(true) {
        cache.Del(id, del);
      }
    }

    method ApplySummary(id: TaskId, summary: string, now: Time, reply: Reply, reread: Reply, fill: Reply)
      returns (a: Answer<()>)
      requires Valid()
      modifies repo`rows, cache
      ensures Valid()
      ensures a == if reply.Err? then Broken else if id in old(repo.rows) then Value(()) else NotFound
      ensures repo.rows == if a.Value? then StatusWritten(old(repo.rows), id, Completed, summary, now)
                           else old(repo.rows)
      ensures cache.entries == if a.Value? && reread.Ok? then Filled(old(cache.entries), repo.rows[id], fill)
                               else old(cache.entries)
      ensures a.Value? ==> repo.rows[id].status == Completed && (summary != "" ==> repo.rows[id].summary == summary)
      ensures a.Value? && reread.Ok? && fill.Ok? ==> id in cache.entries && cache.entries[id] == repo.rows[id]
      ensures reread.Ok? && fill.Ok? ==>
                Contents() == Perform(old(Contents()), Op.ApplySummary(id, summary, now, reply))
    {
      a := repo.UpdateStatus(id, Completed, summary, now, reply);
      if a.Value? {
        var t := repo.GetByID(id, reread);
        if t.Value? {
          cache.Set(t.value, fill);
        }
      }
    }

    /** Has no caller in the wired system; leaves the cache alone. */
    method MarkFailed(id: TaskId, now: Time, reply: Reply) returns (a: Answer<()>)
      requires Valid()
      modifies repo`rows
      ensures Valid()
      ensures a == if reply.Err? then Broken else if id in old(repo.rows) then Value(()) else NotFound
      ensures Contents() == Perform(old(Contents()), Op.MarkFailed(id, now, reply))
      ensures cache.entries == old(cache.entries)
      ensures a.Value? ==> id in repo.rows && repo.rows[id] == old(repo.rows)[id].(status := Failed, updatedAt := now)
    {
      a := repo.UpdateStatus(id, Failed, "", now, reply);
    }

    method MarkPending(id: TaskId, now: Time, reply: Reply, del: Reply) returns (a: Answer<()>)
      requires Valid()
      modifies repo`rows, cache
      ensures Valid()
      ensures a == if reply.Err? then Broken else if id in old(repo.rows) then Value(()) else NotFound
      ensures repo.rows == if a.Value? then StatusWritten(old(repo.rows), id, Pending, "", now) else old(repo.rows)
      ensures cache.entries == if a.Value? then Invalidated(old(cache.entries), id, del) else old(cache.entries)
      ensures a.Value? ==> repo.rows[id].status == Pending && (del.Ok? ==> id !in cache.entries)
      ensures del.Ok? ==> Contents() == Perform(old(Contents()), Op.MarkPending(id, now, reply))
    {
      a := repo.UpdateStatus(id, Pending, "", now, reply);
      if a.Value? {
        cache.Del(id, del);
      }
    }

    method FindStale(pendingBefore: Time, processingBefore: Time, limit: int, reply: Reply)
      returns (a: Answer<seq<Task>>)
      requires Valid()
      ensures !a.NotFound? && (a.Broken? <==> reply.Err?)
      ensures a.Value? && 0 < limit ==> StaleBatch(repo.rows, pendingBefore, processingBefore, limit, a.value)
      ensures a.Value? && limit <= 0 ==> StaleBatch(repo.rows, pendingBefore, processingBefore, 100, a.value)
    {
      a := repo.FindStale(pendingBefore, processingBefore, limit, reply);
    }

    /** Re-emits task.created for a row the reconciler saw, first resetting one it saw in `processing`. */
    method RepublishCreated(t: Task, e: EventId, now: Time, reset: Reply, del: Reply, publish: Publish)
      returns (ok: bool)
      requires Valid()
      modifies repo`rows, cache, pub`work
      ensures Valid()
      ensures t.status == Processing && (reset.Err? || t.id !in old(repo.rows)) ==>
                !ok && Contents() == old(Contents()) && pub.work == old(pub.work)
      ensures !(t.status == Processing && (reset.Err? || t.id !in old(repo.rows))) ==>
                && ok == publish.Confirmed?
                && (publish.Lost? ==> pub.work == old(pub.work))
                && (!publish.Lost? ==>
                      pub.work == old(pub.work) + [Message(Body(e, Created(t.id, t.title, t.description)), Absent)])
                && (t.status == Processing ==> t.id in repo.rows && repo.rows[t.id].status == Pending)
                && (t.status != Processing ==> Contents() == old(Contents()))
      ensures repo.rows == ResetRows(old(repo.rows), t, now, reset)
      ensures cache.entries == ResetCache(old(repo.rows), old(cache.entries), t, reset, del)
      ensures del.Ok? ==> Contents() == Perform(old(Contents()), Op.RepublishCreated(t, now, reset))
    {
      if t.status == Processing {
        var a := MarkPending(t.id, now, reset, del);
        if !a.Value? {
          return false;
        }
      }
      ok := pub.Publish(Announcement(e, t), publish);
    }
  }

  /** Does republishing get as far as the publish. */
  predicate Resettable(rows: Rows, t: Task, reset: Reply) {
    t.status != Processing || (reset.Ok? && t.id in rows)
  }

  function ResetRows(rows: Rows, t: Task, now: Time, reset: Reply): Rows {
    if t.status == Processing && reset.Ok? && t.id in rows then StatusWritten(rows, t.id, Pending, "", now) else rows
  }

  function ResetCache(rows: Rows, cache: Rows, t: Task, reset: Reply, del: Reply): Rows {
    if t.status == Processing && reset.Ok? && t.id in rows then Invalidated(cache, t.id, del) else cache
  }

  function Lookup(rows: Rows, id: TaskId): Answer<Task> {
    if id in rows then Value(rows[id]) else NotFound
  }

  // ----- Sequential runs: the cache is invisible -----

  /** One whole call with its cache writes, deletes and re-reads succeeding, or an entry's TTL running out. */
  datatype Op =
    | Create(id: TaskId, title: string, description: string, now: Time, reply: Reply)
    | Get(id: TaskId, read: Reply, reply: Reply)
    | List
    | Delete(id: TaskId, reply: Reply)
    | BeginProcessing(id: TaskId, now: Time, reply: Reply)
    | ApplySummary(id: TaskId, summary: string, now: Time, reply: Reply)
    | MarkPending(id: TaskId, now: Time, reply: Reply)
    | RepublishCreated(t: Task, now: Time, reply: Reply)
    | MarkFailed(id: TaskId, now: Time, reply: Reply)
    | Expire(id: TaskId)

  /** What `Get` returns: `read` and `load` are the answers of the cache and of the table. */
  function Fetched(v: View, id: TaskId, read: Reply, load: Reply): Answer<Task> {
    if read.Ok? && id in v.cache then Value(v.cache[id]) else if load.Err? then Broken else Lookup(v.rows, id)
  }

  function Perform(v: View, op: Op): View {
    match op
    case Create(id, title, description, now, reply) =>
      if reply.Ok? && id !in v.issued
      then v.(rows := v.rows[id := NewTask(id, title, description, now)], issued := v.issued + {id})
      else v
    case Get(id, read, reply) =>
      if (read.Ok? && id in v.cache) || reply.Err? || id !in v.rows then v
      else v.(cache := v.cache[v.rows[id].id := v.rows[id]])
    case List => v
    case Delete(id, reply) =>
      if reply.Err? || id !in v.rows then v else v.(rows := v.rows - {id}, cache := v.cache - {id})
    case BeginProcessing(id, now, reply) =>
      if reply.Err? || !Claimable(v.rows, id) then v
      else v.(rows := StatusWritten(v.rows, id, Processing, "", now), cache := v.cache - {id})
    case ApplySummary(id, summary, now, reply) =>
      if reply.Err? || id !in v.rows then v
      else
        var rows := StatusWritten(v.rows, id, Completed, summary, now);
        v.(rows := rows, cache := v.cache[rows[id].id := rows[id]])
    case MarkPending(id, now, reply) =>
      if reply.Err? || id !in v.rows then v
      else v.(rows := StatusWritten(v.rows, id, Pending, "", now), cache := v.cache - {id})
    case RepublishCreated(t, now, reply) =>
      v.(rows := ResetRows(v.rows, t, now, reply), cache := ResetCache(v.rows, v.cache, t, reply, Ok("")))
    case MarkFailed(id, now, reply) =>
      if reply.Err? || id !in v.rows then v else v.(rows := StatusWritten(v.rows, id, Failed, "", now))
    case Expire(id) => v.(cache := v.cache - {id})
  }

  function PerformAll(v: View, ops: seq<Op>): View
    decreases ops
  {
    if ops == [] then v else PerformAll(Perform(v, ops[0]), ops[1..])
  }

  /** Every cached row is the row of the table. */
  ghost predicate Coherent(v: View) {
    && Keyed(v.rows)
    && v.rows.Keys <= v.issued
    && forall id :: id in v.cache ==> id in v.rows && v.cache[id] == v.rows[id]
  }

  /**
   * Cache refinement: after any sequential run without `MarkFailed`, with entries expiring and cache reads failing at
   * will, `Get` answers exactly what the table alone would.
   */
  lemma {:induction false} CacheInvisible(v: View, ops: seq<Op>, id: TaskId, read: Reply)
    requires Coherent(v) && forall op :: op in ops ==> !op.MarkFailed?
    ensures Coherent(PerformAll(v, ops))
    ensures Fetched(PerformAll(v, ops), id, read, Ok("")) == Lookup(PerformAll(v, ops).rows, id)
    decreases ops
  {
    if ops != [] {
      CacheInvisible(Perform(v, ops[0]), ops[1..], id, read);
    }
  }

  /** `MarkFailed` keeps the cache in step exactly when the row it changes is not cached. */
  lemma MarkFailedCoherent(v: View, id: TaskId, now: Time)
    requires Coherent(v) && id in v.rows && v.rows[id].updatedAt < now
    ensures Coherent(Perform(v, MarkFailed(id, now, Ok("")))) <==> id !in v.cache
  {
    var v' := Perform(v, MarkFailed(id, now, Ok("")));
    assert v'.rows[id] != v.rows[id];
  }

  /** So a cached row hides the failure from readers, until its entry expires. */
  lemma MarkFailedHidden(v: View, id: TaskId, now: Time)
    requires Coherent(v) && id in v.cache && v.rows[id].updatedAt < now
    ensures var v' := Perform(v, MarkFailed(id, now, Ok("")));
            && Lookup(v'.rows, id).value.status == Failed
            && Fetched(v', id, Ok(""), Ok("")) == Value(v.rows[id])
            && v.rows[id] != v'.rows[id]
            && Fetched(Perform(v', Op.Expire(id)), id, Ok(""), Ok("")) == Value(v'.rows[id])
  {
    assert Perform(v, MarkFailed(id, now, Ok(""))).rows[id].updatedAt == now;
  }
}
