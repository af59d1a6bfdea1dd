/** The task table (internal/repository): each query and update by its meaning, one atomic effect a call. */
module Repository {
  import opened Tasks

  /** The answer of a query: a value, no such row, or a failed call. */
  datatype Answer<+T> = Value(value: T) | NotFound | Broken

  /** Every live row is stored under its own primary key. */
  ghost predicate Keyed(rows: Rows) {
    forall id :: id in rows ==> rows[id].id == id
  }

  predicate Claimable(rows: Rows, id: TaskId) {
    id in rows && rows[id].status == Pending
  }

  /** The table after a status update of row `id`; an empty summary leaves the stored one alone. */
  function StatusWritten(rows: Rows, id: TaskId, status: Status, summary: string, now: Time): Rows
    requires id in rows
  {
    var t := rows[id];
    rows[id := t.(status := status, summary := if summary != "" then summary else t.summary, updatedAt := now)]
  }

  function NewTask(id: TaskId, title: string, description: string, now: Time): Task {
    Task(id, title, description, Pending, "", now, now)
  }

  predicate Stale(t: Task, pendingBefore: Time, processingBefore: Time) {
    || (t.status == Pending && t.createdAt < pendingBefore)
    || (t.status == Processing && t.updatedAt < processingBefore)
  }

  function StaleIds(rows: Rows, pendingBefore: Time, processingBefore: Time): set<TaskId> {
    set id | id in rows && Stale(rows[id], pendingBefore, processingBefore)
  }

  function Ids(ts: seq<Task>): set<TaskId> {
    set t | t in ts :: t.id
  }

  ghost predicate DistinctIds(ts: seq<Task>) {
    forall i, j :: 0 <= i < j < |ts| ==> ts[i].id != ts[j].id
  }

  ghost predicate OldestFirst(ts: seq<Task>) {
    forall i, j :: 0 <= i < j < |ts| ==> ts[i].createdAt <= ts[j].createdAt
  }

  /**
   * `picked` holds `limit` oldest rows of `pool` (all of them when there are fewer), oldest first; ties in any order.
   */
  ghost predicate OldestOf(rows: Rows, pool: set<TaskId>, limit: nat, picked: seq<Task>)
    requires pool <= rows.Keys
  {
    && |picked| <= limit
    && DistinctIds(picked)
    && OldestFirst(picked)
    && (forall t :: t in picked ==> t.id in pool && rows[t.id] == t)
    && (forall id :: id in pool && rows[id] !in picked ==>
          |picked| == limit && forall t :: t in picked ==> t.createdAt <= rows[id].createdAt)
  }

  /** `picked` is one of the answers the stale query may give. */
  ghost predicate StaleBatch(rows: Rows, pendingBefore: Time, processingBefore: Time, limit: nat, picked: seq<Task>) {
    OldestOf(rows, StaleIds(rows, pendingBefore, processingBefore), limit, picked)
  }

  lemma BatchSize(rows: Rows, pool: set<TaskId>, limit: nat, picked: seq<Task>)
    requires Keyed(rows) && pool <= rows.Keys && OldestOf(rows, pool, limit, picked)
    ensures |Ids(picked)| == |picked| == (if limit <= |pool| then limit else |pool|) && Ids(picked) <= pool
  {
    var ids := Ids(picked);
    IdCount(picked);
    assert ids <= pool;
    SubsetSize(ids, pool);
    if |picked| < limit {
      forall id | id in pool ensures id in ids {
        assert rows[id] in picked;
      }
      assert ids == pool;
    }
  }

  lemma {:induction false} IdCount(ts: seq<Task>)
    requires DistinctIds(ts)
    ensures |Ids(ts)| == |ts|
  {
    if ts == [] {
      assert Ids(ts) == {};
    } else {
      var n := |ts| - 1;
      IdCount(ts[..n]);
      assert ts == ts[..n] + [ts[n]];
      assert Ids(ts) == Ids(ts[..n]) + {ts[n].id};
      assert ts[n].id !in Ids(ts[..n]);
    }
  }

  lemma {:induction false} SubsetSize<T>(a: set<T>, b: set<T>)
    requires a <= b
    ensures |a| <= |b|
    ensures |a| == |b| ==> a == b
  {
    assert b == a + (b - a);
    assert |b| == |a| + |b - a|;
  }

  /** A nonempty set of rows has an oldest member. */
  lemma {:induction false} OldestExists(rows: Rows, pool: set<TaskId>)
    requires pool != {} && pool <= rows.Keys
    ensures exists id :: id in pool && forall o :: o in pool ==> rows[id].createdAt <= rows[o].createdAt
  {
    var x :| x in pool;
    var rest := pool - {x};
    assert forall o :: o in pool ==> o == x || o in rest;
    if rest != {} {
      OldestExists(rows, rest);
      var lo :| lo in rest && forall o :: o in rest ==> rows[lo].createdAt <= rows[o].createdAt;
      var least := if rows[x].createdAt < rows[lo].createdAt then x else lo;
      assert least in pool && forall o :: o in pool ==> rows[least].createdAt <= rows[o].createdAt;
    }
  }

  class TaskRepository {
    var rows: Rows
    // Primary keys in use, those of soft-deleted rows included.
    var issued: set<TaskId>

    ghost predicate Valid()
      reads this
    {
      Keyed(rows) && rows.Keys <= issued
    }

    constructor ()
      ensures Valid() && rows == map[] && issued == {}
    {
      rows, issued := map[], {};
    }

    /** Inserts a pending row; a primary key already in use is an error. */
    method Create(id: TaskId, title: string, description: string, now: Time, reply: Reply) returns (ok: bool)
      requires Valid()
      modifies this
      ensures Valid()
      ensures ok == (reply.Ok? && id !in old(issued))
      ensures rows == if ok then old(rows)[id := NewTask(id, title, description, now)] else old(rows)
      ensures ok ==> rows[id] == Task(id, title, description, Pending, "", now, now)
      ensures issued == if ok then old(issued) + {id} else old(issued)
    {
      ok := reply.Ok? && id !in issued;
      if ok {
        rows := rows[id := NewTask(id, title, description, now)];
        issued := issued + {id};
      }
    }

    method GetByID(id: TaskId, reply: Reply) returns (a: Answer<Task>)
      ensures a.Broken? <==> reply.Err?
      ensures a.Value? ==> id in rows && a.value == rows[id]
      ensures a.NotFound? ==> id !in rows
    {
      if reply.Err? {
        return Broken;
      }
      a := if id in rows then Value(rows[id]) else NotFound;
    }

    method UpdateStatus(id: TaskId, status: Status, summary: string, now: Time, reply: Reply) returns (a: Answer<()>)
      requires Valid()
      modifies this`rows
      ensures Valid()
      ensures a == if reply.Err? then Broken else if id in old(rows) then Value(()) else NotFound
      ensures rows == if a.Value? then StatusWritten(old(rows), id, status, summary, now) else old(rows)
      ensures rows.Keys == old(rows).Keys && forall o :: o in rows && o != id ==> rows[o] == old(rows)[o]
      ensures a.Value? ==>
                var was := old(rows)[id];
                && (rows[id].id, rows[id].title, rows[id].description) == (was.id, was.title, was.description)
                && rows[id].status == status && rows[id].createdAt == was.createdAt && rows[id].updatedAt == now
                && rows[id].summary == if summary != "" then summary else was.summary
    {
      if reply.Err? {
        return Broken;
      }
      if id !in rows {
        return NotFound;
      }
      rows := StatusWritten(rows, id, status, summary, now);
      a := Value(());
    }

    /** A soft delete: the row disappears from every query, its key stays taken. */
    method Delete(id: TaskId, reply: Reply) returns (a: Answer<()>)
      requires Valid()
      modifies this`rows
      ensures Valid()
      ensures a == if reply.Err? then Broken else if id in old(rows) then Value(()) else NotFound
      ensures rows == if a.Value? then old(rows) - {id} else old(rows)
    {
      if reply.Err? {
        return Broken;
      }
      if id !in rows {
        return NotFound;
      }
      rows := rows - {id};
      a := Value(());
    }

    /** The conditional update: only a pending row is claimed; a missing row is `false`, not an error. */
    method MarkProcessing(id: TaskId, now: Time, reply: Reply) returns (a: Answer<bool>)
      requires Valid()
      modifies this`rows
      ensures Valid() && !a.NotFound?
      ensures a.Broken? <==> reply.Err?
      ensures a.Value? ==> (a.value <==> id in old(rows) && old(rows)[id].status == Pending)
      ensures a.Value? && a.value ==>
                id in rows && rows[id] == old(rows)[id].(status := Processing, updatedAt := now)
      ensures rows == if a == Value(true) then StatusWritten(old(rows), id, Processing, "", now) else old(rows)
    {
      if reply.Err? {
        return Broken;
      }
      if Claimable(rows, id) {
        rows := StatusWritten(rows, id, Processing, "", now);
        a := Value(true);
      } else {
        a := Value(false);
      }
    }

    method Oldest(pool: set<TaskId>, limit: nat) returns (picked: seq<Task>)
      requires Valid() && pool <= rows.Keys
      ensures OldestOf(rows, pool, limit, picked)
    {
      var left := pool;
      picked := [];
      while |picked| < limit && left != {}
        invariant |picked| <= limit && Picking(rows, pool, left, picked)
        decreases left
      {
        OldestExists(rows, left);
        var id :| id in left && forall o :: o in left ==> rows[id].createdAt <= rows[o].createdAt;
        PickStep(rows, pool, left, picked, id);
        picked := picked + [rows[id]];
        left := left - {id};
      }
    }

    /** A limit that is not positive stands for 100. */
    method FindStale(pendingBefore: Time, processingBefore: Time, limit: int, reply: Reply)
      returns (a: Answer<seq<Task>>)
      requires Valid()
      ensures !a.NotFound? && (a.Broken? <==> reply.Err?)
      ensures a.Value? && 0 < limit ==> StaleBatch(rows, pendingBefore, processingBefore, limit, a.value)
      ensures a.Value? && limit <= 0 ==> StaleBatch(rows, pendingBefore, processingBefore, 100, a.value)
      ensures a.Value? ==>
                var stale := set id | id in rows
                      && (if rows[id].status == Pending then rows[id].createdAt < pendingBefore
                          else rows[id].status == Processing && rows[id].updatedAt < processingBefore);
                && (0 < limit ==> |a.value| == if |stale| <= limit then |stale| else limit)
                && (limit <= 0 ==> |a.value| == if |stale| <= 100 then |stale| else 100)
                && (forall t :: t in a.value ==> t.id in stale && rows[t.id] == t)
                && (forall i, j :: 0 <= i < j < |a.value| ==>
                      a.value[i].id != a.value[j].id && a.value[i].createdAt <= a.value[j].createdAt)
                && (forall t, id :: t in a.value && id in stale && rows[id] !in a.value ==>
                      t.createdAt <= rows[id].createdAt)
    {
      if reply.Err? {
        return Broken;
      }
      var rowsAtMost: nat := if limit <= 0 then 100 else limit;
      var picked := Oldest(StaleIds(rows, pendingBefore, processingBefore), rowsAtMost);
      BatchSize(rows, StaleIds(rows, pendingBefore, processingBefore), rowsAtMost, picked);
      assert StaleIds(rows, pendingBefore, processingBefore)
          == set id | id in rows && (if rows[id].status == Pending then rows[id].createdAt < pendingBefore
                                     else rows[id].status == Processing && rows[id].updatedAt < processingBefore);
      a := Value(picked);
    }

    /** One page, newest first, and the number of live rows; both queries may fail. */
    method List(limit: nat, offset: nat, count: Reply, find: Reply) returns (a: Answer<(seq<Task>, nat)>)
      requires Valid()
      ensures !a.NotFound? && (a.Broken? <==> count.Err? || find.Err?)
      ensures a.Value? ==> a.value.1 == |rows| && Page(rows, limit, offset, a.value.0)
      ensures a.Value? ==>
                var page := a.value.0;
                && |page| == (if |rows| <= offset then 0
                              else if |rows| <= offset + limit then |rows| - offset else limit)
                && (forall t :: t in page ==> t.id in rows && rows[t.id] == t)
                && (forall i, j :: 0 <= i < j < |page| ==>
                      page[i].id != page[j].id && page[j].createdAt <= page[i].createdAt)
    {
      if count.Err? || find.Err? {
        return Broken;
      }
      var oldest := Oldest(rows.Keys, |rows|);
      OldestIsListing(rows, oldest);
      SliceOfListing(rows, Reversed(oldest), limit, offset);
      a := Value((Slice(Reversed(oldest), limit, offset), |rows|));
    }
  }

  /** The loop of `Oldest`: `picked` came out of `pool` in order, `left` is still to pick. */
  ghost predicate Picking(rows: Rows, pool: set<TaskId>, left: set<TaskId>, picked: seq<Task>) {
    && left <= pool <= rows.Keys
    && DistinctIds(picked)
    && OldestFirst(picked)
    && (forall t :: t in picked ==> t.id in pool && rows[t.id] == t && t.id !in left)
    && (forall id :: id in pool ==> id in left || rows[id] in picked)
    && (forall t, id :: t in picked && id in left ==> t.createdAt <= rows[id].createdAt)
  }

  lemma PickStep(rows: Rows, pool: set<TaskId>, left: set<TaskId>, picked: seq<Task>, id: TaskId)
    requires Keyed(rows) && Picking(rows, pool, left, picked) && id in left
    requires forall o :: o in left ==> rows[id].createdAt <= rows[o].createdAt
    ensures Picking(rows, pool, left - {id}, picked + [rows[id]])
  {
    var more := picked + [rows[id]];
    assert forall t :: t in more ==> t in picked || t == rows[id];
    forall i, j | 0 <= i < j < |more| ensures more[i].id != more[j].id && more[i].createdAt <= more[j].createdAt {
      assert more[i] in picked;
    }
    forall o | o in pool ensures o in left - {id} || rows[o] in more {
      if o == id {
        assert more[|picked|] == rows[id];
      } else if rows[o] in picked {
        var i :| 0 <= i < |picked| && picked[i] == rows[o];
        assert more[i] == rows[o];
      }
    }
  }

  /** The query always has an answer. */
  lemma {:induction false} BatchExists(rows: Rows, pool: set<TaskId>, limit: nat) returns (picked: seq<Task>)
    requires Keyed(rows) && pool <= rows.Keys
    ensures OldestOf(rows, pool, limit, picked)
    decreases limit
  {
    picked := [];
    if limit > 0 && pool != {} {
      OldestExists(rows, pool);
      var id :| id in pool && forall o :: o in pool ==> rows[id].createdAt <= rows[o].createdAt;
      var rest := BatchExists(rows, pool - {id}, limit - 1);
      picked := [rows[id]] + rest;
      OldestBefore(rows, pool, limit, id, rest);
    }
  }

  lemma OldestBefore(rows: Rows, pool: set<TaskId>, limit: nat, id: TaskId, rest: seq<Task>)
    requires Keyed(rows) && pool <= rows.Keys && id in pool && 0 < limit
    requires forall o :: o in pool ==> rows[id].createdAt <= rows[o].createdAt
    requires OldestOf(rows, pool - {id}, limit - 1, rest)
    ensures OldestOf(rows, pool, limit, [rows[id]] + rest)
  {
    var picked := [rows[id]] + rest;
    assert forall t :: t in picked <==> t == rows[id] || t in rest;
    forall i, j | 0 <= i < j < |picked|
      ensures picked[i].id != picked[j].id && picked[i].createdAt <= picked[j].createdAt
    {
      assert picked[j] == rest[j - 1] && rest[j - 1] in rest;
      assert i > 0 ==> picked[i] == rest[i - 1];
    }
    forall o | o in pool && rows[o] !in picked ensures o in pool - {id} && rows[o] !in rest {
      assert rows[id] in picked;
    }
  }

  function Reversed(ts: seq<Task>): seq<Task> {
    seq(|ts|, i requires 0 <= i < |ts| => ts[|ts| - 1 - i])
  }

  lemma OldestIsListing(rows: Rows, oldest: seq<Task>)
    requires Keyed(rows) && OldestOf(rows, rows.Keys, |rows|, oldest)
    ensures Listing(rows, Reversed(oldest))
  {
    var order := Reversed(oldest);
    ReversedOrder(oldest);
    BatchSize(rows, rows.Keys, |rows|, oldest);
    forall id | id in rows ensures rows[id] in order {
      assert rows[id] in oldest by {
        SubsetSize(Ids(oldest), rows.Keys);
        var t :| t in oldest && t.id == id;
      }
    }
  }

  lemma ReversedOrder(ts: seq<Task>)
    ensures var r := Reversed(ts); forall t :: t in r <==> t in ts
    ensures DistinctIds(ts) ==> DistinctIds(Reversed(ts))
    ensures OldestFirst(ts) ==> NewestFirst(Reversed(ts))
  {
    var r := Reversed(ts);
    forall t | t in ts ensures t in r {
      var i :| 0 <= i < |ts| && ts[i] == t;
      assert r[|ts| - 1 - i] == t;
    }
  }

  // ----- Paging -----

  ghost predicate NewestFirst(ts: seq<Task>) {
    forall i, j :: 0 <= i < j < |ts| ==> ts[j].createdAt <= ts[i].createdAt
  }

  /** Every live row exactly once, newest first. */
  ghost predicate Listing(rows: Rows, order: seq<Task>) {
    && DistinctIds(order)
    && NewestFirst(order)
    && (forall t :: t in order ==> t.id in rows && rows[t.id] == t)
    && (forall id :: id in rows ==> rows[id] in order)
  }

  function Slice(order: seq<Task>, limit: nat, offset: nat): seq<Task> {
    if offset >= |order| then []
    else if offset + limit >= |order| then order[offset..]
    else order[offset..offset + limit]
  }

  /** One of the pages the database may answer: rows created at the same instant come in any order. */
  ghost predicate Page(rows: Rows, limit: nat, offset: nat, page: seq<Task>) {
    exists order :: Listing(rows, order) && page == Slice(order, limit, offset)
  }

  lemma ListingSize(rows: Rows, order: seq<Task>)
    requires Keyed(rows) && Listing(rows, order)
    ensures |order| == |rows|
  {
    IdCount(order);
    assert Ids(order) == rows.Keys by {
      forall id | id in rows ensures id in Ids(order) {
        assert rows[id] in order;
      }
    }
  }

  /** How large a page is; the rest it has from the listing. */
  lemma SliceOfListing(rows: Rows, order: seq<Task>, limit: nat, offset: nat)
    requires Keyed(rows) && Listing(rows, order)
    ensures var page := Slice(order, limit, offset);
            && |page| == (if |rows| <= offset then 0 else if |rows| <= offset + limit then |rows| - offset else limit)
            && DistinctIds(page) && NewestFirst(page) && (forall t :: t in page ==> t in order)
  {
    ListingSize(rows, order);
    if offset < |order| {
      var end := if |order| <= offset + limit then |order| else offset + limit;
      assert Slice(order, limit, offset) == order[offset..end];
      PartOfListing(rows, order, offset, end);
    }
  }

  lemma PartOfListing(rows: Rows, order: seq<Task>, a: nat, b: nat)
    requires Listing(rows, order) && a <= b <= |order|
    ensures DistinctIds(order[a..b]) && NewestFirst(order[a..b]) && forall t :: t in order[a..b] ==> t in order
  {
    forall i, j | 0 <= i < j < b - a
      ensures order[a..b][i].id != order[a..b][j].id && order[a..b][j].createdAt <= order[a..b][i].createdAt
    {
      assert order[a..b][i] == order[a + i] && order[a..b][j] == order[a + j];
    }
  }
}
