/**
 * The stale query (internal/repository/task_repository.go, `FindStale`): how much it returns, and whom it leaves out.
 */
module Batches {
  import opened Tasks
  import opened Repository

  /** The batch has exactly min(limit, number of stale rows) rows. */
  lemma StaleBatchSize(rows: Rows, pendingBefore: Time, processingBefore: Time, limit: nat, picked: seq<Task>)
    requires Keyed(rows) && StaleBatch(rows, pendingBefore, processingBefore, limit, picked)
    ensures |picked| == if limit <= |StaleIds(rows, pendingBefore, processingBefore)| then limit
                        else |StaleIds(rows, pendingBefore, processingBefore)|
  {
    BatchSize(rows, StaleIds(rows, pendingBefore, processingBefore), limit, picked);
  }

  lemma StaleBatchExists(rows: Rows, pendingBefore: Time, processingBefore: Time, limit: nat)
    returns (picked: seq<Task>)
    requires Keyed(rows)
    ensures StaleBatch(rows, pendingBefore, processingBefore, limit, picked)
    ensures var n := |StaleIds(rows, pendingBefore, processingBefore)|; |picked| == if n < limit then n else limit
  {
    picked := BatchExists(rows, StaleIds(rows, pendingBefore, processingBefore), limit);
    StaleBatchSize(rows, pendingBefore, processingBefore, limit, picked);
  }

  /** Any set of rows that is full, or all there is, and none younger than a row left out, can be the batch. */
  lemma SetIsBatch(rows: Rows, pool: set<TaskId>, limit: nat, chosen: set<TaskId>) returns (picked: seq<Task>)
    requires Keyed(rows) && chosen <= pool <= rows.Keys
    requires |chosen| == limit || (|chosen| < limit && chosen == pool)
    requires forall x, y :: x in chosen && y in pool - chosen ==> rows[x].createdAt <= rows[y].createdAt
    ensures OldestOf(rows, pool, limit, picked) && Ids(picked) == chosen
  {
    picked := BatchExists(rows, chosen, |chosen|);
    BatchSize(rows, chosen, |chosen|, picked);
    SubsetSize(Ids(picked), chosen);
    forall id | id in pool && rows[id] !in picked
      ensures |picked| == limit && forall t :: t in picked ==> t.createdAt <= rows[id].createdAt
    {
      NotPicked(rows, picked, id);
    }
  }

  lemma NotPicked(rows: Rows, picked: seq<Task>, id: TaskId)
    requires Keyed(rows) && id in rows && (forall t :: t in picked ==> t.id in rows && rows[t.id] == t)
    ensures rows[id] in picked <==> id in Ids(picked)
  {
  }

  /** The other rows of the pool created no later than row `id`, and those created strictly before it. */
  function NoYounger(rows: Rows, pool: set<TaskId>, id: TaskId): set<TaskId>
    requires id in rows && pool <= rows.Keys
  {
    set o | o in pool && o != id && rows[o].createdAt <= rows[id].createdAt
  }

  function Elder(rows: Rows, pool: set<TaskId>, id: TaskId): set<TaskId>
    requires id in rows && pool <= rows.Keys
  {
    set o | o in pool && rows[o].createdAt < rows[id].createdAt
  }

  /** A row is in every batch exactly when fewer than `limit` others were created no later. */
  lemma AlwaysPickedIff(rows: Rows, pool: set<TaskId>, limit: nat, id: TaskId)
    requires Keyed(rows) && pool <= rows.Keys && id in pool
    ensures (forall picked :: OldestOf(rows, pool, limit, picked) ==> rows[id] in picked)
       <==> |NoYounger(rows, pool, id)| < limit
  {
    var ahead := NoYounger(rows, pool, id);
    if |ahead| < limit {
      forall picked | OldestOf(rows, pool, limit, picked) ensures rows[id] in picked {
        BatchSize(rows, pool, limit, picked);
        if rows[id] !in picked {
          assert Ids(picked) <= ahead;
          SubsetSize(Ids(picked), ahead);
        }
      }
    } else {
      var first := BatchExists(rows, ahead, limit);
      BatchSize(rows, ahead, limit, first);
      BatchIsLower(rows, ahead, limit, first);
      var picked := SetIsBatch(rows, pool, limit, Ids(first));
      assert id !in Ids(picked);
    }
  }

  /** What a batch leaves of its pool is no older than what it took. */
  lemma BatchIsLower(rows: Rows, pool: set<TaskId>, limit: nat, picked: seq<Task>)
    requires Keyed(rows) && pool <= rows.Keys && OldestOf(rows, pool, limit, picked)
    ensures forall x, y :: x in Ids(picked) && y in pool - Ids(picked) ==> rows[x].createdAt <= rows[y].createdAt
  {
    forall x, y | x in Ids(picked) && y in pool - Ids(picked) ensures rows[x].createdAt <= rows[y].createdAt {
      var t :| t in picked && t.id == x;
      assert rows[y] !in picked;
    }
  }

  /** A row is in no batch exactly when `limit` rows were created strictly before it: while they last, it starves. */
  lemma NeverPickedIff(rows: Rows, pool: set<TaskId>, limit: nat, id: TaskId)
    requires Keyed(rows) && pool <= rows.Keys && id in pool
    ensures (forall picked :: OldestOf(rows, pool, limit, picked) ==> rows[id] !in picked)
       <==> limit <= |Elder(rows, pool, id)|
  {
    var elder := Elder(rows, pool, id);
    if limit <= |elder| {
      forall picked | OldestOf(rows, pool, limit, picked) ensures rows[id] !in picked {
        if rows[id] in picked {
          ElderPicked(rows, pool, limit, picked, id);
        }
      }
    } else {
      var picked := BatchWith(rows, pool, limit, id);
    }
  }

  lemma ElderPicked(rows: Rows, pool: set<TaskId>, limit: nat, picked: seq<Task>, id: TaskId)
    requires Keyed(rows) && pool <= rows.Keys && OldestOf(rows, pool, limit, picked) && id in pool && rows[id] in picked
    ensures |Elder(rows, pool, id)| < limit
  {
    var elder := Elder(rows, pool, id);
    BatchSize(rows, pool, limit, picked);
    forall o | o in elder ensures o in Ids(picked) {
      assert rows[o] in picked;
    }
    SubsetSize(elder + {id}, Ids(picked));
  }

  /** A batch that holds row `id`: its elders, itself, and the oldest of the others. */
  lemma BatchWith(rows: Rows, pool: set<TaskId>, limit: nat, id: TaskId) returns (picked: seq<Task>)
    requires Keyed(rows) && pool <= rows.Keys && id in pool && |Elder(rows, pool, id)| < limit
    ensures OldestOf(rows, pool, limit, picked) && rows[id] in picked
  {
    var elder := Elder(rows, pool, id);
    var rest := pool - elder - {id};
    var others := BatchExists(rows, rest, limit - |elder| - 1);
    BatchSize(rows, rest, limit - |elder| - 1, others);
    BatchIsLower(rows, rest, limit - |elder| - 1, others);
    var chosen := ElderFirst(rows, pool, limit, id, Ids(others));
    picked := SetIsBatch(rows, pool, limit, chosen);
    NotPicked(rows, picked, id);
  }

  lemma ElderFirst(rows: Rows, pool: set<TaskId>, limit: nat, id: TaskId, others: set<TaskId>)
    returns (chosen: set<TaskId>)
    requires pool <= rows.Keys && id in pool && |Elder(rows, pool, id)| < limit
    requires var rest := pool - Elder(rows, pool, id) - {id};
             && others <= rest
             && |others| == (if limit - |Elder(rows, pool, id)| - 1 <= |rest| then limit - |Elder(rows, pool, id)| - 1
                             else |rest|)
             && forall x, y :: x in others && y in rest - others ==> rows[x].createdAt <= rows[y].createdAt
    ensures id in chosen && chosen <= pool && (|chosen| == limit || (|chosen| < limit && chosen == pool))
    ensures forall x, y :: x in chosen && y in pool - chosen ==> rows[x].createdAt <= rows[y].createdAt
  {
    var elder := Elder(rows, pool, id);
    var rest := pool - elder - {id};
    chosen := elder + {id} + others;
    assert |chosen| == |elder + {id}| + |others| == |elder| + 1 + |others|;
    if |chosen| < limit {
      SubsetSize(others, rest);
      assert chosen == pool;
    }
  }
}
