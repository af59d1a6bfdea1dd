/**
 * The rate limiter (internal/transport/http/middleware.go) over its Redis counter (cmd/api/main.go). Every request
 * renews the expiry of the counter, so it is no fixed window: the count falls back only after a full window of
 * silence.
 */
module RateLimiting {
  import opened Tasks

  type Positive = n: nat | 0 < n witness 1

  datatype Entry = Entry(count: Positive, expiresAt: Time)

  /** The counter of `key` is there: an entry is gone from its expiry on. */
  predicate Live(entries: map<string, Entry>, key: string, now: Time) {
    key in entries && now < entries[key].expiresAt
  }

  /** What the limiter answers, headers included; a request is let through unchecked when Redis is unreachable. */
  datatype Verdict =
    | Unchecked
    | Admitted(limit: nat, remaining: nat)
    | Denied(limit: nat, remaining: nat, retryAfterSeconds: int)

  /** Whole seconds, truncated towards zero. */
  function Seconds(d: Time): int {
    if d >= 0 then d / SECOND else -(-d / SECOND)
  }

  class RateLimiter {
    const limit: nat
    const window: Time
    var entries: map<string, Entry>
    // The times of the counted requests of each key.
    ghost var seen: map<string, seq<Time>>

    ghost predicate Valid()
      reads this
    {
      && entries.Keys == seen.Keys
      && forall key :: key in seen ==> Counts(entries[key], seen[key], window)
    }

    constructor (limit: nat, window: Time)
      ensures Valid() && this.limit == limit && this.window == window && seen == map[]
    {
      this.limit, this.window := limit, window;
      entries, seen := map[], map[];
    }

    /**
     * INCR and EXPIRE in one transaction: counts on while the counter is there, and starts its window anew each time.
     */
    method Increment(key: string, now: Time, reply: Reply) returns (count: Option<Positive>)
      modifies this`entries
      ensures count.None? <==> reply.Err?
      ensures reply.Err? ==> entries == old(entries)
      ensures forall k :: k != key ==>
                (k in entries <==> k in old(entries)) && (k in entries ==> entries[k] == old(entries)[k])
      ensures count.Some? ==>
                key in entries && entries[key].count == count.value && entries[key].expiresAt - now == window
      ensures count.Some? ==> (count.value == 1 <==> !Live(old(entries), key, now))
      ensures count.Some? && Live(old(entries), key, now) ==> count.value - old(entries)[key].count == 1
    {
      if reply.Err? {
        return None;
      }
      var n: Positive := if Live(entries, key, now) then entries[key].count + 1 else 1;
      entries := entries[key := Entry(n, now + window)];
      count := Some(n);
    }

    method Handle(ip: string, now: Time, reply: Reply) returns (v: Verdict)
      requires Valid()
      modifies this
      ensures Valid()
      ensures reply.Err? ==> v.Unchecked? && seen == old(seen) && entries == old(entries)
      ensures reply.Ok? ==>
                var key := "ratelimit:" + ip;
                var ts := (if key in old(seen) then old(seen)[key] else []) + [now];
                && seen == old(seen)[key := ts]
                && (v.Admitted? <==> Admits(ts, window, limit, |ts| - 1))
                && (v.Admitted? ==> v.limit == limit && v.remaining == limit - Count(ts, window))
                && (!v.Admitted? ==> v.Denied? && v.limit == limit && v.remaining == 0)
      ensures v.Denied? && 0 <= window ==>
                v.retryAfterSeconds * 1_000_000_000 <= window < (v.retryAfterSeconds + 1) * 1_000_000_000
      ensures v.Denied? && window < 0 ==>
                (v.retryAfterSeconds - 1) * 1_000_000_000 < window <= v.retryAfterSeconds * 1_000_000_000
    {
      var key := "ratelimit:" + ip;
      var count := Increment(key, now, reply);
      if count.None? {
        return Unchecked;
      }
      ghost var before := if key in seen then seen[key] else [];
      assert Live(old(entries), key, now) ==> key in seen;
      CountsOn(if key in old(entries) then Some(old(entries)[key]) else None, before, now, window, entries[key]);
      OneMoreRequest(before, now, window, limit);
      seen := seen[key := before + [now]];
      assert entries.Keys == seen.Keys && Valid();
      var remaining := if limit < count.value then 0 else limit - count.value;
      if count.value > limit {
        return Denied(limit, remaining, Seconds(window));
      }
      v := Admitted(limit, remaining);
    }
  }

  // ----- Traces of one key -----

  /** The counter of a key whose requests came at times `ts`. */
  predicate Counts(e: Entry, ts: seq<Time>, window: Time) {
    ts != [] && e == Entry(Count(ts, window), ts[|ts| - 1] + window)
  }

  /** Counting on from the counter before, or from one when it is gone, keeps the books. */
  lemma CountsOn(before: Option<Entry>, ts: seq<Time>, now: Time, window: Time, e: Entry)
    requires if before.Some? then Counts(before.value, ts, window) else ts == []
    requires e.expiresAt == now + window
    requires if before.Some? && now < before.value.expiresAt then e.count == before.value.count + 1 else e.count == 1
    ensures Counts(e, ts + [now], window)
  {
    OneMoreRequest(ts, now, window, 0);
  }

  /** The counter after requests at times `ts`. */
  function Count(ts: seq<Time>, window: Time): Positive
    requires ts != []
  {
    var n := |ts| - 1;
    if n > 0 && ts[n] - ts[n - 1] < window then Count(ts[..n], window) + 1 else 1
  }

  /** Request `k` of the trace is let through. */
  predicate Admits(ts: seq<Time>, window: Time, limit: nat, k: nat)
    requires k < |ts|
  {
    Count(ts[..k + 1], window) <= limit
  }

  /** One more request: the count goes on within a window of the last one, and decides whether it is let through. */
  lemma OneMoreRequest(ts: seq<Time>, now: Time, window: Time, limit: nat)
    ensures Count(ts + [now], window)
         == if ts != [] && now - ts[|ts| - 1] < window then Count(ts, window) + 1 else 1
    ensures Admits(ts + [now], window, limit, |ts|) <==> Count(ts + [now], window) <= limit
  {
    assert (ts + [now])[..|ts|] == ts;
    assert (ts + [now])[..|ts| + 1] == ts + [now];
  }

  ghost predicate Nondecreasing(ts: seq<Time>) {
    forall i, j :: 0 <= i <= j < |ts| ==> ts[i] <= ts[j]
  }

  /** No silence of a full window between requests `i` and `j`. */
  ghost predicate Chained(ts: seq<Time>, window: Time, i: nat, j: nat)
    requires j < |ts|
  {
    forall m :: i < m <= j ==> ts[m] - ts[m - 1] < window
  }

  /** Through a chain the counter only climbs. */
  lemma {:induction false} Climbs(ts: seq<Time>, window: Time, i: nat, j: nat)
    requires i <= j < |ts| && Chained(ts, window, i, j)
    ensures Count(ts[..j + 1], window) == Count(ts[..i + 1], window) + (j - i)
    decreases j
  {
    if i < j {
      Climbs(ts, window, i, j - 1);
      assert ts[..j + 1][..j] == ts[..j];
      assert ts[j] - ts[j - 1] < window;
    }
  }

  /**
   * Exactly when a request is admitted: at most `limit` requests since the last full window of silence, itself
   * included.
   */
  lemma AdmittedIff(ts: seq<Time>, window: Time, limit: nat, start: nat, k: nat)
    requires start <= k < |ts| && Chained(ts, window, start, k)
    requires start == 0 || ts[start] - ts[start - 1] >= window
    ensures Count(ts[..k + 1], window) == k - start + 1
    ensures Admits(ts, window, limit, k) <==> k - start + 1 <= limit
  {
    Climbs(ts, window, start, k);
    assert Count(ts[..start + 1], window) == 1;
  }

  /** After a denial, the next request is admitted if and only if a full window passed in silence. */
  lemma DeniedUntilSilence(ts: seq<Time>, window: Time, limit: nat, k: nat)
    requires 0 < limit && k + 1 < |ts| && !Admits(ts, window, limit, k)
    ensures Admits(ts, window, limit, k + 1) <==> ts[k + 1] - ts[k] >= window
  {
    assert ts[..k + 2][..k + 1] == ts[..k + 1];
  }

  /**
   * The Retry-After header is good: who is denied, waits a second longer than it says, and is alone in using the key,
   * is admitted.
   */
  lemma WaitsAndPasses(ts: seq<Time>, window: Time, limit: nat, k: nat, retryAfterSeconds: int)
    requires 0 < limit && 0 <= window && k + 1 < |ts| && !Admits(ts, window, limit, k)
    requires window < (retryAfterSeconds + 1) * 1_000_000_000
    requires ts[k + 1] - ts[k] >= (retryAfterSeconds + 1) * 1_000_000_000
    ensures Admits(ts, window, limit, k + 1)
  {
    DeniedUntilSilence(ts, window, limit, k);
  }

  /** And any later admission has a full window of silence before it. */
  lemma AdmissionNeedsSilence(ts: seq<Time>, window: Time, limit: nat, i: nat, j: nat)
    requires i < j < |ts| && !Admits(ts, window, limit, i) && Admits(ts, window, limit, j)
    ensures exists m :: i < m <= j && ts[m] - ts[m - 1] >= window
  {
    if Chained(ts, window, i, j) {
      Climbs(ts, window, i, j);
    }
  }

  /** Sliding bound: a half-open window, wherever it starts, contains at most `limit` admitted requests. */
  lemma SlidingBound(ts: seq<Time>, window: Time, limit: nat, a: Time)
    requires Nondecreasing(ts)
    ensures |set k: nat | k < |ts| && a <= ts[k] < a + window && Admits(ts, window, limit, k)| <= limit
  {
    var lo := FirstFrom(ts, a);
    var admitted := set k: nat | k < |ts| && a <= ts[k] < a + window && Admits(ts, window, limit, k);
    forall k | k in admitted ensures lo <= k < lo + limit {
      forall m | lo < m <= k ensures ts[m] - ts[m - 1] < window {
        assert ts[lo] <= ts[m - 1] && ts[m] <= ts[k];
      }
      Climbs(ts, window, lo, k);
    }
    WithinRange(admitted, lo, limit);
  }

  lemma FirstFrom(ts: seq<Time>, a: Time) returns (lo: nat)
    ensures lo <= |ts| && (forall k :: 0 <= k < lo ==> ts[k] < a) && (lo < |ts| ==> a <= ts[lo])
  {
    lo := 0;
    while lo < |ts| && ts[lo] < a
      invariant lo <= |ts| && forall k :: 0 <= k < lo ==> ts[k] < a
    {
      lo := lo + 1;
    }
  }

  lemma {:induction false} WithinRange(s: set<nat>, lo: nat, n: nat)
    requires forall k :: k in s ==> lo <= k < lo + n
    ensures |s| <= n
    decreases n
  {
    if n == 0 {
      assert s == {};
    } else {
      var last := lo + n - 1;
      WithinRange(s - {last}, lo, n - 1);
      assert |s| <= |s - {last}| + 1;
    }
  }

  /**
   * The fixed window that the comments promise is not what runs: some traffic puts at most two requests into any window
   * and is still denied.
   */
  lemma SparseTrafficDenied(limit: nat, window: Time) returns (ts: seq<Time>)
    requires 2 <= window
    ensures |ts| == limit + 1 && Nondecreasing(ts)
    ensures forall k :: 0 <= k && k + 2 < |ts| ==> ts[k + 2] - ts[k] >= window
    ensures !Admits(ts, window, limit, limit)
  {
    ts := [0];
    while |ts| <= limit
      invariant 1 <= |ts| <= limit + 1 && Nondecreasing(ts)
      invariant forall m :: 0 < m < |ts| ==> ts[m] - ts[m - 1] == window - 1
    {
      ts := ts + [ts[|ts| - 1] + window - 1];
    }
    forall k | 0 <= k && k + 2 < |ts| ensures ts[k + 2] - ts[k] >= window {
      assert ts[k + 2] - ts[k + 1] == window - 1 && ts[k + 1] - ts[k] == window - 1;
    }
    Climbs(ts, window, 0, limit);
  }
}
