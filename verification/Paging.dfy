/** Walking the listing page by page (internal/repository/task_repository.go, `List`): when is every row seen once? */
module Paging {
  import opened Tasks
  import opened Repository

  /** A client walking the listing from the start: page after page, `limit` rows further each time. */
  ghost predicate Walk(rows: Rows, limit: nat, pages: seq<seq<Task>>) {
    forall i {:trigger Page(rows, limit, Span(limit, i), pages[i])} ::
      0 <= i < |pages| ==> Page(rows, limit, Span(limit, i), pages[i])
  }

  /** The first `n` pages, end to end. */
  function Flatten(pages: seq<seq<Task>>, n: nat): seq<Task>
    requires n <= |pages|
  {
    if n == 0 then [] else Flatten(pages, n - 1) + pages[n - 1]
  }

  /** The rows that `n` full pages hold. */
  function Span(limit: nat, n: nat): nat {
    if n == 0 then 0 else limit + Span(limit, n - 1)
  }

  /** A walk that goes on until the total is covered. */
  ghost predicate Covers(rows: Rows, limit: nat, pages: seq<seq<Task>>) {
    Walk(rows, limit, pages) && |rows| <= Span(limit, |pages|)
  }

  /** Every covering walk gives every live row exactly once, newest first. */
  ghost predicate PagesPartition(rows: Rows, limit: nat) {
    forall pages :: Covers(rows, limit, pages) ==> Listing(rows, Flatten(pages, |pages|))
  }

  /** The rows created at time `c` or later. */
  function Since(rows: Rows, c: Time): set<TaskId> {
    set id | id in rows && rows[id].createdAt >= c
  }

  /** Those created later than that. */
  function Newer(rows: Rows, c: Time): set<TaskId> {
    set id | id in rows && rows[id].createdAt > c
  }

  /** A page boundary after `p` rows falls between rows that were created at the same instant. */
  ghost predicate Straddled(rows: Rows, p: nat) {
    exists c: Time :: |Newer(rows, c)| < p < |Since(rows, c)|
  }

  ghost predicate BoundariesClear(rows: Rows, limit: nat) {
    forall m: nat :: !Straddled(rows, Span(limit, m))
  }

  ghost predicate DistinctTimes(rows: Rows) {
    forall a, b :: a in rows && b in rows && a != b ==> rows[a].createdAt != rows[b].createdAt
  }

  // ----- What all listings of a table have in common -----

  /** The rows created since `c` come first in every listing. */
  lemma SinceComesFirst(rows: Rows, order: seq<Task>, c: Time)
    requires Keyed(rows) && Listing(rows, order)
    ensures |Since(rows, c)| <= |order| && Ids(order[..|Since(rows, c)|]) == Since(rows, c)
    ensures forall i :: 0 <= i < |order| ==> (order[i].createdAt >= c <==> i < |Since(rows, c)|)
  {
    var q := Leading(order, c);
    assert forall t :: t in order[..q] ==> t in order;
    assert Ids(order[..q]) == Since(rows, c) by {
      forall id | id in Since(rows, c) ensures id in Ids(order[..q]) {
        assert rows[id] in order;
        var i :| 0 <= i < |order| && order[i] == rows[id];
        assert order[..q][i] == rows[id];
      }
    }
    IdCount(order[..q]);
  }

  lemma Leading(order: seq<Task>, c: Time) returns (q: nat)
    requires NewestFirst(order)
    ensures q <= |order| && forall i :: 0 <= i < |order| ==> (order[i].createdAt >= c <==> i < q)
  {
    q := 0;
    while q < |order| && order[q].createdAt >= c
      invariant q <= |order| && forall i :: 0 <= i < q ==> order[i].createdAt >= c
    {
      q := q + 1;
    }
  }

  /** With distinct creation times there is only one newest-first order. */
  lemma ListingUnique(rows: Rows, a: seq<Task>, b: seq<Task>)
    requires Keyed(rows) && DistinctTimes(rows) && Listing(rows, a) && Listing(rows, b)
    ensures a == b
  {
    ListingSize(rows, a);
    ListingSize(rows, b);
    forall i | 0 <= i < |a| ensures a[i] == b[i] {
      SinceComesFirst(rows, a, a[i].createdAt);
      SinceComesFirst(rows, b, a[i].createdAt);
      SinceComesFirst(rows, a, b[i].createdAt);
      SinceComesFirst(rows, b, b[i].createdAt);
      assert a[i].createdAt == b[i].createdAt;
      assert a[i] in a && b[i] in b;
    }
  }

  /** Up to a boundary that no tie straddles, all listings hold the same rows. */
  lemma SamePrefix(rows: Rows, a: seq<Task>, b: seq<Task>, p: nat)
    requires Keyed(rows) && Listing(rows, a) && Listing(rows, b) && p <= |a| && p <= |b| && !Straddled(rows, p)
    ensures Ids(a[..p]) == Ids(b[..p])
  {
    if p > 0 {
      var x, y := a[p - 1].createdAt, b[p - 1].createdAt;
      PrefixIsSince(rows, a, p);
      PrefixIsSince(rows, b, p);
      if x <= y {
        SubsetSize(Since(rows, y), Since(rows, x));
      } else {
        SubsetSize(Since(rows, x), Since(rows, y));
      }
    }
  }

  lemma PrefixIsSince(rows: Rows, order: seq<Task>, p: nat)
    requires Keyed(rows) && Listing(rows, order) && 0 < p <= |order| && !Straddled(rows, p)
    ensures |Since(rows, order[p - 1].createdAt)| == p && Ids(order[..p]) == Since(rows, order[p - 1].createdAt)
  {
    var c := order[p - 1].createdAt;
    SinceComesFirst(rows, order, c);
    SinceComesFirst(rows, order, c + 1);
    assert Newer(rows, c) == Since(rows, c + 1);
  }

  // ----- No tie on a boundary: the pages partition the table -----

  /** Two listings may be cut and joined at a boundary that no tie straddles. */
  lemma SpliceIsListing(rows: Rows, a: seq<Task>, b: seq<Task>, p: nat)
    requires Keyed(rows) && Listing(rows, a) && Listing(rows, b) && p <= |a| && !Straddled(rows, p)
    ensures p <= |b| && Listing(rows, a[..p] + b[p..])
  {
    ListingSize(rows, a);
    ListingSize(rows, b);
    SamePrefix(rows, a, b, p);
    SpliceDistinct(a, b, p);
    SpliceOrdered(rows, a, b, p);
    SpliceComplete(rows, a, b, p);
  }

  /** A row of a prefix, as another prefix with the same ids holds it. */
  lemma Counterpart(a: seq<Task>, b: seq<Task>, p: nat, i: nat) returns (k: nat)
    requires i < p <= |a| && p <= |b| && Ids(a[..p]) == Ids(b[..p])
    ensures k < p && b[k].id == a[i].id
  {
    assert a[..p][i] in a[..p];
    assert a[i].id in Ids(b[..p]);
    var u :| u in b[..p] && u.id == a[i].id;
    k :| 0 <= k < p && b[k] == u;
  }

  lemma SpliceDistinct(a: seq<Task>, b: seq<Task>, p: nat)
    requires p <= |a| && p <= |b| && DistinctIds(a) && DistinctIds(b) && Ids(a[..p]) == Ids(b[..p])
    ensures DistinctIds(a[..p] + b[p..])
  {
    var c := a[..p] + b[p..];
    forall i, j | 0 <= i < j < |c| ensures c[i].id != c[j].id {
      if i < p <= j {
        var k := Counterpart(a, b, p, i);
      }
    }
  }

  lemma SpliceOrdered(rows: Rows, a: seq<Task>, b: seq<Task>, p: nat)
    requires p <= |a| && p <= |b| && Listing(rows, a) && Listing(rows, b) && Ids(a[..p]) == Ids(b[..p])
    ensures NewestFirst(a[..p] + b[p..])
  {
    var c := a[..p] + b[p..];
    forall i, j | 0 <= i < j < |c| ensures c[j].createdAt <= c[i].createdAt {
      if i < p <= j {
        var k := Counterpart(a, b, p, i);
        assert a[i] in a && b[k] in b;
      }
    }
  }

  lemma SpliceComplete(rows: Rows, a: seq<Task>, b: seq<Task>, p: nat)
    requires Keyed(rows) && p <= |a| && p <= |b| && Listing(rows, a) && Listing(rows, b)
    requires Ids(a[..p]) == Ids(b[..p])
    ensures forall t :: t in a[..p] + b[p..] ==> t.id in rows && rows[t.id] == t
    ensures forall id :: id in rows ==> rows[id] in a[..p] + b[p..]
  {
    var c := a[..p] + b[p..];
    assert forall t :: t in c ==> t in a || t in b;
    forall id | id in rows ensures rows[id] in c {
      var j :| 0 <= j < |b| && b[j] == rows[id];
      if j < p {
        var k := Counterpart(b, a, p, j);
        assert a[k] in a && c[k] == rows[id];
      } else {
        assert c[j] == b[j];
      }
    }
  }

  /** The page at `p`, from whatever listing, continues a listing that starts like `order`. */
  lemma PageContinues(rows: Rows, limit: nat, p: nat, page: seq<Task>, order: seq<Task>) returns (next: seq<Task>)
    requires Keyed(rows) && Listing(rows, order) && Page(rows, limit, p, page) && !Straddled(rows, p)
    ensures Listing(rows, next) && Slice(next, p, 0) == Slice(order, p, 0) && Slice(next, limit, p) == page
  {
    var mine :| Listing(rows, mine) && page == Slice(mine, limit, p);
    ListingSize(rows, order);
    ListingSize(rows, mine);
    next := order;
    if p < |order| {
      SpliceIsListing(rows, order, mine, p);
      next := order[..p] + mine[p..];
      SpliceSlices(order, mine, p, limit);
    }
  }

  /** So the first `n` pages are the beginning of some listing. */
  lemma {:induction false} PagesJoin(rows: Rows, limit: nat, pages: seq<seq<Task>>, n: nat) returns (whole: seq<Task>)
    requires Keyed(rows) && Walk(rows, limit, pages) && BoundariesClear(rows, limit) && n <= |pages|
    ensures Listing(rows, whole) && Flatten(pages, n) == Slice(whole, Span(limit, n), 0)
  {
    if n == 0 {
      whole := SomeListing(rows);
    } else {
      var order := PagesJoin(rows, limit, pages, n - 1);
      whole := PageContinues(rows, limit, Span(limit, n - 1), pages[n - 1], order);
      SliceSplits(whole, Span(limit, n - 1), limit);
    }
  }

  lemma SpliceSlices(a: seq<Task>, b: seq<Task>, p: nat, limit: nat)
    requires p < |a| && |a| == |b|
    ensures var c := a[..p] + b[p..]; Slice(c, limit, p) == Slice(b, limit, p) && Slice(c, p, 0) == Slice(a, p, 0)
  {
    var c := a[..p] + b[p..];
    assert c[p..] == b[p..];
    assert c[..p] == a[..p];
    if p + limit < |a| {
      assert c[p..p + limit] == b[p..p + limit];
    }
  }

  lemma SliceSplits(order: seq<Task>, p: nat, limit: nat)
    ensures Slice(order, p, 0) + Slice(order, limit, p) == Slice(order, limit + p, 0)
  {
  }

  // ----- A tie on a boundary: some walk repeats a row -----

  lemma SomeListing(rows: Rows) returns (order: seq<Task>)
    requires Keyed(rows)
    ensures Listing(rows, order)
  {
    var oldest := BatchExists(rows, rows.Keys, |rows|);
    OldestIsListing(rows, oldest);
    order := Reversed(oldest);
  }

  /** Rows created at the same instant may change places in a listing. */
  lemma SwapTies(rows: Rows, a: seq<Task>, p: nat) returns (b: seq<Task>)
    requires Listing(rows, a) && 0 < p < |a| && a[p - 1].createdAt == a[p].createdAt
    ensures Listing(rows, b) && |b| == |a| && b[p] == a[p - 1]
  {
    b := a[p - 1 := a[p]][p := a[p - 1]];
    forall i | 0 <= i < |a| ensures b[i] == a[Swapped(p, i)] && a[i] == b[Swapped(p, i)] {
    }
    SwapLists(rows, a, b, p);
  }

  /** Where position `i` goes when `p - 1` and `p` change places. */
  function Swapped(p: nat, i: nat): nat
    requires 0 < p
  {
    if i == p then p - 1 else if i == p - 1 then p else i
  }

  lemma SwapLists(rows: Rows, a: seq<Task>, b: seq<Task>, p: nat)
    requires Listing(rows, a) && 0 < p < |a| == |b| && a[p - 1].createdAt == a[p].createdAt
    requires forall i :: 0 <= i < |a| ==> b[i] == a[Swapped(p, i)] && a[i] == b[Swapped(p, i)]
    ensures Listing(rows, b)
  {
    SwapKeepsOrder(a, b, p);
    forall t | t in b ensures t in a {
      var i :| 0 <= i < |b| && b[i] == t;
      assert a[Swapped(p, i)] == t;
    }
    forall id | id in rows ensures rows[id] in b {
      var i :| 0 <= i < |a| && a[i] == rows[id];
      assert b[Swapped(p, i)] == rows[id];
    }
  }

  lemma SwapKeepsOrder(a: seq<Task>, b: seq<Task>, p: nat)
    requires DistinctIds(a) && NewestFirst(a) && 0 < p < |a| == |b| && a[p - 1].createdAt == a[p].createdAt
    requires forall i :: 0 <= i < |a| ==> b[i] == a[Swapped(p, i)]
    ensures DistinctIds(b) && NewestFirst(b)
  {
    forall i, j | 0 <= i < j < |b| ensures b[i].id != b[j].id && b[j].createdAt <= b[i].createdAt {
      assert b[i] == a[Swapped(p, i)] && b[j] == a[Swapped(p, j)];
    }
  }

  /** Pages 0 to n - 1: those before page `m` from `a`, the others from `b`. */
  ghost predicate Mixed(pages: seq<seq<Task>>, a: seq<Task>, b: seq<Task>, limit: nat, m: nat) {
    forall i :: 0 <= i < |pages| ==> pages[i] == Slice(if i < m then a else b, limit, Span(limit, i))
  }

  lemma {:induction false} MixedStart(pages: seq<seq<Task>>, a: seq<Task>, b: seq<Task>, limit: nat, m: nat, k: nat)
    requires Mixed(pages, a, b, limit, m) && k <= m && k <= |pages|
    ensures Flatten(pages, k) == Slice(a, Span(limit, k), 0)
  {
    if k > 0 {
      MixedStart(pages, a, b, limit, m, k - 1);
      SliceSplits(a, Span(limit, k - 1), limit);
    }
  }

  lemma {:induction false} FlattenPrefix(pages: seq<seq<Task>>, k: nat, n: nat)
    requires k <= n <= |pages|
    ensures Flatten(pages, k) <= Flatten(pages, n)
  {
    if k < n {
      FlattenPrefix(pages, k, n - 1);
    }
  }

  /** Two listings that disagree around a straddled boundary. */
  lemma TwoListings(rows: Rows, p: nat) returns (a: seq<Task>, b: seq<Task>)
    requires Keyed(rows) && Straddled(rows, p)
    ensures Listing(rows, a) && Listing(rows, b) && |a| == |b| == |rows| && 0 < p < |a| && b[p] == a[p - 1]
  {
    var c: Time :| |Newer(rows, c)| < p < |Since(rows, c)|;
    a := SomeListing(rows);
    SinceComesFirst(rows, a, c);
    SinceComesFirst(rows, a, c + 1);
    assert Newer(rows, c) == Since(rows, c + 1);
    ListingSize(rows, a);
    b := SwapTies(rows, a, p);
  }

  /** The first page from `b` starts with the row that the last page from `a` ended with. */
  lemma MixedRepeats(pages: seq<seq<Task>>, a: seq<Task>, b: seq<Task>, limit: nat, m: nat)
    requires Mixed(pages, a, b, limit, m) && m < |pages| && 0 < limit
    requires 0 < Span(limit, m) < |a| == |b| && b[Span(limit, m)] == a[Span(limit, m) - 1]
    ensures !DistinctIds(Flatten(pages, m + 1))
  {
    MixedStart(pages, a, b, limit, m, m);
    JoinRepeats(a, b, Span(limit, m), limit);
  }

  lemma JoinRepeats(a: seq<Task>, b: seq<Task>, p: nat, limit: nat)
    requires 0 < p < |a| == |b| && 0 < limit && b[p] == a[p - 1]
    ensures !DistinctIds(Slice(a, p, 0) + Slice(b, limit, p))
  {
    var f := Slice(a, p, 0) + Slice(b, limit, p);
    assert f[p - 1] == a[p - 1] && f[p] == b[p];
  }

  lemma {:induction false} MixedPages(a: seq<Task>, b: seq<Task>, limit: nat, m: nat, n: nat)
    returns (pages: seq<seq<Task>>)
    ensures |pages| == n && Mixed(pages, a, b, limit, m)
    decreases n
  {
    pages := [];
    if n > 0 {
      pages := MixedPages(a, b, limit, m, n - 1);
      pages := pages + [Slice(if n - 1 < m then a else b, limit, Span(limit, n - 1))];
    }
  }

  lemma MixedWalks(rows: Rows, pages: seq<seq<Task>>, a: seq<Task>, b: seq<Task>, limit: nat, m: nat)
    requires Listing(rows, a) && Listing(rows, b) && Mixed(pages, a, b, limit, m)
    ensures Walk(rows, limit, pages)
  {
    forall i | 0 <= i < |pages| ensures Page(rows, limit, Span(limit, i), pages[i]) {
      IsPage(rows, if i < m then a else b, limit, Span(limit, i));
    }
  }

  lemma IsPage(rows: Rows, order: seq<Task>, limit: nat, offset: nat)
    requires Listing(rows, order)
    ensures Page(rows, limit, offset, Slice(order, limit, offset))
  {
  }

  lemma RepeatedPages(a: seq<Task>, b: seq<Task>, limit: nat, m: nat) returns (pages: seq<seq<Task>>)
    requires 0 < limit && 0 < Span(limit, m) < |a| == |b| && b[Span(limit, m)] == a[Span(limit, m) - 1]
    ensures |pages| == m + |a| && Mixed(pages, a, b, limit, m) && !DistinctIds(Flatten(pages, |pages|))
  {
    pages := MixedPages(a, b, limit, m, m + |a|);
    MixedRepeats(pages, a, b, limit, m);
    var start, whole := Flatten(pages, m + 1), Flatten(pages, |pages|);
    FlattenPrefix(pages, m + 1, |pages|);
    assert start <= whole && !DistinctIds(start);
    Repeats(start, whole);
  }

  lemma StraddledPagesRepeat(rows: Rows, limit: nat, m: nat) returns (pages: seq<seq<Task>>)
    requires Keyed(rows) && 0 < limit && Straddled(rows, Span(limit, m))
    ensures Covers(rows, limit, pages) && !DistinctIds(Flatten(pages, |pages|))
  {
    var a, b := TwoListings(rows, Span(limit, m));
    pages := RepeatedPages(a, b, limit, m);
    MixedWalks(rows, pages, a, b, limit, m);
    PagesReach(limit, |pages|);
    assert |rows| <= Span(limit, |pages|);
  }

  lemma Repeats(a: seq<Task>, b: seq<Task>)
    requires a <= b && !DistinctIds(a)
    ensures !DistinctIds(b)
  {
    var i, j :| 0 <= i < j < |a| && a[i].id == a[j].id;
    assert b[i] == a[i] && b[j] == a[j];
  }

  lemma PagesReach(limit: nat, n: nat)
    requires 0 < limit
    ensures n <= Span(limit, n)
  {
  }

  // ----- The exact conditions -----

  /** Paging with `limit` partitions the table, whatever the database answers, iff no tie straddles a page boundary. */
  lemma PartitionIff(rows: Rows, limit: nat)
    requires Keyed(rows) && 0 < limit
    ensures PagesPartition(rows, limit) <==> BoundariesClear(rows, limit)
  {
    if !BoundariesClear(rows, limit) {
      var m: nat :| Straddled(rows, Span(limit, m));
      var pages := StraddledPagesRepeat(rows, limit, m);
      assert !Listing(rows, Flatten(pages, |pages|));
      assert !PagesPartition(rows, limit);
    } else {
      forall pages | Covers(rows, limit, pages) ensures Listing(rows, Flatten(pages, |pages|)) {
        CoverIsListing(rows, limit, pages);
      }
    }
  }

  lemma CoverIsListing(rows: Rows, limit: nat, pages: seq<seq<Task>>)
    requires Keyed(rows) && Covers(rows, limit, pages) && BoundariesClear(rows, limit)
    ensures Listing(rows, Flatten(pages, |pages|))
  {
    var whole := PagesJoin(rows, limit, pages, |pages|);
    ListingSize(rows, whole);
  }

  /** It does so for every page size iff all creation times are distinct. */
  lemma AlwaysPartitionIff(rows: Rows)
    requires Keyed(rows)
    ensures (forall limit: nat :: 0 < limit ==> PagesPartition(rows, limit)) <==> DistinctTimes(rows)
  {
    if DistinctTimes(rows) {
      forall limit: nat | 0 < limit ensures PagesPartition(rows, limit) {
        NoTies(rows);
        PartitionIff(rows, limit);
      }
    } else {
      var p := TieStraddles(rows);
      SpanOne(p);
      PartitionIff(rows, 1);
      assert !PagesPartition(rows, 1);
    }
  }

  lemma SpanOne(n: nat)
    ensures Span(1, n) == n
  {
  }

  lemma NoTies(rows: Rows)
    requires Keyed(rows) && DistinctTimes(rows)
    ensures forall p: nat :: !Straddled(rows, p)
  {
    forall c: Time ensures |Since(rows, c)| <= |Newer(rows, c)| + 1 {
      var newer, since := Newer(rows, c), Since(rows, c);
      if x :| x in since && x !in newer {
        assert since == newer + {x};
      } else {
        assert since == newer;
      }
    }
  }

  lemma TieStraddles(rows: Rows) returns (p: nat)
    requires Keyed(rows) && !DistinctTimes(rows)
    ensures Straddled(rows, p)
  {
    var a, b :| a in rows && b in rows && a != b && rows[a].createdAt == rows[b].createdAt;
    var c := rows[a].createdAt;
    var newer, since := Newer(rows, c), Since(rows, c);
    SubsetSize(newer + {a, b}, since);
    assert |newer + {a, b}| == |newer| + 2;
    p := |newer| + 1;
  }
}
