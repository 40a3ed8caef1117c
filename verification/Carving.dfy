/** Leak-safe splits of a row pool: train, validation, `K` sealed shards and gold.  A carve
    orders the pool and cuts it at three places, and the middle piece into shards; so the parts
    are a partition whatever the order was, and in time order when it was by time. */
module Carving {
  import opened Reals
  import opened Ranking
  import opened Wrappers

  type Row = int
  type Group = int

  // -------------------------------------------------------------------- sorting rows

  function KeyedBy(s: seq<Row>, key: Row -> real): (r: seq<Keyed<Row>>)
    ensures |r| == |s| && forall i {:trigger r[i]} :: 0 <= i < |s| ==> r[i] == Keyed(s[i], -key(s[i]))
  {
    seq(|s|, i requires 0 <= i < |s| => Keyed(s[i], -key(s[i])))
  }

  /** Stable ascending order by a key. */
  function SortBy(s: seq<Row>, key: Row -> real): seq<Row> {
    Items(SortDesc(KeyedBy(s, key)))
  }

  /** Ascending order. */
  function SortRows(s: seq<Row>): seq<Row> {
    SortBy(s, (x: Row) => x as real)
  }

  lemma ItemsPermute(s: seq<Keyed<Row>>, t: seq<Keyed<Row>>)
    requires multiset(s) == multiset(t)
    ensures multiset(Items(s)) == multiset(Items(t))
  {
    var item := (e: Keyed<Row>) => e.item;
    assert Items(s) == Map(item, s) && Items(t) == Map(item, t);
    MapPermutes(item, s, t);
  }

  /** Sorting loses no row, invents none, and puts the keys in ascending order. */
  lemma SortByOrders(s: seq<Row>, key: Row -> real)
    ensures multiset(SortBy(s, key)) == multiset(s)
    ensures |SortBy(s, key)| == |s|
    ensures forall i, j :: 0 <= i < j < |s| ==> key(SortBy(s, key)[i]) <= key(SortBy(s, key)[j])
  {
    var keyed := KeyedBy(s, key);
    SortPermutes(keyed);
    SortIsDesc(keyed);
    ItemsPermute(SortDesc(keyed), keyed);
    assert Items(keyed) == s;
    forall i | 0 <= i < |s| ensures SortDesc(keyed)[i].key == -key(SortBy(s, key)[i]) {
      var j := SortMember(keyed, i);
    }
  }

  // ------------------------------------------------------------------ consecutive slices

  function Flatten(parts: seq<seq<Row>>): seq<Row> {
    if parts == [] then [] else parts[0] + Flatten(parts[1..])
  }

  lemma Associate(a: seq<Row>, b: seq<Row>, c: seq<Row>)
    ensures (a + b) + c == a + (b + c)
  {}

  lemma {:induction false} FlattenAppend(a: seq<seq<Row>>, b: seq<seq<Row>>)
    ensures Flatten(a + b) == Flatten(a) + Flatten(b)
  {
    if a == [] {
      assert a + b == b;
    } else {
      FlattenAppend(a[1..], b);
      assert (a + b)[1..] == a[1..] + b;
      Associate(a[0], Flatten(a[1..]), Flatten(b));
    }
  }

  function SortAll(parts: seq<seq<Row>>): (r: seq<seq<Row>>)
    ensures |r| == |parts| && forall i {:trigger r[i]} :: 0 <= i < |parts| ==> r[i] == SortRows(parts[i])
  {
    seq(|parts|, i requires 0 <= i < |parts| => SortRows(parts[i]))
  }

  lemma {:induction false} SortAllKeepsRows(parts: seq<seq<Row>>)
    ensures multiset(Flatten(SortAll(parts))) == multiset(Flatten(parts))
  {
    if parts != [] {
      SortAllKeepsRows(parts[1..]);
      SortByOrders(parts[0], (x: Row) => x as real);
      assert SortAll(parts)[1..] == SortAll(parts[1..]);
    }
  }

  /** No row of a later part comes before a row of an earlier part. */
  ghost predicate Chained(parts: seq<seq<Row>>, time: Row -> real) {
    forall i, j, a, b :: 0 <= i < j < |parts| && a in parts[i] && b in parts[j] ==> time(a) <= time(b)
  }

  ghost predicate Ascending(s: seq<Row>, time: Row -> real) {
    forall i, j :: 0 <= i < j < |s| ==> time(s[i]) <= time(s[j])
  }

  lemma {:induction false} PartOfFlatten(parts: seq<seq<Row>>, j: nat, b: Row)
    requires j < |parts| && b in parts[j]
    ensures b in Flatten(parts)
  {
    if j > 0 { PartOfFlatten(parts[1..], j - 1, b); }
  }

  lemma AscendingSplit(a: seq<Row>, b: seq<Row>, time: Row -> real)
    requires Ascending(a + b, time)
    ensures Ascending(b, time)
    ensures forall x, y :: x in a && y in b ==> time(x) <= time(y)
  {
    forall i, j | 0 <= i < j < |b| ensures time(b[i]) <= time(b[j]) {
      assert b[i] == (a + b)[|a| + i] && b[j] == (a + b)[|a| + j];
    }
    forall x, y | x in a && y in b ensures time(x) <= time(y) {
      var i :| 0 <= i < |a| && a[i] == x;
      var j :| 0 <= j < |b| && b[j] == y;
      assert (a + b)[i] == x && (a + b)[|a| + j] == y;
    }
  }

  /** Consecutive slices of a sorted list are chained. */
  lemma {:induction false} SlicesAreChained(parts: seq<seq<Row>>, time: Row -> real)
    requires Ascending(Flatten(parts), time)
    ensures Chained(parts, time)
  {
    if parts != [] {
      AscendingSplit(parts[0], Flatten(parts[1..]), time);
      SlicesAreChained(parts[1..], time);
      forall i, j, a, b | 0 <= i < j < |parts| && a in parts[i] && b in parts[j] ensures time(a) <= time(b) {
        assert parts[j] == parts[1..][j - 1];
        if i == 0 {
          PartOfFlatten(parts[1..], j - 1, b);
        } else {
          assert parts[i] == parts[1..][i - 1];
        }
      }
    }
  }

  lemma SortedChained(parts: seq<seq<Row>>, time: Row -> real)
    requires Chained(parts, time)
    ensures Chained(SortAll(parts), time)
  {
    var sorted := SortAll(parts);
    forall i | 0 <= i < |parts| ensures forall a :: a in sorted[i] <==> a in parts[i] {
      SameRows(parts[i]);
    }
  }

  lemma SameRows(s: seq<Row>)
    ensures forall a :: a in SortRows(s) <==> a in s
  {
    SortByOrders(s, (x: Row) => x as real);
    forall a ensures a in SortRows(s) <==> a in s {
      assert a in multiset(SortRows(s)) <==> a in multiset(s);
    }
  }

  lemma {:induction false} InOnePart(parts: seq<seq<Row>>, i: nat, j: nat, x: Row)
    requires i < j < |parts| && x in parts[i] && x in parts[j]
    ensures multiset(Flatten(parts))[x] >= 2
  {
    if i == 0 {
      PartOfFlatten(parts[1..], j - 1, x);
      assert x in multiset(Flatten(parts[1..])) && x in multiset(parts[0]);
    } else {
      InOnePart(parts[1..], i - 1, j - 1, x);
    }
  }

  /** A partition of distinct rows: the parts are pairwise disjoint and cover the pool. */
  lemma PartsAreDisjoint(parts: seq<seq<Row>>, pool: seq<Row>)
    requires multiset(Flatten(parts)) == multiset(pool)
    requires forall x :: multiset(pool)[x] <= 1
    ensures forall i, j, x :: 0 <= i < j < |parts| && x in parts[i] ==> x !in parts[j]
    ensures forall x :: x in pool <==> exists i :: 0 <= i < |parts| && x in parts[i]
  {
    forall i, j, x | 0 <= i < j < |parts| && x in parts[i] ensures x !in parts[j] {
      if x in parts[j] { InOnePart(parts, i, j, x); }
    }
    forall x ensures x in pool <==> exists i :: 0 <= i < |parts| && x in parts[i] {
      assert x in multiset(pool) <==> x in multiset(Flatten(parts));
      if x in pool { SomePart(parts, x); }
      if i :| 0 <= i < |parts| && x in parts[i] { PartOfFlatten(parts, i, x); }
    }
  }

  lemma {:induction false} SomePart(parts: seq<seq<Row>>, x: Row)
    requires x in Flatten(parts)
    ensures exists i :: 0 <= i < |parts| && x in parts[i]
  {
    if x in parts[0] {
    } else {
      SomePart(parts[1..], x);
      var i :| 0 <= i < |parts[1..]| && x in parts[1..][i];
      assert x in parts[i + 1];
    }
  }

  /** The sealed rows in `k` consecutive chunks, the last taking what is left over. */
  function Chunk(sealed: seq<Row>, k: nat, s: nat): seq<Row>
    requires s < k
  {
    var per := |sealed| / k;
    ChunkStart(per, s, k, |sealed|);
    if s < k - 1 then sealed[s * per..(s + 1) * per] else sealed[s * per..]
  }

  function Chunks(sealed: seq<Row>, k: nat): (r: seq<seq<Row>>)
    ensures |r| == k
  {
    seq(k, s requires 0 <= s < k => Chunk(sealed, k, s))
  }

  lemma QuotientFits(n: nat, k: nat)
    requires k >= 1
    ensures (n / k) * k <= n
  {}

  lemma ChunkStart(per: nat, s: nat, k: nat, n: nat)
    requires s < k && per == n / k
    ensures 0 <= s * per <= (s + 1) * per <= n
  {
    QuotientFits(n, k);
    ChunkFits(per, s, k, n);
  }

  lemma ChunkFits(per: nat, s: nat, k: nat, n: nat)
    requires s < k && per * k <= n
    ensures 0 <= s * per <= (s + 1) * per <= n
  {
    assert (k - s - 1) * per >= 0;
    assert (s + 1) * per + (k - s - 1) * per == k * per;
  }

  lemma {:induction false} FirstChunks(sealed: seq<Row>, k: nat, s: nat, per: nat)
    requires s < k && per == |sealed| / k
    ensures 0 <= s * per <= |sealed| && Flatten(Chunks(sealed, k)[..s]) == sealed[..s * per]
  {
    ChunkStart(per, s, k, |sealed|);
    if s > 0 {
      FirstChunks(sealed, k, s - 1, per);
      ChunkStart(per, s - 1, k, |sealed|);
      OneMoreChunk(Chunks(sealed, k), s - 1);
      assert Chunk(sealed, k, s - 1) == sealed[(s - 1) * per..s * per];
    }
  }

  lemma OneMoreChunk(parts: seq<seq<Row>>, s: nat)
    requires s < |parts|
    ensures Flatten(parts[..s + 1]) == Flatten(parts[..s]) + parts[s]
  {
    assert parts[..s + 1] == parts[..s] + [parts[s]];
    FlattenAppend(parts[..s], [parts[s]]);
    assert Flatten([parts[s]]) == parts[s] + Flatten([parts[s]][1..]);
  }

  lemma ChunksCover(sealed: seq<Row>, k: nat)
    requires k >= 1
    ensures Flatten(Chunks(sealed, k)) == sealed
  {
    var per, parts := |sealed| / k, Chunks(sealed, k);
    FirstChunks(sealed, k, k - 1, per);
    OneMoreChunk(parts, k - 1);
    assert parts[..k] == parts;
  }

  // ------------------------------------------------------------------------- the cuts

  /** `int(share * n)`. */
  function Share(share: real, n: nat): (r: nat)
    requires 0.0 <= share <= 1.0
    ensures r as real <= share * n as real < r as real + 1.0
  {
    Mono(0.0, share, n as real);
    (share * n as real).Floor
  }

  function TrainSize(n: nat): nat { Share(0.42, n) }
  function ValSize(n: nat): nat { Share(0.17, n) }
  function GoldSize(n: nat): nat { Share(0.17, n) }

  lemma SizesFit(n: nat)
    ensures TrainSize(n) + ValSize(n) + GoldSize(n) <= n
  {}

  /** An ordered pool cut into train, validation, `k` shards and gold. */
  function Cuts(order: seq<Row>, k: nat): (parts: seq<seq<Row>>)
    ensures |parts| == k + 3
  {
    var n := |order|;
    SizesFit(n);
    CutsAt(order, k, TrainSize(n), TrainSize(n) + ValSize(n), n - GoldSize(n))
  }

  function CutsAt(order: seq<Row>, k: nat, a: nat, b: nat, c: nat): (parts: seq<seq<Row>>)
    requires a <= b <= c <= |order|
    ensures |parts| == k + 3
  {
    [order[..a]] + [order[a..b]] + Chunks(order[b..c], k) + [order[c..]]
  }

  lemma CutsAtCover(order: seq<Row>, k: nat, a: nat, b: nat, c: nat)
    requires k >= 1 && a <= b <= c <= |order|
    ensures Flatten(CutsAt(order, k, a, b, c)) == order
  {
    ChunksCover(order[b..c], k);
    FlattenPieces(order[..a], order[a..b], Chunks(order[b..c], k), order[c..]);
    FourSlices(order, a, b, c);
  }

  lemma CutsCover(order: seq<Row>, k: nat)
    requires k >= 1
    ensures Flatten(Cuts(order, k)) == order
  {
    var n := |order|;
    SizesFit(n);
    CutsAtCover(order, k, TrainSize(n), TrainSize(n) + ValSize(n), n - GoldSize(n));
  }

  lemma FourSlices(s: seq<Row>, a: nat, b: nat, c: nat)
    requires a <= b <= c <= |s|
    ensures s[..a] + s[a..b] + s[b..c] + s[c..] == s
  {}

  lemma FlattenPieces(train: seq<Row>, val: seq<Row>, shards: seq<seq<Row>>, gold: seq<Row>)
    ensures Flatten([train] + [val] + shards + [gold]) == train + val + Flatten(shards) + gold
  {
    FlattenAppend([train], [val]);
    FlattenAppend([train] + [val], shards);
    FlattenAppend([train] + [val] + shards, [gold]);
    FlattenOne(train);
    FlattenOne(val);
    FlattenOne(gold);
  }

  lemma FlattenOne(s: seq<Row>)
    ensures Flatten([s]) == s
  {
    assert [s][1..] == [];
    assert s + [] == s;
  }

  /** Cutting and sorting each part is a partition of the rows. */
  lemma CutsPartition(order: seq<Row>, k: nat)
    requires k >= 1
    ensures multiset(Flatten(SortAll(Cuts(order, k)))) == multiset(order)
  {
    CutsCover(order, k);
    SortAllKeepsRows(Cuts(order, k));
  }

  /** `rows` is `share` of `n`, rounded down. */
  predicate IsShare(share: real, n: nat, rows: nat) {
    rows as real <= share * n as real < rows as real + 1.0
  }

  /** How large the parts of `n` rows are: 0.42, 0.17 and 0.17 of the rows for train, validation
      and gold, and the rest in even shards. */
  ghost predicate CutSizes(n: nat, k: nat, parts: seq<seq<Row>>) {
    && k >= 1 && |parts| == k + 3
    && IsShare(0.42, n, |parts[0]|) && IsShare(0.17, n, |parts[1]|) && IsShare(0.17, n, |parts[k + 2]|)
    && EvenShards(k, parts, 2)
  }

  /** `k` shards of one size from position `i` on, the last taking what division leaves over:
      less than one row a shard. */
  ghost predicate EvenShards(k: nat, parts: seq<seq<Row>>, i: nat)
    requires k >= 1 && i + k <= |parts|
  {
    && (forall s :: i <= s < i + k - 1 ==> |parts[s]| == |parts[i]|)
    && |parts[i]| <= |parts[i + k - 1]| < |parts[i]| + k
  }

  lemma ChunkSizes(sealed: seq<Row>, k: nat, shards: seq<seq<Row>>)
    requires k >= 1 && shards == SortAll(Chunks(sealed, k))
    ensures EvenShards(k, shards, 0)
  {
    var per := |sealed| / k;
    forall s | 0 <= s < k ensures ShardSize(per, k, s, |shards[s]|) {
      OneChunkSize(sealed, k, s, per);
    }
    EvenSizes(k, shards, per);
  }

  predicate ShardSize(per: int, k: nat, s: nat, size: nat) {
    if s < k - 1 then size == per else per <= size < per + k
  }

  lemma EvenSizes(k: nat, shards: seq<seq<Row>>, per: int)
    requires k >= 1 && |shards| == k && forall s :: 0 <= s < k ==> ShardSize(per, k, s, |shards[s]|)
    ensures EvenShards(k, shards, 0)
  {
    assert ShardSize(per, k, 0, |shards[0]|);
  }

  lemma OneChunkSize(sealed: seq<Row>, k: nat, s: nat, per: int)
    requires s < k && per == |sealed| / k
    ensures ShardSize(per, k, s, |SortRows(Chunks(sealed, k)[s])|)
  {
    SortRowsSize(Chunks(sealed, k)[s]);
    ChunkStart(per, s, k, |sealed|);
    assert (s + 1) * per - s * per == per;
    LeftOver(|sealed|, k, per);
  }

  lemma LeftOver(n: nat, k: nat, per: nat)
    requires k >= 1 && per == n / k
    ensures per <= n - (k - 1) * per < per + k
  {
    assert n - k * per < k;
    assert (k - 1) * per + per == k * per;
    QuotientFits(n, k);
  }

  lemma SortRowsSize(rows: seq<Row>)
    ensures |SortRows(rows)| == |rows|
  {
    SortByOrders(rows, (r: Row) => r as real);
    assert |multiset(SortRows(rows))| == |multiset(rows)|;
  }

  lemma SortedCuts(order: seq<Row>, k: nat, a: nat, b: nat, c: nat)
    requires a <= b <= c <= |order|
    ensures SortAll(CutsAt(order, k, a, b, c))
         == [SortRows(order[..a])] + [SortRows(order[a..b])] + SortAll(Chunks(order[b..c], k)) + [SortRows(order[c..])]
  {}

  lemma SharesAre(n: nat)
    ensures IsShare(0.42, n, TrainSize(n)) && IsShare(0.17, n, ValSize(n)) && IsShare(0.17, n, GoldSize(n))
  {}

  lemma SizesOf(n: nat, parts: seq<seq<Row>>, train: seq<Row>, val: seq<Row>, shards: seq<seq<Row>>, gold: seq<Row>)
    requires |shards| >= 1 && EvenShards(|shards|, shards, 0) && parts == [train] + [val] + shards + [gold]
    requires IsShare(0.42, n, |train|) && IsShare(0.17, n, |val|) && IsShare(0.17, n, |gold|)
    ensures CutSizes(n, |shards|, parts)
  {
    assert forall s :: 2 <= s < 2 + |shards| ==> parts[s] == shards[s - 2];
  }

  lemma CutSizesAt(order: seq<Row>, k: nat, n: nat, parts: seq<seq<Row>>, t: nat, v: nat, g: nat)
    requires k >= 1 && t + v + g <= n == |order| && parts == SortAll(CutsAt(order, k, t, t + v, n - g))
    requires IsShare(0.42, n, t) && IsShare(0.17, n, v) && IsShare(0.17, n, g)
    ensures CutSizes(n, k, parts)
  {
    SortRowsSize(order[..t]);
    SortRowsSize(order[t..t + v]);
    SortRowsSize(order[n - g..]);
    SortedCuts(order, k, t, t + v, n - g);
    ChunkSizes(order[t + v..n - g], k, SortAll(Chunks(order[t + v..n - g], k)));
    SizesOf(n, parts, SortRows(order[..t]), SortRows(order[t..t + v]), SortAll(Chunks(order[t + v..n - g], k)), SortRows(order[n - g..]));
  }

  /** The sizes of the cut and sorted parts. */
  lemma CutSizesAre(order: seq<Row>, k: nat, n: nat, parts: seq<seq<Row>>)
    requires k >= 1 && n == |order| && parts == SortAll(Cuts(order, k))
    ensures CutSizes(n, k, parts)
  {
    SizesFit(n);
    SharesAre(n);
    CutSizesAt(order, k, n, parts, TrainSize(n), ValSize(n), GoldSize(n));
  }

  /** Cutting a pool in time order never puts a later row in an earlier part. */
  lemma CutsRespectTime(pool: seq<Row>, time: Row -> real, k: nat)
    requires k >= 1
    ensures Chained(SortAll(Cuts(SortBy(pool, time), k)), time)
  {
    var order := SortBy(pool, time);
    SortByOrders(pool, time);
    CutsCover(order, k);
    SlicesAreChained(Cuts(order, k), time);
    SortedChained(Cuts(order, k), time);
  }
}
