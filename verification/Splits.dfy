/** The three carves of a row pool into train, validation, `K` sealed shards and gold. */
module Splits {
  import opened Reals
  import opened Wrappers
  import opened Carving
  import opened Grouping

  /** Row targets: 0.42, 0.17 and 0.17 of the pool, and the rest spread over the shards. */
  function Targets(n: nat, k: nat): (t: seq<real>)
    requires k >= 1
    ensures |t| == 3 + k
  {
    [0.42 * n as real, 0.17 * n as real, 0.17 * n as real] + Copies(0.24 * n as real / k as real, k)
  }

  /** The targets are never negative and add up to the pool. */
  lemma TargetsAddUp(n: nat, k: nat)
    requires k >= 1
    ensures Sum(Targets(n, k)) == n as real
    ensures forall j :: 0 <= j < |Targets(n, k)| ==> Targets(n, k)[j] >= 0.0
  {
    var x := n as real;
    var share := 0.24 * x / k as real;
    Quotient(0.24 * x, k as real);
    SumCopies(share, k);
    SumAppend([0.42 * x, 0.17 * x, 0.17 * x], Copies(share, k));
    SumThree(0.42 * x, 0.17 * x, 0.17 * x);
  }

  lemma SumThree(a: real, b: real, c: real)
    ensures Sum([a, b, c]) == a + b + c
  {
    assert [a, b, c][1..] == [b, c] && [b, c][1..] == [c] && [c][1..] == [];
    assert Sum([c]) == c;
    assert Sum([b, c]) == b + c;
  }

  /** The rows of each bucket, sorted. */
  function Selected(pool: seq<Row>, g: GroupOf, buckets: seq<seq<Group>>): (parts: seq<seq<Row>>)
    ensures |parts| == |buckets|
    ensures forall j {:trigger parts[j]} :: 0 <= j < |buckets| ==> parts[j] == SortRows(RowsOf(pool, g, buckets[j]))
  {
    seq(|buckets|, j requires 0 <= j < |buckets| => SortRows(RowsOf(pool, g, buckets[j])))
  }

  /** Whole groups: every row, with its multiplicity, is in the one part that has its
      group. */
  lemma GroupsStayWhole(pool: seq<Row>, g: GroupOf, buckets: seq<seq<Group>>, j: nat, x: Row)
    requires j < |buckets|
    ensures multiset(Selected(pool, g, buckets)[j])[x] == (if g(x) in buckets[j] then multiset(pool)[x] else 0)
  {
    SortByOrders(RowsOf(pool, g, buckets[j]), (r: Row) => r as real);
    RowsOfMembers(pool, g, buckets[j], x);
  }

  lemma DistinctOnce(us: seq<Group>)
    requires Distinct(us)
    ensures forall u :: multiset(us)[u] <= 1
  {
    forall u ensures multiset(us)[u] <= 1 {
      if multiset(us)[u] >= 2 { Twice(us, u); }
    }
  }

  lemma {:induction false} Twice(us: seq<Group>, u: Group)
    requires multiset(us)[u] >= 2
    ensures exists i, j :: 0 <= i < j < |us| && us[i] == us[j]
  {
    assert us == [us[0]] + us[1..];
    if us[0] == u {
      assert u in multiset(us[1..]);
      var j :| 0 <= j < |us[1..]| && us[1..][j] == u;
      assert us[0] == us[j + 1];
    } else {
      Twice(us[1..], u);
      var i, j :| 0 <= i < j < |us[1..]| && us[1..][i] == us[1..][j];
      assert us[i + 1] == us[j + 1];
    }
  }

  /** What the grouped carve delivers: every group in exactly one bucket, no bucket without
      rows, and with groups of at most `m` rows every part within its bounds and, once it holds
      a second group, not ahead of any other part by more than `m`. */
  ghost predicate GroupedCarve(pool: seq<Row>, g: GroupOf, uniq: seq<Group>, targets: seq<real>, m: nat, total: real,
                               buckets: seq<seq<Group>>, parts: seq<seq<Row>>)
  {
    && |buckets| == |targets| && parts == Selected(pool, g, buckets)
    && (forall u :: u in uniq <==> exists j :: 0 <= j < |buckets| && u in buckets[j])
    && (forall i, j, u :: 0 <= i < j < |buckets| && u in buckets[i] ==> u !in buckets[j])
    && (forall j :: 0 <= j < |parts| ==> parts[j] != [])
    && (forall j :: 0 <= j < |parts| ==> Bounded(targets[j], |parts[j]|, total, m))
    && Balanced(buckets, targets, Sizes(parts), m)
  }

  function Sizes(parts: seq<seq<Row>>): (s: seq<real>)
    ensures |s| == |parts| && forall j :: 0 <= j < |parts| ==> s[j] == |parts[j]| as real
  {
    seq(|parts|, j requires 0 <= j < |parts| => |parts[j]| as real)
  }

  /** At most `m` above the target and, with `total == nb m`, at most `(nb - 1) m` below. */
  predicate Bounded(target: real, rows: nat, total: real, m: nat) {
    rows as real <= target + m as real && target - (total - m as real) <= rows as real
  }

  lemma PackedIsCarved(pool: seq<Row>, g: GroupOf, uniq: seq<Group>, targets: seq<real>, m: nat, total: real,
                       buckets: seq<seq<Group>>, filled: seq<real>)
    requires Lists(uniq, pool, g) && Sum(targets) == |pool| as real && total == |targets| as real * m as real
    requires Packed(pool, g, uniq, targets, buckets, filled, m)
    requires |buckets| <= |uniq| && forall j :: 0 <= j < |buckets| ==> Leads(uniq, buckets, j)
    requires Balanced(buckets, targets, filled, m)
    ensures GroupedCarve(pool, g, uniq, targets, m, total, buckets, Selected(pool, g, buckets))
  {
    DistinctOnce(uniq);
    PartsAreDisjoint(buckets, uniq);
    var parts := Selected(pool, g, buckets);
    forall j | 0 <= j < |parts|
      ensures parts[j] != [] && Bounded(targets[j], |parts[j]|, total, m) && filled[j] == |parts[j]| as real
    {
      assert Leads(uniq, buckets, j);
      OneBucket(pool, g, uniq, targets, m, buckets, filled, j, total);
    }
    assert Sizes(parts) == filled;
  }

  lemma {:induction false} BucketIsDistinct(buckets: seq<seq<Group>>, j: nat)
    requires j < |buckets| && forall u :: multiset(Flatten(buckets))[u] <= 1
    ensures Distinct(buckets[j])
  {
    forall u ensures multiset(buckets[0])[u] <= 1 && multiset(Flatten(buckets[1..]))[u] <= 1 {
      assert multiset(Flatten(buckets))[u] <= 1;
      assert multiset(Flatten(buckets))[u] == multiset(buckets[0])[u] + multiset(Flatten(buckets[1..]))[u];
    }
    if j == 0 {
      OnceMeansDistinct(buckets[0]);
    } else {
      BucketIsDistinct(buckets[1..], j - 1);
    }
  }

  lemma OnceMeansDistinct(us: seq<Group>)
    requires forall u :: multiset(us)[u] <= 1
    ensures Distinct(us)
  {
    forall i, j | 0 <= i < j < |us| ensures us[i] != us[j] {
      var front, back := us[..j], us[j..];
      assert us == front + back && multiset(us) == multiset(front) + multiset(back);
      assert front[i] == us[i] && us[i] in multiset(front);
      assert back[0] == us[j] && us[j] in multiset(back);
      assert multiset(us)[us[j]] == multiset(front)[us[j]] + multiset(back)[us[j]];
    }
  }

  lemma OneBucket(pool: seq<Row>, g: GroupOf, uniq: seq<Group>, targets: seq<real>, m: nat,
                  buckets: seq<seq<Group>>, filled: seq<real>, j: nat, total: real)
    requires Lists(uniq, pool, g) && j < |targets| && Sum(targets) == |pool| as real
    requires Packed(pool, g, uniq, targets, buckets, filled, m)
    requires buckets[j] != [] && total == |targets| as real * m as real
    ensures var rows := |SortRows(RowsOf(pool, g, buckets[j]))|;
      rows > 0 && Bounded(targets[j], rows, total, m) && filled[j] == rows as real
  {
    DistinctOnce(uniq);
    BucketIsDistinct(buckets, j);
    LoadIsRows(pool, g, buckets[j]);
    SortByOrders(RowsOf(pool, g, buckets[j]), (r: Row) => r as real);
    AllGroups(pool, g, uniq);
    PackedBounds(pool, g, uniq, targets, buckets, filled, m, total, j);
    BucketHasRows(pool, g, uniq, buckets, j);
  }

  lemma BucketHasRows(pool: seq<Row>, g: GroupOf, uniq: seq<Group>, buckets: seq<seq<Group>>, j: nat)
    requires Lists(uniq, pool, g) && multiset(Flatten(buckets)) == multiset(uniq)
    requires j < |buckets| && buckets[j] != []
    ensures |RowsOf(pool, g, buckets[j])| > 0
  {
    var u := buckets[j][0];
    PartOfFlatten(buckets, j, u);
    assert u in multiset(uniq);
    var k :| 0 <= k < |uniq| && uniq[k] == u;
    assert HasGroup(pool, g, uniq[k]);
    var i :| 0 <= i < |pool| && g(pool[i]) == u;
    RowsOfMembers(pool, g, buckets[j], pool[i]);
    assert pool[i] in multiset(pool);
  }

  method PackRows(pool: seq<Row>, g: GroupOf, uniq: seq<Group>, targets: seq<real>, ghost m: nat, ghost total: real)
    returns (parts: seq<seq<Row>>, ghost buckets: seq<seq<Group>>)
    requires Lists(uniq, pool, g) && 1 <= |targets| <= |uniq| && total == |targets| as real * m as real
    requires forall i :: 0 <= i < |uniq| ==> Count(pool, g, uniq[i]) <= m
    requires (forall j :: 0 <= j < |targets| ==> targets[j] >= 0.0) && Sum(targets) == |pool| as real
    ensures GroupedCarve(pool, g, uniq, targets, m, total, buckets, parts)
  {
    var packed, filled := Pack(pool, g, uniq, targets, m);
    PackedIsCarved(pool, g, uniq, targets, m, total, packed, filled);
    parts, buckets := Selected(pool, g, packed), packed;
  }

  /** Train, validation and gold end near 0.42, 0.17 and 0.17 of the rows, and each of the `k`
      shards near its part of 0.24. */
  ghost predicate NearShares(n: nat, k: nat, total: real, m: nat, train: seq<Row>, val: seq<Row>, gold: seq<Row>, shards: seq<seq<Row>>)
    requires k >= 1
  {
    && Bounded(0.42 * n as real, |train|, total, m)
    && Bounded(0.17 * n as real, |val|, total, m) && Bounded(0.17 * n as real, |gold|, total, m)
    && |shards| == k && forall s :: 0 <= s < k ==> Bounded(0.24 * n as real / k as real, |shards[s]|, total, m)
  }

  lemma CarvedNearShares(pool: seq<Row>, g: GroupOf, uniq: seq<Group>, k: nat, m: nat, total: real,
                         buckets: seq<seq<Group>>, parts: seq<seq<Row>>)
    requires k >= 1 && GroupedCarve(pool, g, uniq, Targets(|pool|, k), m, total, buckets, parts)
    ensures NearShares(|pool|, k, total, m, parts[0], parts[1], parts[2], parts[3..])
  {
    var t := Targets(|pool|, k);
    assert forall j :: 0 <= j < |parts| ==> Bounded(t[j], |parts[j]|, total, m);
    forall s | 0 <= s < k ensures Bounded(0.24 * |pool| as real / k as real, |parts[3..][s]|, total, m) {
      assert parts[3..][s] == parts[s + 3] && t[s + 3] == 0.24 * |pool| as real / k as real;
    }
  }

  lemma Reassembled(parts: seq<seq<Row>>)
    requires |parts| >= 3
    ensures [parts[0]] + [parts[1]] + [parts[2]] + parts[3..] == parts
  {}

  class TabularSplits {
    const nShards: nat
    var trainIdx: seq<Row>
    var valIdx: seq<Row>
    var goldIdx: seq<Row>
    var shards: seq<seq<Row>>

    constructor (nShards: nat)
      ensures this.nShards == nShards
    {
      this.nShards := nShards;
      trainIdx, valIdx, goldIdx, shards := [], [], [], [];
    }

    /** Train, validation, the shards in order, gold. */
    function Parts(): seq<seq<Row>>
      reads this
    {
      [trainIdx] + [valIdx] + shards + [goldIdx]
    }

    method Shard(sealed: seq<Row>)
      requires nShards >= 1
      modifies `shards
      ensures shards == SortAll(Chunks(sealed, nShards))
    {
      var per := |sealed| / nShards;
      shards := [];
      for s := 0 to nShards
        invariant shards == SortAll(Chunks(sealed, nShards)[..s])
      {
        ChunkStart(per, s, nShards, |sealed|);
        var chunk := if s < nShards - 1 then sealed[s * per..(s + 1) * per] else sealed[s * per..];
        assert chunk == Chunks(sealed, nShards)[s];
        shards := shards + [SortRows(chunk)];
      }
      assert Chunks(sealed, nShards)[..nShards] == Chunks(sealed, nShards);
    }

    /** Cuts an ordered pool at three places. */
    method CutAt(order: seq<Row>, a: nat, b: nat, c: nat)
      requires nShards >= 1 && a <= b <= c <= |order|
      modifies this
      ensures Parts() == SortAll(CutsAt(order, nShards, a, b, c))
    {
      SortedCuts(order, nShards, a, b, c);
      trainIdx := SortRows(order[..a]);
      valIdx := SortRows(order[a..b]);
      goldIdx := SortRows(order[c..]);
      Shard(order[b..c]);
    }

    /** The common part of the random and the time carve: 0.42, 0.17 and 0.17 of the rows for
        train, validation and gold, the rest for the shards. */
    method Cut(order: seq<Row>)
      requires nShards >= 1
      modifies this
      ensures Parts() == SortAll(Cuts(order, nShards))
    {
      var n := |order|;
      SizesFit(n);
      CutAt(order, TrainSize(n), TrainSize(n) + ValSize(n), n - GoldSize(n));
    }

    /** Random carve; the shuffled pool comes from the generator. */
    method CarveRandom(pool: seq<Row>, shuffled: seq<Row>)
      requires nShards >= 1 && multiset(shuffled) == multiset(pool)
      modifies this
      ensures Parts() == SortAll(Cuts(shuffled, nShards))
      ensures multiset(Flatten(Parts())) == multiset(pool) && CutSizes(|pool|, nShards, Parts())
    {
      assert |multiset(shuffled)| == |multiset(pool)|;
      Cut(shuffled);
      CutSizesAre(shuffled, nShards, |pool|, Parts());
      CutsPartition(shuffled, nShards);
    }

    /** Time carve: the earliest rows are for training, the latest are gold. */
    method CarveTime(pool: seq<Row>, time: Row -> real)
      requires nShards >= 1
      modifies this
      ensures Parts() == SortAll(Cuts(SortBy(pool, time), nShards))
      ensures multiset(Flatten(Parts())) == multiset(pool) && Chained(Parts(), time)
      ensures CutSizes(|pool|, nShards, Parts())
    {
      SortByOrders(pool, time);
      assert |multiset(SortBy(pool, time))| == |multiset(pool)|;
      Cut(SortBy(pool, time));
      CutSizesAre(SortBy(pool, time), nShards, |pool|, Parts());
      CutsPartition(SortBy(pool, time), nShards);
      CutsRespectTime(pool, time, nShards);
    }

    /** Grouped carve over the shuffled list of groups: fails without touching anything when
        there are fewer groups than buckets. */
    method CarveGrouped(pool: seq<Row>, g: GroupOf, uniq: seq<Group>, ghost m: nat, ghost total: real)
      returns (ok: bool, ghost buckets: seq<seq<Group>>)
      requires nShards >= 1 && Lists(uniq, pool, g) && total == (3 + nShards) as real * m as real
      requires forall i :: 0 <= i < |uniq| ==> Count(pool, g, uniq[i]) <= m
      modifies this
      ensures ok == (|uniq| >= 3 + nShards)
      ensures !ok ==> Parts() == old(Parts())
      ensures ok ==> 
        GroupedCarve(pool, g, uniq, Targets(|pool|, nShards), m, total, buckets, [trainIdx] + [valIdx] + [goldIdx] + shards)
      ensures ok ==> NearShares(|pool|, nShards, total, m, trainIdx, valIdx, goldIdx, shards)
    {
      buckets := [];
      if |uniq| < 3 + nShards {
        return false, buckets;
      }
      TargetsAddUp(|pool|, nShards);
      var parts, packed := PackRows(pool, g, uniq, Targets(|pool|, nShards), m, total);
      trainIdx, valIdx, goldIdx, shards := parts[0], parts[1], parts[2], parts[3..];
      Reassembled(parts);
      CarvedNearShares(pool, g, uniq, nShards, m, total, packed, parts);
      return true, packed;
    }
  }
}
