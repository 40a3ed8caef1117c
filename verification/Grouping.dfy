/** Packing whole groups into buckets: the greedy rule of the grouped carve, and how far a
    bucket can end up from its target. */
module Grouping {
  import opened Reals
  import opened Wrappers
  import opened Carving

  type GroupOf = Row -> Group

  /** The rows of a pool whose group is among `us`. */
  function RowsOf(pool: seq<Row>, g: GroupOf, us: seq<Group>): seq<Row> {
    if pool == [] then []
    else if g(pool[0]) in us then [pool[0]] + RowsOf(pool[1..], g, us)
    else RowsOf(pool[1..], g, us)
  }

  function Count(pool: seq<Row>, g: GroupOf, u: Group): nat {
    |RowsOf(pool, g, [u])|
  }

  /** Rows of the listed groups, group by group. */
  function Load(pool: seq<Row>, g: GroupOf, us: seq<Group>): nat {
    if us == [] then 0 else Load(pool, g, us[..|us| - 1]) + Count(pool, g, us[|us| - 1])
  }

  /** `uniq` lists every group of the pool once, in some order. */
  ghost predicate Lists(uniq: seq<Group>, pool: seq<Row>, g: GroupOf) {
    && Distinct(uniq)
    && (forall i {:trigger pool[i]} :: 0 <= i < |pool| ==> g(pool[i]) in uniq)
    && (forall k {:trigger HasGroup(pool, g, uniq[k])} :: 0 <= k < |uniq| ==> HasGroup(pool, g, uniq[k]))
  }

  ghost predicate HasGroup(pool: seq<Row>, g: GroupOf, u: Group) {
    exists i :: 0 <= i < |pool| && g(pool[i]) == u
  }

  lemma {:induction false} RowsOfMembers(pool: seq<Row>, g: GroupOf, us: seq<Group>, x: Row)
    ensures multiset(RowsOf(pool, g, us))[x] == (if g(x) in us then multiset(pool)[x] else 0)
  {
    if pool != [] {
      RowsOfMembers(pool[1..], g, us, x);
      assert pool == [pool[0]] + pool[1..];
    }
  }

  lemma {:induction false} RowsOfMore(pool: seq<Row>, g: GroupOf, us: seq<Group>, u: Group)
    requires u !in us
    ensures |RowsOf(pool, g, us + [u])| == |RowsOf(pool, g, us)| + Count(pool, g, u)
  {
    if pool != [] { RowsOfMore(pool[1..], g, us, u); }
  }

  lemma {:induction false} NoGroups(pool: seq<Row>, g: GroupOf)
    ensures RowsOf(pool, g, []) == []
  {
    if pool != [] { NoGroups(pool[1..], g); }
  }

  /** Of distinct groups, the load is the number of rows. */
  lemma {:induction false} LoadIsRows(pool: seq<Row>, g: GroupOf, us: seq<Group>)
    requires Distinct(us)
    ensures Load(pool, g, us) == |RowsOf(pool, g, us)|
  {
    if us == [] {
      NoGroups(pool, g);
    } else {
      var init, u := us[..|us| - 1], us[|us| - 1];
      LoadIsRows(pool, g, init);
      RowsOfMore(pool, g, init, u);
      assert us == init + [u];
    }
  }

  lemma {:induction false} EveryRow(pool: seq<Row>, g: GroupOf, us: seq<Group>)
    requires forall i :: 0 <= i < |pool| ==> g(pool[i]) in us
    ensures RowsOf(pool, g, us) == pool
  {
    if pool != [] { EveryRow(pool[1..], g, us); }
  }

  lemma {:induction false} GroupHasRows(pool: seq<Row>, g: GroupOf, u: Group, i: nat)
    requires i < |pool| && g(pool[i]) == u
    ensures Count(pool, g, u) >= 1
  {
    if g(pool[0]) != u { GroupHasRows(pool[1..], g, u, i - 1); }
  }

  /** All groups together hold every row, and each holds at least one. */
  lemma AllGroups(pool: seq<Row>, g: GroupOf, uniq: seq<Group>)
    requires Lists(uniq, pool, g)
    ensures Load(pool, g, uniq) == |pool|
    ensures forall i :: 0 <= i < |uniq| ==> Count(pool, g, uniq[i]) >= 1
  {
    LoadIsRows(pool, g, uniq);
    EveryRow(pool, g, uniq);
    forall i | 0 <= i < |uniq| ensures Count(pool, g, uniq[i]) >= 1 {
      assert HasGroup(pool, g, uniq[i]);
      var j :| 0 <= j < |pool| && g(pool[j]) == uniq[i];
      GroupHasRows(pool, g, uniq[i], j);
    }
  }

  // ------------------------------------------------------------------------- sums

  function Sum(s: seq<real>): real {
    if s == [] then 0.0 else s[0] + Sum(s[1..])
  }

  lemma {:induction false} SumAppend(s: seq<real>, t: seq<real>)
    ensures Sum(s + t) == Sum(s) + Sum(t)
  {
    if s == [] {
      assert s + t == t;
    } else {
      SumAppend(s[1..], t);
      assert (s + t)[1..] == s[1..] + t;
    }
  }

  lemma {:induction false} SumUpdate(s: seq<real>, j: nat, x: real)
    requires j < |s|
    ensures Sum(s[j := x]) == Sum(s) - s[j] + x
  {
    if j == 0 {
      assert s[0 := x][1..] == s[1..];
    } else {
      SumUpdate(s[1..], j - 1, x);
      assert s[j := x][1..] == s[1..][j - 1 := x];
    }
  }

  lemma {:induction false} SumCopies(x: real, k: nat)
    ensures Sum(Copies(x, k)) == k as real * x
  {
    if k > 0 {
      SumCopies(x, k - 1);
      assert Copies(x, k)[1..] == Copies(x, k - 1);
      Distribute((k - 1) as real, 1.0, x);
    }
  }

  /** Some bucket is below its target while rows remain. */
  lemma {:induction false} SomeDeficit(targets: seq<real>, filled: seq<real>) returns (j: nat)
    requires |targets| == |filled| && Sum(filled) < Sum(targets)
    ensures j < |targets| && filled[j] < targets[j]
  {
    if filled[0] < targets[0] {
      j := 0;
    } else {
      j := SomeDeficit(targets[1..], filled[1..]);
      j := j + 1;
    }
  }

  /** If no bucket exceeds its target by more than `m`, none falls short by more than
      `(nb - 1) m`. */
  lemma {:induction false} Shortfall(targets: seq<real>, filled: seq<real>, m: real, slack: real)
    requires |targets| == |filled| && m >= 0.0
    requires forall i :: 0 <= i < |targets| ==> filled[i] <= targets[i] + m
    requires slack == |targets| as real * m
    ensures Sum(filled) <= Sum(targets) + slack
    ensures forall k :: 0 <= k < |targets| ==> Sum(filled) - filled[k] <= Sum(targets) - targets[k] + slack - m
  {
    if targets != [] {
      var rest := slack - m;
      Distribute((|targets| - 1) as real, 1.0, m);
      Shortfall(targets[1..], filled[1..], m, rest);
      forall k | 0 <= k < |targets| ensures Sum(filled) - filled[k] <= Sum(targets) - targets[k] + slack - m {
        if k > 0 { assert filled[1..][k - 1] == filled[k] && targets[1..][k - 1] == targets[k]; }
      }
    }
  }

  // ------------------------------------------------------------------------ packing

  /** The bucket furthest below its target; the first one on ties. */
  method ArgMaxDeficit(targets: seq<real>, filled: seq<real>) returns (j: nat)
    requires |targets| == |filled| > 0
    ensures j < |targets|
    ensures forall k :: 0 <= k < |targets| ==> targets[k] - filled[k] <= targets[j] - filled[j]
    ensures forall k :: 0 <= k < j ==> targets[k] - filled[k] < targets[j] - filled[j]
  {
    j := 0;
    for i := 1 to |targets|
      invariant j < i <= |targets|
      invariant forall k :: 0 <= k < i ==> targets[k] - filled[k] <= targets[j] - filled[j]
      invariant forall k :: 0 <= k < j ==> targets[k] - filled[k] < targets[j] - filled[j]
    {
      if targets[i] - filled[i] > targets[j] - filled[j] {
        j := i;
      }
    }
  }

  /** What has been packed so far: the groups `us`, each once, with the loads recorded and no
      bucket more than `m` above its target. */
  ghost predicate Packed(pool: seq<Row>, g: GroupOf, us: seq<Group>, targets: seq<real>,
                         buckets: seq<seq<Group>>, filled: seq<real>, m: nat)
  {
    && |buckets| == |filled| == |targets|
    && multiset(Flatten(buckets)) == multiset(us)
    && Recorded(pool, g, buckets, filled)
    && Sum(filled) == Load(pool, g, us) as real
    && (forall j :: 0 <= j < |buckets| ==> filled[j] <= targets[j] + m as real)
  }

  ghost predicate Recorded(pool: seq<Row>, g: GroupOf, buckets: seq<seq<Group>>, filled: seq<real>) {
    |buckets| == |filled| && forall j :: 0 <= j < |buckets| ==> filled[j] == Load(pool, g, buckets[j]) as real
  }

  lemma {:induction false} FlattenPut(buckets: seq<seq<Group>>, j: nat, u: Group)
    requires j < |buckets|
    ensures multiset(Flatten(buckets[j := buckets[j] + [u]])) == multiset(Flatten(buckets)) + multiset{u}
  {
    var after := buckets[j := buckets[j] + [u]];
    assert Flatten(after) == after[0] + Flatten(after[1..]);
    assert Flatten(buckets) == buckets[0] + Flatten(buckets[1..]);
    if j == 0 {
      assert after[1..] == buckets[1..];
    } else {
      FlattenPut(buckets[1..], j - 1, u);
      assert after[1..] == buckets[1..][j - 1 := buckets[1..][j - 1] + [u]];
    }
  }

  lemma Put(pool: seq<Row>, g: GroupOf, us: seq<Group>, targets: seq<real>, buckets: seq<seq<Group>>,
            filled: seq<real>, m: nat, j: nat, u: Group, x: real)
    requires Packed(pool, g, us, targets, buckets, filled, m) && j < |targets|
    requires x == filled[j] + Count(pool, g, u) as real && x <= targets[j] + m as real
    ensures Packed(pool, g, us + [u], targets, buckets[j := buckets[j] + [u]], filled[j := x], m)
  {
    PutGroups(buckets, us, j, u);
    PutSum(pool, g, us, filled, j, u, x);
    PutLoads(pool, g, buckets, filled, j, u, x);
  }

  lemma PutGroups(buckets: seq<seq<Group>>, us: seq<Group>, j: nat, u: Group)
    requires j < |buckets| && multiset(Flatten(buckets)) == multiset(us)
    ensures multiset(Flatten(buckets[j := buckets[j] + [u]])) == multiset(us + [u])
  {
    FlattenPut(buckets, j, u);
  }

  lemma PutSum(pool: seq<Row>, g: GroupOf, us: seq<Group>, filled: seq<real>, j: nat, u: Group, x: real)
    requires Sum(filled) == Load(pool, g, us) as real && j < |filled| && x == filled[j] + Count(pool, g, u) as real
    ensures Sum(filled[j := x]) == Load(pool, g, us + [u]) as real
  {
    SumUpdate(filled, j, x);
    LoadMore(pool, g, us, u);
  }

  lemma PutLoads(pool: seq<Row>, g: GroupOf, buckets: seq<seq<Group>>, filled: seq<real>, j: nat, u: Group, x: real)
    requires Recorded(pool, g, buckets, filled) && j < |buckets| && x == filled[j] + Count(pool, g, u) as real
    ensures Recorded(pool, g, buckets[j := buckets[j] + [u]], filled[j := x])
  {
    LoadMore(pool, g, buckets[j], u);
  }

  lemma LoadMore(pool: seq<Row>, g: GroupOf, us: seq<Group>, u: Group)
    ensures Load(pool, g, us + [u]) == Load(pool, g, us) + Count(pool, g, u)
  {
    assert (us + [u])[..|us|] == us;
  }

  lemma {:induction false} LoadGrows(pool: seq<Row>, g: GroupOf, uniq: seq<Group>, i: nat)
    requires i < |uniq| && forall k :: 0 <= k < |uniq| ==> Count(pool, g, uniq[k]) >= 1
    ensures Load(pool, g, uniq[..i]) < Load(pool, g, uniq)
    decreases |uniq|
  {
    var last := |uniq| - 1;
    if i < last {
      LoadGrows(pool, g, uniq[..last], i);
      assert uniq[..last][..i] == uniq[..i];
    }
  }

  lemma EmptyBuckets(pool: seq<Row>, g: GroupOf, targets: seq<real>, m: nat)
    requires forall j :: 0 <= j < |targets| ==> targets[j] >= 0.0
    ensures Packed(pool, g, [], targets, NoGroupsIn(|targets|), Copies(0.0, |targets|), m)
  {
    SumCopies(0.0, |targets|);
    NothingIn(|targets|);
  }

  function NoGroupsIn(nb: nat): (buckets: seq<seq<Group>>)
    ensures |buckets| == nb && forall j :: 0 <= j < nb ==> buckets[j] == []
  {
    seq(nb, j => [])
  }

  lemma {:induction false} NothingIn(nb: nat)
    ensures Flatten(NoGroupsIn(nb)) == []
  {
    if nb > 0 {
      NothingIn(nb - 1);
      assert NoGroupsIn(nb)[1..] == NoGroupsIn(nb - 1);
    }
  }

  /** Every group has rows, and at most `m`. */
  ghost predicate GroupSizes(pool: seq<Row>, g: GroupOf, us: seq<Group>, m: nat) {
    forall k {:trigger SizeWithin(pool, g, us[k], m)} :: 0 <= k < |us| ==> SizeWithin(pool, g, us[k], m)
  }

  ghost predicate SizeWithin(pool: seq<Row>, g: GroupOf, u: Group, m: nat) {
    1 <= Count(pool, g, u) <= m
  }

  /** The bucket for the `i`-th group: its own while buckets are being seeded, then the first
      one with the largest deficit.  The group fits within `m` of the target. */
  method Choose(pool: seq<Row>, g: GroupOf, uniq: seq<Group>, i: nat, targets: seq<real>, ghost buckets: seq<seq<Group>>,
                filled: seq<real>, ghost m: nat) returns (j: nat)
    requires i < |uniq| && Packed(pool, g, uniq[..i], targets, buckets, filled, m)
    requires |targets| >= 1 && Load(pool, g, uniq) == |pool|
    requires GroupSizes(pool, g, uniq, m)
    requires (forall k :: 0 <= k < |targets| ==> targets[k] >= 0.0) && Sum(targets) == |pool| as real
    requires i < |targets| ==> filled[i] == 0.0
    ensures j < |targets| && (i < |targets| ==> j == i)
    ensures filled[j] <= targets[j]
    ensures i >= |targets| ==> forall k :: 0 <= k < |targets| ==> targets[k] - filled[k] <= targets[j] - filled[j]
    ensures i >= |targets| ==> forall k :: 0 <= k < j ==> targets[k] - filled[k] < targets[j] - filled[j]
  {
    if i < |targets| {
      return i;
    }
    forall k | 0 <= k < |uniq| ensures Count(pool, g, uniq[k]) >= 1 {
      assert SizeWithin(pool, g, uniq[k], m);
    }
    LoadGrows(pool, g, uniq, i);
    ghost var k := SomeDeficit(targets, filled);
    j := ArgMaxDeficit(targets, filled);
  }

  /** Buckets seeded so far start with their own group, the others hold nothing. */
  ghost predicate Seeded(uniq: seq<Group>, buckets: seq<seq<Group>>, filled: seq<real>, i: nat) {
    && |buckets| == |filled| <= |uniq|
    && (forall j {:trigger Leads(uniq, buckets, j)} :: 0 <= j < |buckets| && j < i ==> Leads(uniq, buckets, j))
    && (forall j {:trigger filled[j]} :: i <= j < |filled| ==> buckets[j] == [] && filled[j] == 0.0)
    && (i <= |buckets| ==> forall j {:trigger buckets[j]} :: 0 <= j < |buckets| ==> |buckets[j]| <= 1)
  }

  /** Bucket `j` holds something, and first of all the `j`-th group. */
  ghost predicate Leads(uniq: seq<Group>, buckets: seq<seq<Group>>, j: nat)
    requires j < |buckets| <= |uniq|
  {
    buckets[j] != [] && buckets[j][0] == uniq[j]
  }

  /** No bucket got a second group while another one was further below its target: after that
      group its deficit is at most `m` smaller than any. */
  ghost predicate Balanced(buckets: seq<seq<Group>>, targets: seq<real>, rows: seq<real>, m: nat) {
    && |buckets| == |targets| == |rows|
    && forall j, k {:trigger NotAhead(targets, rows, m, j, k)} ::
         0 <= j < |buckets| && 0 <= k < |buckets| && |buckets[j]| >= 2 ==> NotAhead(targets, rows, m, j, k)
  }

  ghost predicate NotAhead(targets: seq<real>, rows: seq<real>, m: nat, j: nat, k: nat)
    requires |targets| == |rows| && j < |rows| && k < |rows|
  {
    targets[k] - rows[k] <= targets[j] - rows[j] + m as real
  }

  lemma NothingSeeded(uniq: seq<Group>, targets: seq<real>, m: nat)
    requires |targets| <= |uniq|
    ensures Seeded(uniq, NoGroupsIn(|targets|), Copies(0.0, |targets|), 0)
    ensures Balanced(NoGroupsIn(|targets|), targets, Copies(0.0, |targets|), m)
  {}

  lemma PutBalanced(uniq: seq<Group>, buckets: seq<seq<Group>>, targets: seq<real>, filled: seq<real>, i: nat, m: nat,
                    j: nat, u: Group, c: nat, x: real)
    requires Balanced(buckets, targets, filled, m) && Seeded(uniq, buckets, filled, i) && j < |buckets|
    requires c <= m && x == filled[j] + c as real && (i < |targets| ==> j == i)
    requires i >= |targets| ==> forall k :: 0 <= k < |targets| ==> targets[k] - filled[k] <= targets[j] - filled[j]
    ensures Balanced(buckets[j := buckets[j] + [u]], targets, filled[j := x], m)
  {
    var after, rows := buckets[j := buckets[j] + [u]], filled[j := x];
    forall p, k | 0 <= p < |buckets| && 0 <= k < |buckets| && |after[p]| >= 2 ensures NotAhead(targets, rows, m, p, k) {
      if p != j { assert NotAhead(targets, filled, m, p, k); }
    }
  }

  method PackOne(pool: seq<Row>, g: GroupOf, uniq: seq<Group>, i: nat, targets: seq<real>, buckets: seq<seq<Group>>,
                 filled: seq<real>, ghost m: nat) returns (buckets': seq<seq<Group>>, filled': seq<real>)
    requires i < |uniq| && Packed(pool, g, uniq[..i], targets, buckets, filled, m) && Seeded(uniq, buckets, filled, i)
    requires Balanced(buckets, targets, filled, m)
    requires |targets| >= 1 && Load(pool, g, uniq) == |pool|
    requires GroupSizes(pool, g, uniq, m)
    requires (forall k :: 0 <= k < |targets| ==> targets[k] >= 0.0) && Sum(targets) == |pool| as real
    ensures Packed(pool, g, uniq[..i + 1], targets, buckets', filled', m) && Seeded(uniq, buckets', filled', i + 1)
    ensures Balanced(buckets', targets, filled', m)
  {
    var j := Choose(pool, g, uniq, i, targets, buckets, filled, m);
    var x := filled[j] + Count(pool, g, uniq[i]) as real;
    PutNext(pool, g, uniq, i, targets, buckets, filled, m, j, x);
    buckets', filled' := buckets[j := buckets[j] + [uniq[i]]], filled[j := x];
  }

  /** Packing stays on course when the `i`-th group goes to its seed or to a bucket with the
      largest deficit. */
  lemma PutNext(pool: seq<Row>, g: GroupOf, uniq: seq<Group>, i: nat, targets: seq<real>, buckets: seq<seq<Group>>,
                filled: seq<real>, m: nat, j: nat, x: real)
    requires i < |uniq| && Packed(pool, g, uniq[..i], targets, buckets, filled, m) && Seeded(uniq, buckets, filled, i)
    requires Balanced(buckets, targets, filled, m) && GroupSizes(pool, g, uniq, m)
    requires j < |targets| && (i < |targets| ==> j == i) && filled[j] <= targets[j]
    requires i >= |targets| ==> forall k :: 0 <= k < |targets| ==> targets[k] - filled[k] <= targets[j] - filled[j]
    requires x == filled[j] + Count(pool, g, uniq[i]) as real
    ensures var after, rows := buckets[j := buckets[j] + [uniq[i]]], filled[j := x];
      Packed(pool, g, uniq[..i + 1], targets, after, rows, m) && Seeded(uniq, after, rows, i + 1) && Balanced(after, targets, rows, m)
  {
    assert SizeWithin(pool, g, uniq[i], m);
    assert uniq[..i + 1] == uniq[..i] + [uniq[i]];
    PutSeeded(uniq, buckets, filled, i, j, x);
    PutBalanced(uniq, buckets, targets, filled, i, m, j, uniq[i], Count(pool, g, uniq[i]), x);
    Put(pool, g, uniq[..i], targets, buckets, filled, m, j, uniq[i], x);
  }

  lemma PutSeeded(uniq: seq<Group>, buckets: seq<seq<Group>>, filled: seq<real>, i: nat, j: nat, x: real)
    requires Seeded(uniq, buckets, filled, i) && j < |buckets| && i < |uniq| && (i < |buckets| ==> j == i)
    ensures Seeded(uniq, buckets[j := buckets[j] + [uniq[i]]], filled[j := x], i + 1)
  {
    var after := buckets[j := buckets[j] + [uniq[i]]];
    if i < |buckets| {
      assert filled[i] == 0.0;
      assert |after[i]| == 1;
    }
    forall k | 0 <= k < |after| && k < i + 1 ensures Leads(uniq, after, k) {
      if k < i { assert Leads(uniq, buckets, k); }
    }
    forall k | i + 1 <= k < |filled| ensures after[k] == [] && filled[j := x][k] == 0.0 {
      assert filled[k] == 0.0;
    }
  }

  method PackAll(pool: seq<Row>, g: GroupOf, uniq: seq<Group>, targets: seq<real>, ghost m: nat)
    returns (buckets: seq<seq<Group>>, ghost filled: seq<real>)
    requires 1 <= |targets| <= |uniq| && Load(pool, g, uniq) == |pool| && GroupSizes(pool, g, uniq, m)
    requires (forall j :: 0 <= j < |targets| ==> targets[j] >= 0.0) && Sum(targets) == |pool| as real
    ensures Packed(pool, g, uniq, targets, buckets, filled, m)
    ensures Seeded(uniq, buckets, filled, |uniq|) && Balanced(buckets, targets, filled, m)
  {
    var loads := Copies(0.0, |targets|);
    buckets := NoGroupsIn(|targets|);
    EmptyBuckets(pool, g, targets, m);
    NothingSeeded(uniq, targets, m);
    assert uniq[..0] == [];
    var i := 0;
    while i < |uniq|
      invariant 0 <= i <= |uniq|
      invariant Packed(pool, g, uniq[..i], targets, buckets, loads, m) && Seeded(uniq, buckets, loads, i)
      invariant Balanced(buckets, targets, loads, m)
    {
      buckets, loads := PackOne(pool, g, uniq, i, targets, buckets, loads, m);
      i := i + 1;
    }
    assert uniq[..|uniq|] == uniq;
    filled := loads;
  }

  /** Seeds one group per bucket, then gives each further group to the bucket with the
      largest deficit. */
  method Pack(pool: seq<Row>, g: GroupOf, uniq: seq<Group>, targets: seq<real>, ghost m: nat)
    returns (buckets: seq<seq<Group>>, ghost filled: seq<real>)
    requires Lists(uniq, pool, g) && 1 <= |targets| <= |uniq|
    requires forall i :: 0 <= i < |uniq| ==> Count(pool, g, uniq[i]) <= m
    requires (forall j :: 0 <= j < |targets| ==> targets[j] >= 0.0) && Sum(targets) == |pool| as real
    ensures Packed(pool, g, uniq, targets, buckets, filled, m)
    ensures |buckets| <= |uniq| && forall j :: 0 <= j < |buckets| ==> Leads(uniq, buckets, j)
    ensures Balanced(buckets, targets, filled, m)
  {
    AllGroups(pool, g, uniq);
    forall k | 0 <= k < |uniq| ensures SizeWithin(pool, g, uniq[k], m) {}
    buckets, filled := PackAll(pool, g, uniq, targets, m);
  }

  /** Every bucket ends within `m` above and `(nb - 1) m` below its target; `total` is
      `nb m`. */
  lemma PackedBounds(pool: seq<Row>, g: GroupOf, uniq: seq<Group>, targets: seq<real>, buckets: seq<seq<Group>>,
                     filled: seq<real>, m: nat, total: real, k: nat)
    requires Packed(pool, g, uniq, targets, buckets, filled, m)
    requires Load(pool, g, uniq) == |pool| && Sum(targets) == |pool| as real && k < |targets|
    requires total == |targets| as real * m as real
    ensures targets[k] - (total - m as real) <= Load(pool, g, buckets[k]) as real <= targets[k] + m as real
  {
    Shortfall(targets, filled, m as real, total);
  }
}
