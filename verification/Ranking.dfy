/** Stable ranking by a real key, best first: what Python's
    `sorted(xs, key=..., reverse=True)` computes.  Everything that ranks arms,
    proposals or records in this project goes through `SortDesc`.  Leaving entries out
    commutes with it, which is what pruning rests on. */
module Ranking {

  /** An item paired with the number it is ranked by. */
  datatype Keyed<T> = Keyed(item: T, key: real)

  /** Puts `x` in front of the first entry it does not lose to.  `x` stands before
      equal keys because it came earlier in the input. */
  function Insert<T>(x: Keyed<T>, s: seq<Keyed<T>>): seq<Keyed<T>> {
    if s == [] || x.key >= s[0].key then [x] + s else [s[0]] + Insert(x, s[1..])
  }

  function SortDesc<T>(s: seq<Keyed<T>>): seq<Keyed<T>> {
    if s == [] then [] else Insert(s[0], SortDesc(s[1..]))
  }

  lemma {:induction false} InsertPermutes<T>(x: Keyed<T>, s: seq<Keyed<T>>)
    ensures multiset(Insert(x, s)) == multiset{x} + multiset(s)
  {
    if s != [] && x.key < s[0].key {
      InsertPermutes(x, s[1..]);
      assert s == [s[0]] + s[1..];
    }
  }

  /** Ranking loses nothing and invents nothing. */
  lemma {:induction false} SortPermutes<T>(s: seq<Keyed<T>>)
    ensures multiset(SortDesc(s)) == multiset(s)
    ensures |SortDesc(s)| == |s|
  {
    if s != [] {
      SortPermutes(s[1..]);
      InsertPermutes(s[0], SortDesc(s[1..]));
      assert s == [s[0]] + s[1..];
    }
    assert |multiset(SortDesc(s))| == |multiset(s)|;
  }

  lemma SortMember<T>(s: seq<Keyed<T>>, i: nat) returns (j: nat)
    requires i < |s|
    ensures |SortDesc(s)| == |s| && j < |s| && SortDesc(s)[i] == s[j]
  {
    SortPermutes(s);
    var e := SortDesc(s)[i];
    assert e in multiset(SortDesc(s));
    assert e in s;
    j :| 0 <= j < |s| && s[j] == e;
  }

  ghost predicate Desc<T>(s: seq<Keyed<T>>) {
    forall i, j :: 0 <= i < j < |s| ==> s[i].key >= s[j].key
  }

  function Top<T>(s: seq<T>, k: nat): seq<T> {
    if |s| <= k then s else s[..k]
  }

  function Items<T>(s: seq<Keyed<T>>): (r: seq<T>)
    ensures |r| == |s| && forall i :: 0 <= i < |s| ==> r[i] == s[i].item
  {
    seq(|s|, i requires 0 <= i < |s| => s[i].item)
  }

  lemma {:induction false} InsertDesc<T>(x: Keyed<T>, s: seq<Keyed<T>>)
    requires Desc(s)
    ensures Desc(Insert(x, s))
  {
    if s == [] || x.key >= s[0].key {
      DescCons(x, s);
    } else {
      InsertDesc(x, s[1..]);
      InsertBelow(x, s[1..], s[0].key);
      DescCons(s[0], Insert(x, s[1..]));
    }
  }

  lemma DescCons<T>(e: Keyed<T>, s: seq<Keyed<T>>)
    requires Desc(s) && (s != [] ==> e.key >= s[0].key)
    ensures Desc([e] + s)
  {}

  lemma {:induction false} InsertBelow<T>(x: Keyed<T>, s: seq<Keyed<T>>, c: real)
    requires x.key <= c && forall j :: 0 <= j < |s| ==> s[j].key <= c
    ensures Insert(x, s) != [] && Insert(x, s)[0].key <= c
  {}

  lemma {:induction false} SortIsDesc<T>(s: seq<Keyed<T>>)
    ensures Desc(SortDesc(s))
  {
    if s != [] {
      SortIsDesc(s[1..]);
      InsertDesc(s[0], SortDesc(s[1..]));
    }
  }

  lemma {:induction false} SortedStays<T>(s: seq<Keyed<T>>)
    requires Desc(s)
    ensures SortDesc(s) == s
  {
    if s != [] { SortedStays(s[1..]); }
  }

  /** Ranking leaves exactly the lists alone that are in order already. */
  lemma SortKeepsExactlySorted<T>(s: seq<Keyed<T>>)
    ensures SortDesc(s) == s <==> Desc(s)
  {
    SortIsDesc(s);
    if Desc(s) { SortedStays(s); }
  }

  /** The entries whose item is in `keep`, in order. */
  function Restrict<T(==)>(s: seq<Keyed<T>>, keep: set<T>): seq<Keyed<T>> {
    if s == [] then []
    else if s[0].item in keep then [s[0]] + Restrict(s[1..], keep)
    else Restrict(s[1..], keep)
  }

  lemma {:induction false} RestrictMembers<T>(s: seq<Keyed<T>>, keep: set<T>)
    ensures forall e :: e in Restrict(s, keep) <==> e in s && e.item in keep
  {
    if s != [] {
      RestrictMembers(s[1..], keep);
      assert s == [s[0]] + s[1..];
    }
  }

  lemma RestrictCons<T>(x: Keyed<T>, s: seq<Keyed<T>>, keep: set<T>)
    ensures Restrict([x] + s, keep)
         == if x.item in keep then [x] + Restrict(s, keep) else Restrict(s, keep)
  {
    assert ([x] + s)[1..] == s;
  }

  lemma {:induction false} RestrictInsert<T>(x: Keyed<T>, s: seq<Keyed<T>>, keep: set<T>)
    requires Desc(s)
    ensures Restrict(Insert(x, s), keep)
         == if x.item in keep then Insert(x, Restrict(s, keep)) else Restrict(s, keep)
  {
    if s == [] || x.key >= s[0].key {
      RestrictCons(x, s, keep);
      InsertAtFront(x, s, keep);
    } else {
      RestrictInsert(x, s[1..], keep);
      RestrictCons(s[0], Insert(x, s[1..]), keep);
      if x.item in keep && s[0].item !in keep {
      } else if x.item in keep {
        assert Restrict(s, keep)[1..] == Restrict(s[1..], keep);
      }
    }
  }

  lemma InsertAtFront<T>(x: Keyed<T>, s: seq<Keyed<T>>, keep: set<T>)
    requires forall e :: e in s ==> x.key >= e.key
    ensures Insert(x, Restrict(s, keep)) == [x] + Restrict(s, keep)
  {
    RestrictMembers(s, keep);
    var r := Restrict(s, keep);
    if r != [] { assert r[0] in r; }
  }

  /** Stability: leaving entries out before or after ranking gives the same list. */
  lemma {:induction false} RestrictSort<T>(s: seq<Keyed<T>>, keep: set<T>)
    ensures SortDesc(Restrict(s, keep)) == Restrict(SortDesc(s), keep)
  {
    if s != [] {
      RestrictSort(s[1..], keep);
      SortIsDesc(s[1..]);
      RestrictInsert(s[0], SortDesc(s[1..]), keep);
      if s[0].item in keep {
        assert Restrict(s, keep)[1..] == Restrict(s[1..], keep);
      }
    }
  }

  /** How many entries have a key strictly above `c`. */
  function CountAbove<T>(s: seq<Keyed<T>>, c: real): nat {
    if s == [] then 0 else (if s[0].key > c then 1 else 0) + CountAbove(s[1..], c)
  }

  lemma {:induction false} CountAboveInsert<T>(x: Keyed<T>, s: seq<Keyed<T>>, c: real)
    ensures CountAbove(Insert(x, s), c) == CountAbove([x], c) + CountAbove(s, c)
  {
    if s == [] || x.key >= s[0].key {
      assert ([x] + s)[1..] == s;
    } else {
      CountAboveInsert(x, s[1..], c);
    }
  }

  lemma {:induction false} CountAboveSort<T>(s: seq<Keyed<T>>, c: real)
    ensures CountAbove(SortDesc(s), c) == CountAbove(s, c)
  {
    if s != [] {
      CountAboveSort(s[1..], c);
      CountAboveInsert(s[0], SortDesc(s[1..]), c);
    }
  }

  /** In a ranked list the entries above `c` come first. */
  lemma {:induction false} AboveIsPrefix<T>(s: seq<Keyed<T>>, c: real, i: nat)
    requires Desc(s) && i < CountAbove(s, c)
    ensures i < |s| && s[i].key > c
  {
    if s[0].key <= c {
      NoneAbove(s, c);
    } else if i > 0 {
      AboveIsPrefix(s[1..], c, i - 1);
    }
  }

  /** The `k`-th best entry being above `c` means at least `k` entries are. */
  lemma {:induction false} PrefixIsAbove<T>(s: seq<Keyed<T>>, c: real, k: nat)
    requires Desc(s) && 1 <= k <= |s| && s[k - 1].key > c
    ensures CountAbove(s, c) >= k
  {
    assert s[0].key > c;
    if k > 1 { PrefixIsAbove(s[1..], c, k - 1); }
  }

  lemma {:induction false} NoneAbove<T>(s: seq<Keyed<T>>, c: real)
    requires forall e :: e in s ==> e.key <= c
    ensures CountAbove(s, c) == 0
  {
    if s != [] { NoneAbove(s[1..], c); }
  }

  lemma {:induction false} RestrictPrefix<T>(s: seq<Keyed<T>>, keep: set<T>, k: nat)
    requires k <= |s| && forall i :: 0 <= i < k ==> s[i].item in keep
    ensures k <= |Restrict(s, keep)| && Restrict(s, keep)[..k] == s[..k]
  {
    if k > 0 {
      RestrictPrefix(s[1..], keep, k - 1);
      assert s[..k] == [s[0]] + s[1..][..k - 1];
    }
  }

  lemma {:induction false} RestrictAll<T>(s: seq<Keyed<T>>, keep: set<T>)
    requires forall e :: e in s ==> e.item in keep
    ensures Restrict(s, keep) == s
  {
    if s != [] { RestrictAll(s[1..], keep); }
  }

  /** Each entry left out has at least `k` ranked entries strictly above it. */
  ghost predicate Outscored<T>(s: seq<Keyed<T>>, keep: set<T>, k: nat) {
    forall i :: 0 <= i < |s| && s[i].item !in keep ==> CountAbove(Restrict(s, keep), s[i].key) >= k
  }

  /** Halving does not notice entries left out of the ranking when they are outscored. */
  lemma TopUnchanged<T>(s: seq<Keyed<T>>, keep: set<T>, k: nat)
    requires Outscored(s, keep, k)
    ensures Top(SortDesc(Restrict(s, keep)), k) == Top(SortDesc(s), k)
  {
    RestrictSort(s, keep);
    if j :| 0 <= j < |s| && s[j].item !in keep {
      TopIsKept(s, keep, k, j);
      PrefixIsTop(SortDesc(s), keep, k);
    } else {
      RestrictAll(s, keep);
    }
  }

  lemma PrefixIsTop<T>(ranked: seq<Keyed<T>>, keep: set<T>, k: nat)
    requires k <= |ranked| && forall i :: 0 <= i < k ==> ranked[i].item in keep
    ensures Top(Restrict(ranked, keep), k) == Top(ranked, k)
  {
    RestrictPrefix(ranked, keep, k);
    assert ranked[..|ranked|] == ranked;
  }

  lemma TopIsKept<T>(s: seq<Keyed<T>>, keep: set<T>, k: nat, left: nat)
    requires Outscored(s, keep, k) && left < |s| && s[left].item !in keep
    ensures k <= |SortDesc(s)|
    ensures forall i :: 0 <= i < k ==> SortDesc(s)[i].item in keep
  {
    var ranked := SortDesc(s);
    if k > 0 { RankedAbove(s, keep, s[left].key, k, k - 1); }
    forall i | 0 <= i < k ensures ranked[i].item in keep {
      SortPermutes(s);
      var j := SortMember(s, i);
      if s[j].item !in keep {
        RankedAbove(s, keep, s[j].key, k, i);
      }
    }
  }

  lemma RankedAbove<T>(s: seq<Keyed<T>>, keep: set<T>, c: real, k: nat, i: nat)
    requires CountAbove(Restrict(s, keep), c) >= k && i < k
    ensures i < |SortDesc(s)| && SortDesc(s)[i].key > c
  {
    CountRestrict(s, keep, c);
    CountAboveSort(s, c);
    SortIsDesc(s);
    AboveIsPrefix(SortDesc(s), c, i);
  }

  lemma {:induction false} CountRestrict<T>(s: seq<Keyed<T>>, keep: set<T>, c: real)
    ensures CountAbove(Restrict(s, keep), c) <= CountAbove(s, c)
  {
    if s != [] {
      CountRestrict(s[1..], keep, c);
      assert s[0].item in keep ==> Restrict(s, keep)[1..] == Restrict(s[1..], keep);
    }
  }
}
