/** Small helpers every part of the project leans on: results that may be missing, lists
    without repetition, taking one element out of a list, mapping a permutation, and copies.
    None of them knows anything about the program that is modelled. */
module Wrappers {
  datatype Option<+T> = None | Some(value: T)

  ghost predicate Distinct<T>(s: seq<T>) {
    forall i, j :: 0 <= i < j < |s| ==> s[i] != s[j]
  }

  lemma NoMembers<T>(s: seq<T>)
    ensures s == [] <==> forall e :: e !in s
  {
    if s != [] { assert s[0] in s; }
  }

  function Copies<T>(x: T, k: nat): (s: seq<T>)
    ensures |s| == k && forall i :: 0 <= i < k ==> s[i] == x
  {
    seq(k, i => x)
  }

  /** Removing one position removes one occurrence. */
  lemma WithoutOne<T>(s: seq<T>, k: nat)
    requires k < |s|
    ensures multiset(s[..k] + s[k + 1..]) == multiset(s) - multiset{s[k]}
  {
    assert s == s[..k] + [s[k]] + s[k + 1..];
  }

  lemma SameWithout<T>(s: seq<T>, i: nat, t: seq<T>, j: nat)
    requires multiset(s) == multiset(t) && i < |s| && j < |t| && s[i] == t[j]
    ensures multiset(s[..i] + s[i + 1..]) == multiset(t[..j] + t[j + 1..])
  {
    WithoutOne(s, i);
    WithoutOne(t, j);
  }

  lemma PutBack<T>(s: seq<T>, i: nat, t: seq<T>, j: nat)
    requires i < |s| && j < |t| && s[i] == t[j]
    requires multiset(s[..i] + s[i + 1..]) == multiset(t[..j] + t[j + 1..])
    ensures multiset(s) == multiset(t)
  {
    WithoutOne(s, i);
    WithoutOne(t, j);
    assert multiset(s) == multiset(s) - multiset{s[i]} + multiset{s[i]};
    assert multiset(t) == multiset(t) - multiset{t[j]} + multiset{t[j]};
  }

  lemma SameLength<T>(s: seq<T>, t: seq<T>)
    requires multiset(s) == multiset(t)
    ensures |s| == |t|
  {
    assert |multiset(s)| == |multiset(t)|;
  }

  /** The element at `i` of `s` also stands somewhere in a permutation of `s`. */
  lemma Elsewhere<T>(s: seq<T>, i: nat, t: seq<T>) returns (j: nat)
    requires multiset(s) == multiset(t) && i < |s|
    ensures j < |t| && t[j] == s[i] && |s| == |t|
  {
    assert |multiset(s)| == |multiset(t)|;
    assert s[i] in multiset(t);
    j :| 0 <= j < |t| && t[j] == s[i];
  }

  function Map<A, B>(f: A -> B, s: seq<A>): (t: seq<B>)
    ensures |t| == |s| && forall i :: 0 <= i < |s| ==> t[i] == f(s[i])
  {
    seq(|s|, i requires 0 <= i < |s| => f(s[i]))
  }

  lemma MapWithout<A, B>(f: A -> B, s: seq<A>, k: nat)
    requires k < |s|
    ensures Map(f, s[..k] + s[k + 1..]) == Map(f, s)[..k] + Map(f, s)[k + 1..]
  {}

  /** Mapping keeps permutations. */
  lemma {:induction false} MapPermutes<A, B>(f: A -> B, s: seq<A>, t: seq<A>)
    requires multiset(s) == multiset(t)
    ensures multiset(Map(f, s)) == multiset(Map(f, t))
  {
    if s == [] {
      SameLength(s, t);
    } else {
      var k := Elsewhere(s, 0, t);
      SameWithout(s, 0, t, k);
      MapPermutes(f, s[..0] + s[1..], t[..k] + t[k + 1..]);
      MapWithout(f, s, 0);
      MapWithout(f, t, k);
      PutBack(Map(f, s), 0, Map(f, t), k);
    }
  }
}
