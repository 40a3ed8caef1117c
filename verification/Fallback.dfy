/** The winner when pruning is on. */
module Fallback {
  import opened Ranking
  import opened Halving
  import opened Pruning
  import opened Wrappers

  // With a full-budget score in hand the winner is that of the sequential run.  Without one
  // (every full-budget fit failed) the portfolio falls back to last scores; that still agrees
  // on ladders of at most three rungs, and on no longer ladder: an honestly pruned arm then
  // reports an older score than it would have shown.

  /** Kills that leave the top rung alone, of arms that were behind and would have been. */
  ghost predicate HonestKills(rd: Round, kills: seq<set<Id>>) {
    rd.Valid() && |kills| == |rd.ladder| && kills[|kills| - 1] == {} && rd.Justified(kills) && rd.Behind(kills)
  }

  lemma HonestLogs(rd: Round, logs: seq<RungLog>, pruning: bool)
    requires PrunedRun(rd, logs, pruning) && AllHonest(rd, logs)
    ensures HonestKills(rd, Killed(logs))
  {
    TopIsUntouched(rd, logs, pruning);
    HonestKillsAreJustified(rd, logs, pruning);
    KillsAreBehind(rd, logs, pruning);
  }

  /** Whatever was honestly pruned, the winner is a winner of the sequential run without
      pruning. */
  ghost predicate WinnersAgree(rd: Round)
    requires rd.Valid()
  {
    forall logs, best :: PrunedRun(rd, logs, true) && AllHonest(rd, logs) && rd.IsWinner(Killed(logs), best) ==>
      rd.IsWinner(rd.NoKills(), best)
  }

  function Last(h: seq<Observation>): Option<real> {
    if h == [] then None else Some(h[|h| - 1].score)
  }

  lemma {:induction false} LastEntriesMembers(rd: Round, kills: seq<set<Id>>, ps: seq<Id>)
    requires rd.Valid() && |kills| == |rd.ladder|
    ensures forall e :: e in rd.LastEntries(kills, ps) <==>
                        e.item in ps && Last(rd.History(kills, e.item, |kills|)) == Some(e.key)
  {
    if ps != [] {
      LastEntriesMembers(rd, kills, ps[1..]);
      assert ps == [ps[0]] + ps[1..];
    }
  }

  /** An arm that is never killed shows the same scores with and without pruning. */
  lemma {:induction false} SameHistory(rd: Round, kills: seq<set<Id>>, p: Id, r: nat)
    requires rd.Valid() && |kills| == |rd.ladder| && rd.Justified(kills) && r <= |kills|
    requires forall i :: 0 <= i < r ==> p !in kills[i]
    ensures rd.History(kills, p, r) == rd.History(rd.NoKills(), p, r)
  {
    if r > 0 {
      SameHistory(rd, kills, p, r - 1);
      SameArmsAdvance(rd, kills, r - 1);
      assert rd.NoKills()[r - 1] == {};
    }
  }

  /** Arms that have shown nothing cannot be pruned, so nothing is pruned on the first rung. */
  lemma FirstRungUntouched(rd: Round, kills: seq<set<Id>>)
    requires rd.Valid() && |kills| == |rd.ladder| && rd.Behind(kills)
    ensures kills[0] == {}
  {
    forall q ensures q !in kills[0] {
      assert !rd.ArmBehind(kills, 0, q);
    }
  }

  // ------------------------------------------------------------- at most three rungs

  /** The arm that leads the second of three rungs and then fails at full budget. */
  lemma Leader(rd: Round, kills: seq<set<Id>>, c: real) returns (a: Id, s: real)
    requires HonestKills(rd, kills) && |kills| == 3 && rd.FullEntries(kills) == []
    requires CountAbove(rd.RungScores(kills, 1), c) >= rd.ladder[1].survivors
    ensures s > c && a !in kills[1] && Last(rd.History(kills, a, 3)) == Some(s)
    ensures a in rd.Entering(kills, 1)
  {
    var alive, ran := rd.Entering(kills, 1), rd.Ran(kills, 1);
    var es := Restrict(rd.Entries(alive, 1), ran);
    CountAboveSort(es, c);
    SortIsDesc(es);
    AboveIsPrefix(SortDesc(es), c, 0);
    a, s := SortDesc(es)[0].item, SortDesc(es)[0].key;
    var j := SortMember(es, 0);
    assert es[j] in es;
    RestrictMembers(rd.Entries(alive, 1), ran);
    EntriesMembers(rd, alive, 1);
    assert rd.Entering(kills, 2)[0] == a;
    FailsAtTheTop(rd, kills, a);
  }

  lemma FailsAtTheTop(rd: Round, kills: seq<set<Id>>, a: Id)
    requires HonestKills(rd, kills) && |kills| == 3 && rd.FullEntries(kills) == []
    requires a in rd.Entering(kills, 2)
    ensures rd.run(a, 2).Failed?
    ensures rd.History(kills, a, 3) == rd.History(kills, a, 2)
  {
    var alive := rd.Entering(kills, 2);
    EntriesMembers(rd, alive, 2);
    RestrictMembers(rd.Entries(alive, 2), rd.Ran(kills, 2));
    var s := if rd.run(a, 2).Scored? then rd.run(a, 2).score else 0.0;
    assert Keyed(a, s) !in rd.FullEntries(kills);
  }

  /** A pruned arm's last score, in this run and in the sequential one. */
  lemma PrunedArmTrails(rd: Round, kills: seq<set<Id>>, q: Id)
    requires HonestKills(rd, kills) && |kills| == 3 && q in kills[1]
    ensures exists c :: Last(rd.History(kills, q, 3)) == Some(c) && Trails(rd, kills, c)
    ensures exists c :: Last(rd.History(rd.NoKills(), q, 3)) == Some(c) && Trails(rd, kills, c)
  {
    var alive, ran := rd.Entering(kills, 1), rd.Ran(kills, 1);
    FirstRungUntouched(rd, kills);
    SameHistory(rd, kills, q, 1);
    assert rd.ArmBehind(kills, 1, q);
    AdvanceSubset(rd, alive, ran, 1);
    SameArmsAdvance(rd, kills, 2);
    SameArmsAdvance(rd, kills, 1);
    assert q !in rd.Entering(kills, 2);
    var h := rd.History(kills, q, 1);
    assert rd.History(kills, q, 3) == h;
    assert Trails(rd, kills, h[|h| - 1].score);
    SequentialTrails(rd, kills, q, h);
  }

  /** `c` is below enough of the scores shown on the second rung. */
  ghost predicate Trails(rd: Round, kills: seq<set<Id>>, c: real)
    requires rd.Valid() && |kills| == 3 == |rd.ladder|
  {
    CountAbove(rd.RungScores(kills, 1), c) >= rd.ladder[1].survivors
  }

  lemma SequentialTrails(rd: Round, kills: seq<set<Id>>, q: Id, h: seq<Observation>)
    requires HonestKills(rd, kills) && |kills| == 3 && q in kills[1]
    requires h == rd.History(rd.NoKills(), q, 1) && h != [] && Trails(rd, kills, h[|h| - 1].score)
    requires rd.Entering(kills, 1) == rd.Entering(rd.NoKills(), 1)
    requires q !in rd.Entering(rd.NoKills(), 2)
    ensures exists c :: Last(rd.History(rd.NoKills(), q, 3)) == Some(c) && Trails(rd, kills, c)
  {
    var alive := rd.Entering(kills, 1);
    var h2 := rd.History(rd.NoKills(), q, 2);
    assert rd.History(rd.NoKills(), q, 3) == h2;
    if q in alive && rd.run(q, 1).Scored? {
      var c := rd.run(q, 1).score;
      EntriesMembers(rd, alive, 1);
      assert Keyed(q, c) in rd.Entries(alive, 1);
      assert rd.RungJustified(kills, 1);
      assert Last(h2) == Some(c) && Trails(rd, kills, c);
    } else {
      assert h2 == h;
      assert Last(h2) == Some(h[|h| - 1].score);
    }
  }

  lemma HistoryGoesOn(rd: Round, kills: seq<set<Id>>, a: Id)
    requires HonestKills(rd, kills) && |kills| == 3 && a !in kills[1]
    ensures rd.History(kills, a, 3) == rd.History(rd.NoKills(), a, 3)
  {
    FirstRungUntouched(rd, kills);
    SameHistory(rd, kills, a, 3);
  }

  lemma EntrantsAreArms(rd: Round, kills: seq<set<Id>>, a: Id)
    requires HonestKills(rd, kills) && |kills| == 3 && a in rd.Entering(kills, 1)
    ensures a in rd.programs
  {
    AdvanceSubset(rd, rd.programs, rd.Ran(kills, 0), 0);
  }

  /** A pruned arm's entry is beaten by that of an arm that was not pruned. */
  lemma BetterEntry(rd: Round, kills: seq<set<Id>>, other: seq<set<Id>>, e: Keyed<Id>) returns (b: Keyed<Id>)
    requires HonestKills(rd, kills) && |kills| == 3 && rd.FullEntries(kills) == []
    requires other == kills || other == rd.NoKills()
    requires e in rd.LastEntries(other, rd.programs) && e.item in kills[1]
    ensures b in rd.LastEntries(other, rd.programs) && b.key > e.key && b.item !in kills[1]
  {
    PrunedArmTrails(rd, kills, e.item);
    LastEntriesMembers(rd, other, rd.programs);
    var a, s := Leader(rd, kills, e.key);
    HistoryGoesOn(rd, kills, a);
    EntrantsAreArms(rd, kills, a);
    b := Keyed(a, s);
  }

  lemma ShallowFallback(rd: Round, kills: seq<set<Id>>, e: Keyed<Id>)
    requires HonestKills(rd, kills) && |kills| == 3 && rd.FullEntries(kills) == []
    requires IsMaximum(rd.LastEntries(kills, rd.programs), e)
    ensures IsMaximum(rd.LastEntries(rd.NoKills(), rd.programs), e)
  {
    var here, there := rd.LastEntries(kills, rd.programs), rd.LastEntries(rd.NoKills(), rd.programs);
    SharedEntries(rd, kills);
    if e.item in kills[1] {
      var b := BetterEntry(rd, kills, kills, e);
    }
    forall f | f in there ensures f.key <= e.key {
      if f.item in kills[1] {
        var b := BetterEntry(rd, kills, rd.NoKills(), f);
      }
    }
  }

  /** The two runs have the same entries for the arms that were not pruned. */
  lemma SharedEntries(rd: Round, kills: seq<set<Id>>)
    requires HonestKills(rd, kills) && |kills| == 3
    ensures forall e: Keyed<Id> :: e.item !in kills[1] ==>
              (e in rd.LastEntries(kills, rd.programs) <==> e in rd.LastEntries(rd.NoKills(), rd.programs))
  {
    LastEntriesMembers(rd, kills, rd.programs);
    LastEntriesMembers(rd, rd.NoKills(), rd.programs);
    forall e: Keyed<Id> | e.item !in kills[1]
      ensures e in rd.LastEntries(kills, rd.programs) <==> e in rd.LastEntries(rd.NoKills(), rd.programs)
    {
      HistoryGoesOn(rd, kills, e.item);
    }
  }

  lemma SomeLastScore(rd: Round, kills: seq<set<Id>>)
    requires HonestKills(rd, kills) && |kills| == 3 && rd.FullEntries(kills) == []
    ensures rd.LastEntries(kills, rd.programs) == [] <==> rd.LastEntries(rd.NoKills(), rd.programs) == []
  {
    var here, there := rd.LastEntries(kills, rd.programs), rd.LastEntries(rd.NoKills(), rd.programs);
    SharedEntries(rd, kills);
    if here != [] {
      var e := here[0];
      if e.item in kills[1] { e := BetterEntry(rd, kills, kills, e); }
      assert e in there;
    }
    if there != [] {
      var e := there[0];
      if e.item in kills[1] { e := BetterEntry(rd, kills, rd.NoKills(), e); }
      assert e in here;
    }
  }

  /** On at most two rungs nothing can be pruned at all. */
  lemma TwoRungs(rd: Round, kills: seq<set<Id>>)
    requires HonestKills(rd, kills) && |kills| <= 2
    ensures kills == rd.NoKills()
  {
    FirstRungUntouched(rd, kills);
  }

  lemma SameWinner(rd: Round, kills: seq<set<Id>>, best: Option<Keyed<Id>>)
    requires HonestKills(rd, kills) && rd.IsWinner(kills, best)
    requires rd.FullEntries(rd.NoKills()) != [] || |rd.ladder| <= 3
    ensures rd.IsWinner(rd.NoKills(), best)
  {
    SameFullScores(rd, kills);
    if |rd.ladder| <= 2 {
      TwoRungs(rd, kills);
    } else if rd.FullEntries(kills) == [] {
      SomeLastScore(rd, kills);
      if rd.LastEntries(kills, rd.programs) != [] { ShallowFallback(rd, kills, best.value); }
    }
  }

  /** Honest pruning does not change the winner when some arm has a full-budget score, nor on
      a ladder of at most three rungs. */
  lemma WinnerUnchanged(rd: Round, logs: seq<RungLog>, pruning: bool, best: Option<Keyed<Id>>)
    requires PrunedRun(rd, logs, pruning) && AllHonest(rd, logs) && rd.IsWinner(Killed(logs), best)
    requires rd.FullEntries(rd.NoKills()) != [] || |rd.ladder| <= 3
    ensures rd.IsWinner(rd.NoKills(), best)
  {
    HonestLogs(rd, logs, pruning);
    SameWinner(rd, Killed(logs), best);
  }
}
