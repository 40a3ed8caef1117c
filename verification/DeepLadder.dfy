/** Why honest pruning stops being safe above three rungs. */
module DeepLadder {
  import opened Ladder
  import opened Ranking
  import opened Halving
  import opened Pruning
  import opened Fallback
  import opened Wrappers

  // On every schedule of four rungs or more there is a round in which one kill, made by the
  // rule and honest, changes the winner.  It needs enough arms for two to survive the first
  // rung, and for the schedule not to collapse.

  /** All arms start level.  The first `lead` of them shine on the second rung, collapse on the
      next, and fail at full budget; the next arm would show a decent score on the second. */
  function DeepRun(rungs: nat, lead: int): (Id, nat) -> Outcome {
    (p: Id, r: nat) =>
      if r == 0 then Scored(0.0)
      else if r == 1 then Scored(if p < lead then 1.0 else if p == lead then 0.2 else 0.0)
      else if r + 1 < rungs then Scored(0.0)
      else Failed("fit")
  }

  function First(n: nat): (s: seq<Id>)
    ensures |s| == n && (forall i :: 0 <= i < n ==> s[i] == i) && forall p: Id :: p in s <==> p < n
  {
    var s := seq(n, i requires 0 <= i < n => i);
    assert forall p: Id :: p < n ==> p in s by {
      forall p: Id | p < n ensures p in s { assert s[p] == p; }
    }
    s
  }

  /** The arms that survive the second rung. */
  function Lead(rd: Round): int
    requires |rd.ladder| >= 2
  {
    rd.ladder[1].survivors
  }

  function Deep(n: nat, ladder: seq<Rung>): Round
    requires |ladder| >= 2
  {
    Round(First(n), ladder, DeepRun(|ladder|, ladder[1].survivors))
  }

  /** Arms that behave like this on a schedule that starts small and cuts on both of its first
      two rungs. */
  ghost predicate DeepRound(rd: Round) {
    && rd.Valid() && |rd.ladder| >= 4
    && rd == Deep(|rd.programs|, rd.ladder)
    && Lead(rd) < rd.ladder[0].survivors <= |rd.programs|
    && rd.ladder[0].budget <= 0.125
  }

  /** At most the arm behind the leaders is pruned, on the second rung. */
  ghost predicate OneKillAtMost(rd: Round, kills: seq<set<Id>>)
    requires DeepRound(rd)
  {
    && |kills| == |rd.ladder| && kills[1] <= {Lead(rd)}
    && forall i :: 0 <= i < |kills| && i != 1 ==> kills[i] == {}
  }

  // --------------------------------------------------------------- who enters which rung

  lemma {:induction false} AllEntries(rd: Round, alive: seq<Id>, r: nat)
    requires forall p :: p in alive ==> rd.run(p, r).Scored?
    ensures |rd.Entries(alive, r)| == |alive|
    ensures forall i :: 0 <= i < |alive| ==> rd.Entries(alive, r)[i] == Keyed(alive[i], rd.run(alive[i], r).score)
  {
    if alive != [] { AllEntries(rd, alive[1..], r); }
  }

  /** When the scores of a rung already come in order, its first arms are the ones that
      advance, whoever of the others is left out. */
  lemma FirstAdvance(rd: Round, n: nat, ran: set<Id>, r: nat, k: nat)
    requires r < |rd.ladder| && rd.ladder[r].survivors == k >= 1 && k <= n
    requires forall p :: p in First(n) ==> rd.run(p, r).Scored?
    requires Desc(rd.Entries(First(n), r)) && forall p :: p in First(k) ==> p in ran
    ensures rd.Advance(First(n), ran, r) == First(k)
  {
    var es := rd.Entries(First(n), r);
    AllEntries(rd, First(n), r);
    RestrictSort(es, ran);
    SortedStays(es);
    PrefixIsTop(es, ran, k);
    assert Items(Top(es, k)) == First(k);
  }

  lemma SecondRung(rd: Round, kills: seq<set<Id>>)
    requires DeepRound(rd) && OneKillAtMost(rd, kills)
    ensures rd.Entering(kills, 1) == First(rd.ladder[0].survivors)
  {
    AllEntries(rd, rd.programs, 0);
    EnteringIs(rd, kills, 0);
    FirstAdvance(rd, |rd.programs|, Unkilled(rd.programs, {}), 0, rd.ladder[0].survivors);
  }

  lemma SecondEntries(rd: Round)
    requires DeepRound(rd)
    ensures var es := rd.Entries(First(rd.ladder[0].survivors), 1);
      && |es| == rd.ladder[0].survivors && Desc(es)
      && forall i :: 0 <= i < |es| ==> es[i] == Keyed(i, if i < Lead(rd) then 1.0 else if i == Lead(rd) then 0.2 else 0.0)
  {
    AllEntries(rd, First(rd.ladder[0].survivors), 1);
  }

  lemma ThirdRung(rd: Round, kills: seq<set<Id>>)
    requires DeepRound(rd) && OneKillAtMost(rd, kills)
    ensures rd.Entering(kills, 2) == First(Lead(rd))
  {
    var n := rd.ladder[0].survivors;
    SecondRung(rd, kills);
    SecondEntries(rd);
    EnteringIs(rd, kills, 1);
    FirstAdvance(rd, n, Unkilled(First(n), kills[1]), 1, Lead(rd));
  }

  /** Only the leaders are left on later rungs. */
  lemma {:induction false} LaterRungs(rd: Round, kills: seq<set<Id>>, r: nat)
    requires DeepRound(rd) && OneKillAtMost(rd, kills) && 2 <= r <= |rd.ladder|
    ensures forall p :: p in rd.Entering(kills, r) ==> p < Lead(rd)
  {
    if r == 2 {
      ThirdRung(rd, kills);
    } else {
      LaterRungs(rd, kills, r - 1);
      EnteringIs(rd, kills, r - 1);
      AdvanceSubset(rd, rd.Entering(kills, r - 1), rd.Ran(kills, r - 1), r - 1);
    }
  }

  lemma NobodyAtTheTop(rd: Round, kills: seq<set<Id>>)
    requires DeepRound(rd) && OneKillAtMost(rd, kills)
    ensures rd.FullEntries(kills) == []
  {
    var top := |rd.ladder| - 1;
    FullEntriesAre(rd, kills, top);
    forall e ensures e !in rd.FullEntries(kills) {
      assert e == Keyed(e.item, e.key);
    }
    NoMembers(rd.FullEntries(kills));
  }

  // ------------------------------------------------------------------- what they show

  lemma ShownNext(rd: Round, kills: seq<set<Id>>, p: Id, r: nat)
    requires rd.Valid() && r < |kills| <= |rd.ladder|
    ensures rd.History(kills, p, r + 1) == rd.History(kills, p, r) +
      (if p in rd.Ran(kills, r) then Seen(rd.run(p, r), rd.ladder[r].budget) else [])
  {
    assert rd.Shows(kills, p, r) == if p in rd.Ran(kills, r) then Seen(rd.run(p, r), rd.ladder[r].budget) else [];
  }

  lemma FirstScore(rd: Round, kills: seq<set<Id>>, p: Id)
    requires DeepRound(rd) && OneKillAtMost(rd, kills) && p in rd.programs
    ensures rd.History(kills, p, 1) == [Observation(0.0, rd.ladder[0].budget)]
  {
    ShownNext(rd, kills, p, 0);
    assert rd.Entering(kills, 0) == rd.programs;
    assert p in rd.Ran(kills, 0);
  }

  /** Arms that do not lead show nothing after the second rung. */
  lemma {:induction false} OutForGood(rd: Round, kills: seq<set<Id>>, p: Id, r: nat)
    requires DeepRound(rd) && OneKillAtMost(rd, kills) && p >= Lead(rd) && 2 <= r <= |rd.ladder|
    ensures rd.History(kills, p, r) == rd.History(kills, p, 2)
  {
    if r > 2 {
      OutForGood(rd, kills, p, r - 1);
      LaterRungs(rd, kills, r - 1);
      ShownNext(rd, kills, p, r - 1);
    }
  }

  lemma OthersShow(rd: Round, kills: seq<set<Id>>, p: Id)
    requires DeepRound(rd) && OneKillAtMost(rd, kills) && p in rd.programs && p >= Lead(rd)
    ensures Last(rd.History(kills, p, |rd.ladder|)) == Some(if p == Lead(rd) && kills[1] == {} then 0.2 else 0.0)
  {
    SecondRung(rd, kills);
    FirstScore(rd, kills, p);
    ShownNext(rd, kills, p, 1);
    OutForGood(rd, kills, p, |rd.ladder|);
  }

  /** From the third rung on a leader shows nothing but 0.0. */
  lemma {:induction false} LeadersCollapse(rd: Round, kills: seq<set<Id>>, p: Id, r: nat)
    requires DeepRound(rd) && OneKillAtMost(rd, kills) && p < Lead(rd) && 3 <= r <= |rd.ladder|
    ensures Last(rd.History(kills, p, r)) == Some(0.0)
  {
    ShownNext(rd, kills, p, r - 1);
    if r == 3 {
      ThirdRung(rd, kills);
      assert p in rd.Ran(kills, 2);
    } else {
      LeadersCollapse(rd, kills, p, r - 1);
    }
    LastOf(rd.History(kills, p, r - 1), if p in rd.Ran(kills, r - 1) then Seen(rd.run(p, r - 1), rd.ladder[r - 1].budget) else []);
  }

  lemma LastOf(h: seq<Observation>, more: seq<Observation>)
    ensures Last(h + more) == if more == [] then Last(h) else Last(more)
  {}

  // ------------------------------------------------------------------------ the kill

  function Leaders(lead: nat): (s: set<Id>)
    ensures forall p: Id :: p in s <==> p < lead
  {
    set p | p in First(lead)
  }

  /** The arm behind the leaders is killed on the second rung, and nobody else. */
  function DeepKills(rd: Round): (kills: seq<set<Id>>)
    requires DeepRound(rd)
    ensures OneKillAtMost(rd, kills) && kills[1] == {Lead(rd)}
  {
    seq(|rd.ladder|, r => if r == 1 then {Lead(rd)} else {})
  }

  /** Everybody else is launched at once; on the second rung the leaders settle first, and the arm
      behind them is judged by them. */
  ghost function DeepLog(rd: Round): (logs: seq<RungLog>)
    requires DeepRound(rd)
    ensures |logs| == |rd.ladder|
  {
    seq(|rd.ladder|, r requires 0 <= r < |rd.ladder| => DeepRung(rd, r))
  }

  ghost function DeepRung(rd: Round, r: nat): RungLog
    requires DeepRound(rd) && r < |rd.ladder|
  {
    var starts := map p | p in rd.Ran(DeepKills(rd), r) :: Start(0, {});
    if r == 1 then RungLog([Leaders(Lead(rd))], starts, map[Lead(rd) := 0]) else RungLog([], starts, map[])
  }

  lemma DeepLogKills(rd: Round)
    requires DeepRound(rd)
    ensures Killed(DeepLog(rd)) == DeepKills(rd)
  {
    forall r | 0 <= r < |rd.ladder| ensures DeepRung(rd, r).kills.Keys == DeepKills(rd)[r] {}
    assert forall r :: 0 <= r < |rd.ladder| ==> DeepLog(rd)[r] == DeepRung(rd, r);
  }

  /** The scores seen when the kill is made. */
  lemma ScoresAtTheKill(rd: Round, kills: seq<set<Id>>)
    requires DeepRound(rd) && OneKillAtMost(rd, kills)
    ensures ScoresBefore(rd, kills, 1) + Scores(rd, 1, Leaders(Lead(rd))) == {0.0, 1.0}
  {
    assert rd.Entering(kills, 0) == rd.programs;
    assert ScoresBefore(rd, kills, 0) == {};
    assert 0 in rd.Ran(kills, 0);
    assert Scores(rd, 0, rd.Ran(kills, 0)) == {0.0} by { assert rd.run(0, 0) == Scored(0.0); }
    assert Scores(rd, 1, Leaders(Lead(rd))) == {1.0} by {
      assert 0 in Leaders(Lead(rd)) && rd.run(0, 1) == Scored(1.0);
    }
  }

  lemma {:induction false} AllAbove(s: seq<Keyed<Id>>, c: real)
    requires forall e :: e in s ==> e.key > c
    ensures CountAbove(s, c) == |s|
  {
    if s != [] { AllAbove(s[1..], c); }
  }

  lemma LeadersAbove(rd: Round, c: real)
    requires DeepRound(rd) && c < 1.0
    ensures CountAbove(Restrict(rd.Entries(First(rd.ladder[0].survivors), 1), Leaders(Lead(rd))), c) >= Lead(rd)
  {
    var es, settled := rd.Entries(First(rd.ladder[0].survivors), 1), Leaders(Lead(rd));
    SecondEntries(rd);
    RestrictPrefix(es, settled, Lead(rd));
    RestrictMembers(es, settled);
    AllAbove(Restrict(es, settled), c);
  }

  /** The kill is one the rule makes, and an honest one. */
  lemma KillIsMade(rd: Round, kills: seq<set<Id>>)
    requires DeepRound(rd) && OneKillAtMost(rd, kills)
    ensures Lead(rd) in rd.Entering(kills, 1) && rd.History(kills, Lead(rd), 1) == [Observation(0.0, rd.ladder[0].budget)]
    ensures OutOfReach(rd, rd.Entering(kills, 1), 1, ScoresBefore(rd, kills, 1), rd.History(kills, Lead(rd), 1), Leaders(Lead(rd)))
    ensures HonestKill(rd, 1, Lead(rd), ScoresBefore(rd, kills, 1), rd.History(kills, Lead(rd), 1), Leaders(Lead(rd)))
  {
    FirstScore(rd, kills, Lead(rd));
    SecondRung(rd, kills);
    ScoresAtTheKill(rd, kills);
    KilledFor(rd, ScoresBefore(rd, kills, 1), [Observation(0.0, rd.ladder[0].budget)]);
  }

  lemma KilledFor(rd: Round, before: set<real>, h: seq<Observation>)
    requires DeepRound(rd) && h == [Observation(0.0, rd.ladder[0].budget)]
    requires before + Scores(rd, 1, Leaders(Lead(rd))) == {0.0, 1.0}
    ensures OutOfReach(rd, First(rd.ladder[0].survivors), 1, before, h, Leaders(Lead(rd)))
    ensures HonestKill(rd, 1, Lead(rd), before, h, Leaders(Lead(rd)))
  {
    var scores := before + Scores(rd, 1, Leaders(Lead(rd)));
    assert 0.0 in scores && 1.0 in scores;
    WidthOf(scores, 0.0, 1.0);
    LeadersAbove(rd, 0.5 * ((1.0 - rd.ladder[0].budget) + (1.0 - rd.ladder[1].budget)));
  }

  lemma DeepRungIsMade(rd: Round, r: nat)
    requires DeepRound(rd) && r < |rd.ladder|
    ensures RungAt(rd, DeepKills(rd), r, DeepRung(rd, r), true)
  {
    var kills := DeepKills(rd);
    if r == 1 {
      KillIsMade(rd, kills);
      LeadersRan(rd, kills);
      OneJudgement(rd, EntryOf(rd, kills, 1), rd.Ran(kills, 1), Lead(rd), Leaders(Lead(rd)));
    } else {
      NoJudgement(rd, r, EntryOf(rd, kills, r), rd.Ran(kills, r));
    }
  }

  lemma NoJudgement(rd: Round, r: nat, e: Entry, ran: set<Id>)
    requires r < |rd.ladder| && ran <= Unkilled(e.alive, {})
    ensures RungRun(rd, r, e, RungLog([], map p | p in ran :: Start(0, {}), map[]), rd.ladder[r].budget < 1.0)
  {
    var log := RungLog([], map p | p in ran :: Start(0, {}), map[]);
    forall p | p in log.starts ensures StartedAt(rd, r, e, p, log.judged, log.starts[p], rd.ladder[r].budget < 1.0) {}
  }

  lemma OneJudgement(rd: Round, e: Entry, ran: set<Id>, q: Id, settled: set<Id>)
    requires |rd.ladder| > 1 && ran <= Unkilled(e.alive, {}) && settled <= ran && q in e.alive
    requires Condemned(rd, 1, e, q, settled) && rd.ladder[1].budget < 1.0
    ensures RungRun(rd, 1, e, RungLog([settled], map p | p in ran :: Start(0, {}), map[q := 0]), true)
  {
    var log := RungLog([settled], map p | p in ran :: Start(0, {}), map[q := 0]);
    forall p | p in log.starts ensures StartedAt(rd, 1, e, p, log.judged, log.starts[p], true) {}
    assert KilledAt(rd, 1, e, q, log.judged, 0);
  }

  lemma LeadersRan(rd: Round, kills: seq<set<Id>>)
    requires DeepRound(rd) && OneKillAtMost(rd, kills)
    ensures Leaders(Lead(rd)) <= rd.Ran(kills, 1)
  {
    SecondRung(rd, kills);
  }

  lemma DeepLogIsHonest(rd: Round)
    requires DeepRound(rd)
    ensures PrunedRun(rd, DeepLog(rd), true) && AllHonest(rd, DeepLog(rd))
  {
    var logs := DeepLog(rd);
    DeepLogKills(rd);
    forall r | 0 <= r < |logs| ensures RungAt(rd, Killed(logs), r, logs[r], true) { DeepRungIsMade(rd, r); }
    KillIsMade(rd, DeepKills(rd));
    forall r, p | 0 <= r < |logs| && p in logs[r].kills ensures HonestAt(rd, Killed(logs), r, p, logs[r]) {
      assert r == 1 && p == Lead(rd);
    }
  }

  // ------------------------------------------------------------------- the two winners

  lemma PrunedWinner(rd: Round, kills: seq<set<Id>>)
    requires DeepRound(rd) && OneKillAtMost(rd, kills) && kills[1] != {}
    ensures IsMaximum(rd.LastEntries(kills, rd.programs), Keyed(0, 0.0))
  {
    LastEntriesMembers(rd, kills, rd.programs);
    LeadersCollapse(rd, kills, 0, |rd.ladder|);
    forall e | e in rd.LastEntries(kills, rd.programs) ensures e.key <= 0.0 {
      if e.item < Lead(rd) {
        LeadersCollapse(rd, kills, e.item, |rd.ladder|);
      } else {
        OthersShow(rd, kills, e.item);
      }
    }
  }

  lemma SequentialBeats(rd: Round)
    requires DeepRound(rd)
    ensures Keyed(Lead(rd), 0.2) in rd.LastEntries(rd.NoKills(), rd.programs)
  {
    LastEntriesMembers(rd, rd.NoKills(), rd.programs);
    OthersShow(rd, rd.NoKills(), Lead(rd));
  }

  /** The kill changes the winner: the pruned run reports 0.0, the sequential one 0.2. */
  lemma DeepDisagrees(rd: Round)
    requires DeepRound(rd)
    ensures !WinnersAgree(rd)
  {
    var logs := DeepLog(rd);
    DeepLogIsHonest(rd);
    DeepLogKills(rd);
    NobodyAtTheTop(rd, Killed(logs));
    NobodyAtTheTop(rd, rd.NoKills());
    PrunedWinner(rd, Killed(logs));
    SequentialBeats(rd);
    assert rd.IsWinner(Killed(logs), Some(Keyed(0, 0.0)));
    assert !rd.IsWinner(rd.NoKills(), Some(Keyed(0, 0.0)));
  }

  // ------------------------------------------------------------- every longer schedule

  /** Enough arms for a schedule of more than one rung on which two arms survive the first. */
  function ArmCount(cfg: Config): nat {
    var n := Eta(cfg).Floor + 1;
    if n < cfg.minRungArms then cfg.minRungArms else n
  }

  lemma SurvivorCounts(eta: real, n: nat)
    requires eta >= 2.0 && n as real > eta
    ensures 1 <= Left(n, eta, 2) < Left(n, eta, 1) <= n
  {
    LeftIsShrunk(n, eta, 0);
    LeftIsShrunk(n, eta, 1);
    TwoAreLeft(n, eta);
    FewerAreLeft(Left(n, eta, 1), eta);
  }

  lemma TwoAreLeft(n: int, eta: real)
    requires eta >= 2.0 && n as real > eta
    ensures 2 <= Shrink(n, eta) <= n
  {
    ShrinkBounds(n, eta);
    Reals.QuotientAtMost(n as real, eta, 1.0);
    CeilLeast(n as real / eta, 1);
  }

  lemma FewerAreLeft(s: int, eta: real)
    requires eta >= 2.0 && s >= 2
    ensures 1 <= Shrink(s, eta) < s
  {
    ShrinkBounds(s, eta);
    FewerNextTime(s, eta, (s - 1) as real * eta);
    Reals.QuotientAtMost(s as real, eta, (s - 1) as real);
    CeilLeast(s as real / eta, s - 1);
  }

  lemma FewerNextTime(s: int, eta: real, p: real)
    requires s >= 2 && eta >= 2.0 && p == (s - 1) as real * eta
    ensures s as real <= p
  {
    Reals.Mono(2.0, eta, (s - 1) as real);
  }

  ghost predicate DeepSetting(cfg: Config, ladder: seq<Rung>) {
    LadderFor(ArmCount(cfg), cfg, ladder) && |ladder| >= 4
  }

  lemma SmallFirstBudget(cfg: Config, ladder: seq<Rung>)
    requires DeepSetting(cfg, ladder)
    ensures 0.0 < ladder[0].budget <= 0.125
  {
    var x, eta := MinFrac(cfg), Eta(cfg);
    LowRungs(cfg, 0);
    StepsBracket(x, eta, Steps(x, eta));
    GeoGrows(x, eta, 0, 1);
    GeoGrows(x, eta, 1, 2);
    if Steps(x, eta) > 4 { GeoGrows(x, eta, 3, Steps(x, eta) - 1); }
    GeoGrows(x, eta, 2, 3);
  }

  /** With enough arms every schedule of four rungs or more is one on which pruning misleads. */
  lemma DeepOnEverySchedule(cfg: Config, ladder: seq<Rung>)
    requires DeepSetting(cfg, ladder)
    ensures DeepRound(Deep(ArmCount(cfg), ladder))
  {
    LadderClimbs(ArmCount(cfg), cfg, ladder);
    LadderNarrows(ArmCount(cfg), cfg, ladder);
    SurvivorCounts(Eta(cfg), ArmCount(cfg));
    SmallFirstBudget(cfg, ladder);
  }

  /** Honest pruning never changes the winner of a round, whatever the arms do and however many
      there are, exactly when the configuration's schedule has at most three rungs. */
  lemma PruningSafeExactlyUpToThreeRungs(cfg: Config)
    ensures (forall rd: Round :: LadderFor(|rd.programs|, cfg, rd.ladder) && rd.Valid() ==> WinnersAgree(rd))
       <==> RungCount(cfg) <= 3
  {
    if RungCount(cfg) <= 3 {
      forall rd: Round | LadderFor(|rd.programs|, cfg, rd.ladder) && rd.Valid() ensures WinnersAgree(rd) {
        ShallowAgrees(rd);
      }
    } else {
      if Merged(cfg) { MergedHasTwo(cfg); }
      var ladder := BuiltRows(ArmCount(cfg), cfg);
      DeepOnEverySchedule(cfg, ladder);
      var rd := Deep(ArmCount(cfg), ladder);
      DeepDisagrees(rd);
    }
  }

  lemma ShallowAgrees(rd: Round)
    requires rd.Valid() && |rd.ladder| <= 3
    ensures WinnersAgree(rd)
  {
    forall logs, best | PrunedRun(rd, logs, true) && AllHonest(rd, logs) && rd.IsWinner(Killed(logs), best)
      ensures rd.IsWinner(rd.NoKills(), best)
    {
      WinnerUnchanged(rd, logs, true, best);
    }
  }

  lemma BuiltRows(n: nat, cfg: Config) returns (ladder: seq<Rung>)
    requires !TooFew(n, cfg) && !Merged(cfg)
    ensures LadderFor(n, cfg, ladder) && |ladder| == RungCount(cfg)
  {
    ladder := seq(RungCount(cfg), r requires 0 <= r < RungCount(cfg) => PlainRung(n, cfg, r));
  }
}
