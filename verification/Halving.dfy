/** Successive halving as a function of the arms that were pruned. */
module Halving {
  import opened Ranking
  import opened Ladder
  import opened Wrappers

  // A concurrent round is nondeterministic: launch order, worker count and completion
  // order vary.  All of that can only show through one thing, the set of pending arms
  // killed unrun at each rung.  Everything a round computes is defined here as a function
  // of those sets (`kills`), so "no pruning" is the sequential reference run.

  /** Program ids; only compared for equality. */
  type Id = nat

  /** What running one arm on one rung's budget yields: a finite validation score, or a
      failure (executor error, wrong prediction count, scorer error, non-finite score). */
  datatype Outcome = Scored(score: real) | Failed(kind: string)

  datatype Observation = Observation(score: real, budget: real)

  datatype ArmRecord = ArmRecord(
    ok: bool,
    valScore: Option<real>,
    bestRungScore: Option<real>,
    reachedRung: int,
    killedEarly: bool,
    errorKind: string)

  const FRESH_RECORD := ArmRecord(true, None, None, -1, false, "")

  /** One round's fixed data: the arms, the schedule, and what each run would yield. */
  datatype Round = Round(programs: seq<Id>, ladder: seq<Rung>, run: (Id, nat) -> Outcome) {

    /** What `BuildLadder` delivers for at least one arm. */
    ghost predicate Valid() {
      && |ladder| >= 1
      && ladder[|ladder| - 1].budget == 1.0
      && (forall i :: 0 <= i < |ladder| ==> ladder[i].survivors >= 1)
      && (forall i :: 0 <= i < |ladder| - 1 ==> 0.0 < ladder[i].budget < 1.0)
    }

    /** The arms of `alive` that score on rung `r`, with their scores, in order. */
    function Entries(alive: seq<Id>, r: nat): seq<Keyed<Id>> {
      if alive == [] then []
      else match run(alive[0], r)
        case Scored(s) => [Keyed(alive[0], s)] + Entries(alive[1..], r)
        case Failed(_) => Entries(alive[1..], r)
    }

    /** The top arms of a rung when the arms in `ran` were actually run. */
    function Advance(alive: seq<Id>, ran: set<Id>, r: nat): seq<Id>
      requires r < |ladder| && ladder[r].survivors >= 1
    {
      Items(Top(SortDesc(Restrict(Entries(alive, r), ran)), ladder[r].survivors))
    }

    /** The arms that enter rung `r`; `r == |ladder|` means after the last rung. */
    ghost function Entering(kills: seq<set<Id>>, r: nat): seq<Id>
      requires Valid() && r <= |kills| <= |ladder|
      decreases r, 0
    {
      if r == 0 then programs else Leaving(kills, r - 1)
    }

    /** The arms that rung `r` lets through.  The cut is a function of its own so that the
        prover ranks a rung only where a proof mentions `Cut`. */
    ghost function Leaving(kills: seq<set<Id>>, r: nat): seq<Id>
      requires Valid() && r < |kills| <= |ladder|
      decreases r, 2
    {
      Cut(kills, r)
    }

    ghost function Cut(kills: seq<set<Id>>, r: nat): seq<Id>
      requires Valid() && r < |kills| <= |ladder|
      decreases r, 1
    {
      var alive := Entering(kills, r);
      Advance(alive, Unkilled(alive, kills[r]), r)
    }

    /** The arms run on rung `r`. */
    ghost function Ran(kills: seq<set<Id>>, r: nat): set<Id>
      requires Valid() && r < |kills| <= |ladder|
    {
      Unkilled(Entering(kills, r), kills[r])
    }

    /** The validation scores an arm has shown on the first `r` rungs. */
    ghost function History(kills: seq<set<Id>>, p: Id, r: nat): seq<Observation>
      requires Valid() && r <= |kills| <= |ladder|
    {
      if r == 0 then [] else History(kills, p, r - 1) + Shows(kills, p, r - 1)
    }

    ghost function Shows(kills: seq<set<Id>>, p: Id, r: nat): seq<Observation>
      requires Valid() && r < |kills| <= |ladder|
    {
      if p in Ran(kills, r) then Seen(run(p, r), ladder[r].budget) else []
    }

    /** An arm's record after the first `r` rungs. */
    ghost function Record(kills: seq<set<Id>>, p: Id, r: nat): ArmRecord
      requires Valid() && r <= |kills| <= |ladder|
      decreases r, 0
    {
      if r == 0 then FRESH_RECORD else NextRecord(kills, p, r - 1)
    }

    ghost function NextRecord(kills: seq<set<Id>>, p: Id, r: nat): ArmRecord
      requires Valid() && r < |kills| <= |ladder|
      decreases r, 1
    {
      RungRecord(r, Entering(kills, r), kills[r], Leaving(kills, r), Record(kills, p, r), p)
    }

    /** The record of arm `p` once rung `r` is over. */
    ghost function RungRecord(r: nat, alive: seq<Id>, killed: set<Id>, advance: seq<Id>, rec: ArmRecord, p: Id): ArmRecord
      requires r < |ladder|
    {
      if p in alive then AfterRung(rec, p in killed, p in advance, run(p, r), r, ladder[r].budget) else rec
    }

    /** The scores shown on rung `r`, in the order the arms entered it. */
    ghost function RungScores(kills: seq<set<Id>>, r: nat): seq<Keyed<Id>>
      requires Valid() && r < |kills| <= |ladder|
    {
      Restrict(Entries(Entering(kills, r), r), Ran(kills, r))
    }

    /** The arms that reached the full budget, with their full-budget scores. */
    ghost function FullEntries(kills: seq<set<Id>>): seq<Keyed<Id>>
      requires Valid() && |kills| == |ladder|
    {
      RungScores(kills, |ladder| - 1)
    }

    /** The last score each arm has shown, for the arms that have shown one. */
    ghost function LastEntries(kills: seq<set<Id>>, ps: seq<Id>): seq<Keyed<Id>>
      requires Valid() && |kills| == |ladder|
    {
      if ps == [] then [] else LastEntry(ps[0], History(kills, ps[0], |ladder|)) + LastEntries(kills, ps[1..])
    }

    /** The arm a round may return: best at full budget if any arm got there, else best
        by last score. */
    ghost predicate IsWinner(kills: seq<set<Id>>, best: Option<Keyed<Id>>)
      requires Valid() && |kills| == |ladder|
    {
      if FullEntries(kills) != [] then best.Some? && IsMaximum(FullEntries(kills), best.value)
      else if LastEntries(kills, programs) != [] then best.Some? && IsMaximum(LastEntries(kills, programs), best.value)
      else best.None?
    }

    /** Every killed arm has enough arms of its rung strictly above what it would have
        scored. */
    ghost predicate Justified(kills: seq<set<Id>>)
      requires Valid() && |kills| <= |ladder|
    {
      forall r :: 0 <= r < |kills| ==> RungJustified(kills, r)
    }

    ghost predicate RungJustified(kills: seq<set<Id>>, r: nat)
      requires Valid() && r < |kills| <= |ladder|
    {
      Outscored(Entries(Entering(kills, r), r), Ran(kills, r), ladder[r].survivors)
    }

    /** Every killed arm had shown a score, and enough arms of its rung went on to show a
        strictly better one on that rung. */
    ghost predicate Behind(kills: seq<set<Id>>)
      requires Valid() && |kills| <= |ladder|
    {
      forall r, q {:trigger ArmBehind(kills, r, q)} :: 0 <= r < |kills| && q in kills[r] ==> ArmBehind(kills, r, q)
    }

    ghost predicate ArmBehind(kills: seq<set<Id>>, r: nat, q: Id)
      requires Valid() && r < |kills| <= |ladder|
    {
      LastScoreBehind(RungScores(kills, r), History(kills, q, r), ladder[r].survivors)
    }

    ghost function NoKills(): seq<set<Id>> {
      seq(|ladder|, i => {})
    }
  }

  ghost predicate LastScoreBehind(ran: seq<Keyed<Id>>, h: seq<Observation>, k: int) {
    h != [] && CountAbove(ran, h[|h| - 1].score) >= k
  }

  /** The last of the scores an arm has shown, if it has shown any. */
  function LastEntry(p: Id, h: seq<Observation>): seq<Keyed<Id>> {
    if h == [] then [] else [Keyed(p, h[|h| - 1].score)]
  }

  /** The arms of `alive` that are not killed. */
  function Unkilled(alive: seq<Id>, killed: set<Id>): set<Id> {
    (set p | p in alive) - killed
  }

  function Seen(o: Outcome, budget: real): seq<Observation> {
    match o
    case Scored(s) => [Observation(s, budget)]
    case Failed(_) => []
  }

  function Better(a: Option<real>, s: real): Option<real> {
    if a.Some? && a.value >= s then a else Some(s)
  }

  /** The record of an arm that was run on rung `r`. */
  function AfterRun(rec: ArmRecord, o: Outcome, r: nat, budget: real): ArmRecord {
    match o
    case Failed(kind) => rec.(ok := false, errorKind := kind, reachedRung := r)
    case Scored(s) =>
      rec.(reachedRung := r,
           bestRungScore := Better(rec.bestRungScore, s),
           valScore := if budget >= 1.0 then Some(s) else rec.valScore)
  }

  /** The record of a pending arm that was pruned on rung `r`. */
  function AfterKill(rec: ArmRecord, r: nat): ArmRecord {
    rec.(killedEarly := true, reachedRung := r)
  }

  /** The record of an arm that entered rung `r`, once the rung is over. */
  function AfterRung(rec: ArmRecord, killed: bool, advances: bool, o: Outcome, r: nat, budget: real): ArmRecord {
    if killed then AfterKill(rec, r)
    else
      var ranRec := AfterRun(rec, o, r, budget);
      if !advances && o.Scored? && budget < 1.0 then ranRec.(killedEarly := true) else ranRec
  }

  ghost predicate IsMaximum(s: seq<Keyed<Id>>, best: Keyed<Id>) {
    best in s && forall e :: e in s ==> e.key <= best.key
  }

  // ------------------------------------------------------------- pruning changes nothing

  lemma {:induction false} EntriesMembers(rd: Round, alive: seq<Id>, r: nat)
    ensures forall e :: e in rd.Entries(alive, r) <==> e.item in alive && rd.run(e.item, r) == Scored(e.key)
  {
    if alive != [] {
      EntriesMembers(rd, alive[1..], r);
      assert alive == [alive[0]] + alive[1..];
    }
  }

  lemma ScoredRestricted(rd: Round, alive: seq<Id>, ran: set<Id>, r: nat)
    ensures forall p, s :: Keyed(p, s) in Restrict(rd.Entries(alive, r), ran) <==>
                           p in alive && p in ran && rd.run(p, r) == Scored(s)
  {
    EntriesMembers(rd, alive, r);
    RestrictMembers(rd.Entries(alive, r), ran);
  }

  /** Killing outscored arms leaves the arms that advance unchanged. */
  lemma KillsInvisible(rd: Round, alive: seq<Id>, ran: set<Id>, r: nat)
    requires r < |rd.ladder| && rd.ladder[r].survivors >= 1
    requires Outscored(rd.Entries(alive, r), ran, rd.ladder[r].survivors)
    ensures rd.Advance(alive, ran, r) == rd.Advance(alive, Unkilled(alive, {}), r)
  {
    var es := rd.Entries(alive, r);
    TopUnchanged(es, ran, rd.ladder[r].survivors);
    EntriesMembers(rd, alive, r);
    RestrictAll(es, Unkilled(alive, {}));
  }

  lemma {:induction false} CountMonotone(s: seq<Keyed<Id>>, a: set<Id>, b: set<Id>, c: real)
    requires a <= b
    ensures CountAbove(Restrict(s, a), c) <= CountAbove(Restrict(s, b), c)
  {
    if s != [] {
      CountMonotone(s[1..], a, b, c);
      assert s[0].item in a ==> Restrict(s, a)[1..] == Restrict(s[1..], a);
      assert s[0].item in b ==> Restrict(s, b)[1..] == Restrict(s[1..], b);
    }
  }

  lemma EnteringIs(rd: Round, kills: seq<set<Id>>, r: nat)
    requires rd.Valid() && r < |kills| <= |rd.ladder|
    ensures rd.Entering(kills, r + 1) == rd.Advance(rd.Entering(kills, r), Unkilled(rd.Entering(kills, r), kills[r]), r)
  {
    assert rd.Leaving(kills, r) == rd.Cut(kills, r);
  }

  lemma SameStep(rd: Round, kills: seq<set<Id>>, r: nat)
    requires rd.Valid() && r < |kills| == |rd.ladder| && rd.Justified(kills)
    requires rd.Entering(kills, r) == rd.Entering(rd.NoKills(), r)
    ensures rd.Entering(kills, r + 1) == rd.Entering(rd.NoKills(), r + 1)
  {
    var alive := rd.Entering(kills, r);
    assert rd.RungJustified(kills, r);
    KillsInvisible(rd, alive, Unkilled(alive, kills[r]), r);
    assert rd.NoKills()[r] == {};
    EnteringIs(rd, kills, r);
    EnteringIs(rd, rd.NoKills(), r);
  }

  /** A concurrent run whose kills are justified advances the same arms, in the same
      order, at every rung as the sequential run without pruning. */
  lemma {:induction false} SameArmsAdvance(rd: Round, kills: seq<set<Id>>, r: nat)
    requires rd.Valid() && |kills| == |rd.ladder| && rd.Justified(kills) && r <= |kills|
    ensures rd.Entering(kills, r) == rd.Entering(rd.NoKills(), r)
  {
    if r > 0 {
      SameArmsAdvance(rd, kills, r - 1);
      SameStep(rd, kills, r - 1);
    }
  }

  /** What happened up to rung `r` does not depend on kills further up. */
  lemma {:induction false} EnteringPrefix(rd: Round, kills: seq<set<Id>>, more: set<Id>, r: nat)
    requires rd.Valid() && r <= |kills| < |rd.ladder|
    ensures rd.Entering(kills + [more], r) == rd.Entering(kills, r)
  {
    if r > 0 {
      EnteringPrefix(rd, kills, more, r - 1);
      assert (kills + [more])[r - 1] == kills[r - 1];
      EnteringIs(rd, kills, r - 1);
      EnteringIs(rd, kills + [more], r - 1);
    }
  }

  lemma RanPrefix(rd: Round, kills: seq<set<Id>>, more: set<Id>, r: nat)
    requires rd.Valid() && r < |kills| < |rd.ladder|
    ensures rd.Ran(kills + [more], r) == rd.Ran(kills, r)
  {
    EnteringPrefix(rd, kills, more, r);
    assert (kills + [more])[r] == kills[r];
  }

  lemma {:induction false} HistoryPrefix(rd: Round, kills: seq<set<Id>>, more: set<Id>, p: Id, r: nat)
    requires rd.Valid() && r <= |kills| < |rd.ladder|
    ensures rd.History(kills + [more], p, r) == rd.History(kills, p, r)
  {
    if r > 0 {
      HistoryPrefix(rd, kills, more, p, r - 1);
      RanPrefix(rd, kills, more, r - 1);
      assert rd.Shows(kills + [more], p, r - 1) == rd.Shows(kills, p, r - 1);
    }
  }

  lemma RecordStep(rd: Round, kills: seq<set<Id>>, p: Id, r: nat)
    requires rd.Valid() && 0 < r <= |kills| <= |rd.ladder|
    ensures rd.Record(kills, p, r) ==
      rd.RungRecord(r - 1, rd.Entering(kills, r - 1), kills[r - 1], rd.Entering(kills, r), rd.Record(kills, p, r - 1), p)
  {
    assert rd.NextRecord(kills, p, r - 1) == rd.Record(kills, p, r);
    assert rd.Entering(kills, r) == rd.Leaving(kills, r - 1);
  }

  lemma NextRecordSame(rd: Round, kills: seq<set<Id>>, other: seq<set<Id>>, p: Id, r: nat)
    requires rd.Valid() && r < |kills| <= |rd.ladder| && r < |other| <= |rd.ladder| && kills[r] == other[r]
    requires rd.Entering(kills, r) == rd.Entering(other, r) && rd.Entering(kills, r + 1) == rd.Entering(other, r + 1)
    requires rd.Record(kills, p, r) == rd.Record(other, p, r)
    ensures rd.NextRecord(kills, p, r) == rd.NextRecord(other, p, r)
  {
    assert rd.Leaving(kills, r) == rd.Leaving(other, r);
  }

  lemma {:induction false} RecordPrefix(rd: Round, kills: seq<set<Id>>, more: set<Id>, p: Id, r: nat)
    requires rd.Valid() && r <= |kills| < |rd.ladder|
    ensures rd.Record(kills + [more], p, r) == rd.Record(kills, p, r)
  {
    if r > 0 {
      RecordPrefix(rd, kills, more, p, r - 1);
      EnteringPrefix(rd, kills, more, r - 1);
      EnteringPrefix(rd, kills, more, r);
      NextRecordSame(rd, kills, kills + [more], p, r - 1);
    }
  }

  lemma MaximumUnique(s: seq<Keyed<Id>>, a: Keyed<Id>, b: Keyed<Id>)
    requires IsMaximum(s, a) && IsMaximum(s, b)
    ensures a.key == b.key
  {}

  /** Justified kills below the top rung do not touch the full-budget scores. */
  lemma SameFullScores(rd: Round, kills: seq<set<Id>>)
    requires rd.Valid() && |kills| == |rd.ladder| && rd.Justified(kills)
    requires kills[|kills| - 1] == {}
    ensures rd.FullEntries(kills) == rd.FullEntries(rd.NoKills())
  {
    var top := |kills| - 1;
    SameArmsAdvance(rd, kills, top);
    assert rd.NoKills()[top] == {};
    assert rd.Ran(kills, top) == rd.Ran(rd.NoKills(), top);
  }

  /** Concurrent pruned halving refines sequential halving: the full-budget scores are the
      same, so the winner's score is the same and the winner is a winner of the
      sequential run, whenever some arm has a full-budget score. */
  lemma ConcurrentRefinesSequential(rd: Round, kills: seq<set<Id>>, best: Option<Keyed<Id>>, reference: Option<Keyed<Id>>)
    requires rd.Valid() && |kills| == |rd.ladder| && rd.Justified(kills)
    requires kills[|kills| - 1] == {}
    requires rd.FullEntries(rd.NoKills()) != []
    requires rd.IsWinner(kills, best) && rd.IsWinner(rd.NoKills(), reference)
    ensures rd.FullEntries(kills) == rd.FullEntries(rd.NoKills())
    ensures best.Some? && reference.Some? && best.value.key == reference.value.key
    ensures rd.IsWinner(rd.NoKills(), best)
  {
    SameFullScores(rd, kills);
    MaximumUnique(rd.FullEntries(kills), best.value, reference.value);
  }

  // ---------------------------------------------------------- every arm is accounted for

  ghost predicate StillRunning(rec: ArmRecord) {
    rec.ok && !rec.killedEarly && rec.valScore.None?
  }

  /** Exactly one of: failed, killed early, holds a full-budget score. */
  ghost predicate Settled(rec: ArmRecord) {
    || (!rec.ok && !rec.killedEarly && rec.valScore.None?)
    || (rec.ok && rec.killedEarly && rec.valScore.None?)
    || (rec.ok && !rec.killedEarly && rec.valScore.Some?)
  }

  lemma AdvanceSubset(rd: Round, alive: seq<Id>, ran: set<Id>, r: nat)
    requires r < |rd.ladder| && rd.ladder[r].survivors >= 1
    ensures forall p :: p in rd.Advance(alive, ran, r) ==> p in alive && p in ran && rd.run(p, r).Scored?
  {
    var es := Restrict(rd.Entries(alive, r), ran);
    var k := rd.ladder[r].survivors;
    EntriesMembers(rd, alive, r);
    RestrictMembers(rd.Entries(alive, r), ran);
    forall p | p in rd.Advance(alive, ran, r) ensures p in alive && p in ran && rd.run(p, r).Scored? {
      var i :| 0 <= i < |rd.Advance(alive, ran, r)| && rd.Advance(alive, ran, r)[i] == p;
      SortPermutes(es);
      var j := SortMember(es, i);
      assert es[j] in es;
    }
  }

  /** An arm that has entered a rung is in the race with a clean record; any other arm is out
      with exactly one reason. */
  ghost predicate InOrOutOf(alive: seq<Id>, rec: ArmRecord, p: Id) {
    if p in alive then StillRunning(rec) else Settled(rec) && rec.valScore.None?
  }

  /** Below the top rung, an arm is either still in the race or out. */
  lemma {:induction false} InOrOut(rd: Round, kills: seq<set<Id>>, p: Id, r: nat)
    requires rd.Valid() && r < |rd.ladder| && r <= |kills| <= |rd.ladder| && p in rd.programs
    ensures InOrOutOf(rd.Entering(kills, r), rd.Record(kills, p, r), p)
  {
    if r > 0 {
      InOrOut(rd, kills, p, r - 1);
      InOrOutNext(rd, kills, p, r - 1);
    }
  }

  lemma InOrOutNext(rd: Round, kills: seq<set<Id>>, p: Id, r: nat)
    requires rd.Valid() && r + 1 < |rd.ladder| && r < |kills| <= |rd.ladder|
    requires InOrOutOf(rd.Entering(kills, r), rd.Record(kills, p, r), p)
    ensures InOrOutOf(rd.Entering(kills, r + 1), rd.Record(kills, p, r + 1), p)
  {
    EnteringIs(rd, kills, r);
    RecordStep(rd, kills, p, r + 1);
    InOrOutStep(rd, r, rd.Entering(kills, r), kills[r], rd.Entering(kills, r + 1), rd.Record(kills, p, r), p,
                rd.Record(kills, p, r + 1));
  }

  lemma InOrOutStep(rd: Round, r: nat, alive: seq<Id>, killed: set<Id>, advance: seq<Id>, rec: ArmRecord, p: Id, after: ArmRecord)
    requires rd.Valid() && r + 1 < |rd.ladder| && advance == rd.Advance(alive, Unkilled(alive, killed), r)
    requires InOrOutOf(alive, rec, p) && after == rd.RungRecord(r, alive, killed, advance, rec, p)
    ensures InOrOutOf(advance, after, p)
  {
    AdvanceSubset(rd, alive, Unkilled(alive, killed), r);
    if p in alive { RungFate(rec, p in killed, p in advance, rd.run(p, r), r, rd.ladder[r].budget); }
  }

  lemma RungFate(rec: ArmRecord, killed: bool, advances: bool, o: Outcome, r: nat, budget: real)
    requires StillRunning(rec) && budget < 1.0 && (advances ==> !killed && o.Scored?)
    ensures var after := AfterRung(rec, killed, advances, o, r, budget);
      if advances then StillRunning(after) else Settled(after) && after.valScore.None?
  {}

  /** After the last rung every arm is in exactly one of the three classes, and the arms
      holding a full-budget score are exactly those of `FullEntries`. */
  lemma EveryArmAccounted(rd: Round, kills: seq<set<Id>>, p: Id)
    requires rd.Valid() && |kills| == |rd.ladder| && kills[|kills| - 1] == {} && p in rd.programs
    ensures Settled(rd.Record(kills, p, |kills|))
    ensures forall s :: rd.Record(kills, p, |kills|).valScore == Some(s) <==> Keyed(p, s) in rd.FullEntries(kills)
  {
    var top := |kills| - 1;
    InOrOut(rd, kills, p, top);
    FullEntriesAre(rd, kills, top);
    RecordStep(rd, kills, p, |kills|);
    TopFate(rd, top, rd.Entering(kills, top), kills[top], rd.Entering(kills, |kills|), rd.Record(kills, p, top), p);
  }

  lemma TopFate(rd: Round, r: nat, alive: seq<Id>, killed: set<Id>, advance: seq<Id>, rec: ArmRecord, p: Id)
    requires r < |rd.ladder| && rd.ladder[r].budget == 1.0 && killed == {}
    requires InOrOutOf(alive, rec, p)
    ensures var after := rd.RungRecord(r, alive, killed, advance, rec, p);
      Settled(after) && forall s :: after.valScore == Some(s) <==> p in alive && rd.run(p, r) == Scored(s)
  {}

  lemma FullEntriesAre(rd: Round, kills: seq<set<Id>>, top: nat)
    requires rd.Valid() && |kills| == |rd.ladder| && kills[|kills| - 1] == {} && top == |kills| - 1
    ensures forall p, s :: Keyed(p, s) in rd.FullEntries(kills) <==> p in rd.Entering(kills, top) && rd.run(p, top) == Scored(s)
  {
    ScoredRestricted(rd, rd.Entering(kills, top), rd.Ran(kills, top), top);
  }

  // ------------------------------------------------------------ what a record tells

  lemma HistoryStep(rd: Round, kills: seq<set<Id>>, p: Id, r: nat)
    requires rd.Valid() && r < |kills| <= |rd.ladder|
    ensures rd.History(kills, p, r + 1) == rd.History(kills, p, r) +
      (if p in rd.Ran(kills, r) then Seen(rd.run(p, r), rd.ladder[r].budget) else [])
  {
    assert rd.Shows(kills, p, r) == if p in rd.Ran(kills, r) then Seen(rd.run(p, r), rd.ladder[r].budget) else [];
  }

  /** `best` is the greatest score shown, if any was. */
  ghost predicate BestShown(h: seq<Observation>, best: Option<real>) {
    if h == [] then best.None?
    else best.Some? && (exists i :: 0 <= i < |h| && h[i].score == best.value) && forall i :: 0 <= i < |h| ==> h[i].score <= best.value
  }

  lemma BestShownMore(h: seq<Observation>, best: Option<real>, o: Observation)
    requires BestShown(h, best)
    ensures BestShown(h + [o], Better(best, o.score))
  {
    var more, next := h + [o], Better(best, o.score);
    if next == best {
      var i :| 0 <= i < |h| && h[i].score == best.value;
      assert more[i].score == next.value;
    } else {
      assert more[|h|].score == next.value;
    }
  }

  /** An arm's best rung score is the greatest score it has shown. */
  lemma {:induction false} BestRungScoreIs(rd: Round, kills: seq<set<Id>>, p: Id, r: nat)
    requires rd.Valid() && r <= |kills| <= |rd.ladder|
    ensures BestShown(rd.History(kills, p, r), rd.Record(kills, p, r).bestRungScore)
  {
    if r > 0 {
      BestRungScoreIs(rd, kills, p, r - 1);
      BestStep(rd, kills, p, r - 1, rd.History(kills, p, r - 1), rd.Record(kills, p, r - 1).bestRungScore);
    }
  }

  lemma BestStep(rd: Round, kills: seq<set<Id>>, p: Id, r: nat, h: seq<Observation>, best: Option<real>)
    requires rd.Valid() && r < |kills| <= |rd.ladder|
    requires h == rd.History(kills, p, r) && best == rd.Record(kills, p, r).bestRungScore && BestShown(h, best)
    ensures BestShown(rd.History(kills, p, r + 1), rd.Record(kills, p, r + 1).bestRungScore)
  {
    HistoryStep(rd, kills, p, r);
    BestNext(rd, kills, p, r, rd.Record(kills, p, r), rd.Record(kills, p, r + 1));
    BestShownAfter(h, best, rd.run(p, r), p in rd.Ran(kills, r), rd.ladder[r].budget);
  }

  lemma BestNext(rd: Round, kills: seq<set<Id>>, p: Id, r: nat, rec: ArmRecord, next: ArmRecord)
    requires rd.Valid() && r < |kills| <= |rd.ladder|
    requires rec == rd.Record(kills, p, r) && next == rd.Record(kills, p, r + 1)
    ensures next.bestRungScore ==
      if p in rd.Ran(kills, r) && rd.run(p, r).Scored? then Better(rec.bestRungScore, rd.run(p, r).score) else rec.bestRungScore
  {
    RecordStep(rd, kills, p, r + 1);
  }

  lemma BestShownAfter(h: seq<Observation>, best: Option<real>, o: Outcome, ran: bool, budget: real)
    requires BestShown(h, best)
    ensures BestShown(h + (if ran then Seen(o, budget) else []), if ran && o.Scored? then Better(best, o.score) else best)
  {
    if ran && o.Scored? {
      BestShownMore(h, best, Observation(o.score, budget));
    } else {
      assert h + [] == h;
    }
  }

  /** `k` is the last of the first `r` rungs that the arm entered, -1 for none. */
  ghost predicate LastEntered(rd: Round, kills: seq<set<Id>>, p: Id, r: nat, k: int)
    requires rd.Valid() && r <= |kills| <= |rd.ladder|
  {
    && -1 <= k < r && (k >= 0 ==> p in rd.Entering(kills, k))
    && forall i :: k < i < r ==> p !in rd.Entering(kills, i)
  }

  lemma {:induction false} ReachedRungIs(rd: Round, kills: seq<set<Id>>, p: Id, r: nat)
    requires rd.Valid() && r <= |kills| <= |rd.ladder|
    ensures LastEntered(rd, kills, p, r, rd.Record(kills, p, r).reachedRung)
  {
    if r > 0 {
      ReachedRungIs(rd, kills, p, r - 1);
      RecordStep(rd, kills, p, r);
    }
  }

  /** The arm ran on rung `i` and failed. */
  ghost predicate FailedOn(rd: Round, kills: seq<set<Id>>, p: Id, i: nat)
    requires rd.Valid() && i < |kills| <= |rd.ladder|
  {
    p in rd.Ran(kills, i) && rd.run(p, i).Failed?
  }

  /** The arm was killed unrun on rung `i`, or scored on it below full budget without advancing. */
  ghost predicate LostOn(rd: Round, kills: seq<set<Id>>, p: Id, i: nat)
    requires rd.Valid() && i < |kills| <= |rd.ladder|
  {
    && p in rd.Entering(kills, i)
    && (p in kills[i] || (rd.run(p, i).Scored? && rd.ladder[i].budget < 1.0 && p !in rd.Entering(kills, i + 1)))
  }

  /** A record is not ok exactly when a run failed, and says killed early exactly when the arm
      lost a rung. */
  lemma {:induction false} FlagsAre(rd: Round, kills: seq<set<Id>>, p: Id, r: nat)
    requires rd.Valid() && r <= |kills| <= |rd.ladder|
    ensures rd.Record(kills, p, r).ok <==> forall i :: 0 <= i < r ==> !FailedOn(rd, kills, p, i)
    ensures rd.Record(kills, p, r).killedEarly <==> exists i :: 0 <= i < r && LostOn(rd, kills, p, i)
  {
    if r > 0 {
      FlagsAre(rd, kills, p, r - 1);
      RecordStep(rd, kills, p, r);
      var rec, next := rd.Record(kills, p, r - 1), rd.Record(kills, p, r);
      assert next.ok <==> rec.ok && !FailedOn(rd, kills, p, r - 1);
      assert next.killedEarly <==> rec.killedEarly || LostOn(rd, kills, p, r - 1);
    }
  }

  /** A record's validation score is the arm's full-budget score: set exactly when the arm ran
      on the top rung and scored there. */
  lemma {:induction false} ValScoreIs(rd: Round, kills: seq<set<Id>>, p: Id, r: nat)
    requires rd.Valid() && r <= |kills| <= |rd.ladder|
    ensures var top := |rd.ladder| - 1;
      rd.Record(kills, p, r).valScore ==
        if r > top && p in rd.Ran(kills, top) && rd.run(p, top).Scored? then Some(rd.run(p, top).score) else None
  {
    if r > 0 {
      ValScoreIs(rd, kills, p, r - 1);
      RecordStep(rd, kills, p, r);
    }
  }

  /** And its error is that of the last failed run, empty when none failed. */
  lemma {:induction false} ErrorKindIs(rd: Round, kills: seq<set<Id>>, p: Id, r: nat)
    requires rd.Valid() && r <= |kills| <= |rd.ladder|
    ensures (forall i :: 0 <= i < r ==> !FailedOn(rd, kills, p, i)) ==> rd.Record(kills, p, r).errorKind == ""
    ensures forall i :: 0 <= i < r && FailedOn(rd, kills, p, i) && (forall j :: i < j < r ==> !FailedOn(rd, kills, p, j)) ==>
      rd.Record(kills, p, r).errorKind == rd.run(p, i).kind
  {
    if r > 0 {
      ErrorKindIs(rd, kills, p, r - 1);
      RecordStep(rd, kills, p, r);
      var rec, next := rd.Record(kills, p, r - 1), rd.Record(kills, p, r);
      assert next.errorKind == if FailedOn(rd, kills, p, r - 1) then rd.run(p, r - 1).kind else rec.errorKind;
    }
  }
}
