/** Pruning pending arms, and what a log of the arms pruned says about a run. */
module Pruning {
  import opened Reals
  import opened Ranking
  import opened Halving
  import opened Wrappers

  // ------------------------------------------------------- the decision on raw scores

  /** The spread of the scores seen: the distance between the least and the greatest when there
      are two different ones, but at least a billionth, and 1 otherwise. */
  ghost predicate IsWidth(scores: set<real>, w: real) {
    if exists x, y :: x in scores && y in scores && x < y then
      exists lo, hi :: lo in scores && hi in scores && (forall s :: s in scores ==> lo <= s <= hi) &&
        w == (if hi - lo > 0.000000001 then hi - lo else 0.000000001)
    else w == 1.0
  }

  ghost function Width(scores: set<real>): (w: real)
    ensures IsWidth(scores, w)
  {
    WidthExists(scores);
    var w :| IsWidth(scores, w);
    w
  }

  lemma {:induction false} Extremes(scores: set<real>, x: real) returns (lo: real, hi: real)
    requires x in scores
    ensures lo in scores && hi in scores && forall s :: s in scores ==> lo <= s <= hi
    decreases |scores|
  {
    lo, hi := x, x;
    if y :| y in scores && y != x {
      assert scores == scores - {x} + {x};
      lo, hi := Extremes(scores - {x}, y);
      lo, hi := if x < lo then x else lo, if x > hi then x else hi;
    }
  }

  lemma WidthExists(scores: set<real>)
    ensures exists w :: IsWidth(scores, w)
  {
    if x, y :| x in scores && y in scores && x < y {
      var lo, hi := Extremes(scores, x);
      assert IsWidth(scores, if hi - lo > 0.000000001 then hi - lo else 0.000000001);
    } else {
      assert IsWidth(scores, 1.0);
    }
  }

  lemma WidthUnique(scores: set<real>, v: real, w: real)
    requires IsWidth(scores, v) && IsWidth(scores, w)
    ensures v == w && w > 0.0
  {}

  lemma WidthOf(scores: set<real>, lo: real, hi: real)
    requires lo in scores && hi in scores && lo < hi && forall s :: s in scores ==> lo <= s <= hi
    ensures Width(scores) == if hi - lo > 0.000000001 then hi - lo else 0.000000001
  {
    var w := if hi - lo > 0.000000001 then hi - lo else 0.000000001;
    assert IsWidth(scores, w);
    WidthUnique(scores, Width(scores), w);
  }

  /** The scores shown on rung `r` by the arms of `ran`. */
  ghost function Scores(rd: Round, r: nat, ran: set<Id>): set<real> {
    set p | p in ran && rd.run(p, r).Scored? :: rd.run(p, r).score
  }

  lemma ScoresMore(rd: Round, r: nat, ran: set<Id>, p: Id)
    ensures Scores(rd, r, ran + {p})
         == if rd.run(p, r).Scored? then Scores(rd, r, ran) + {rd.run(p, r).score} else Scores(rd, r, ran)
  {}

  /** An arm that has shown `h`, last the score `s` on a budget `b`, cannot make the cut of rung
      `r`: as many settled arms as survive it lead `s` by more than half the spread of all scores
      seen, once for the data `b` lacks and once for the data the rung lacks. */
  ghost predicate OutOfReach(rd: Round, alive: seq<Id>, r: nat, before: set<real>, h: seq<Observation>, settled: set<Id>)
    requires r < |rd.ladder|
  {
    && h != []
    && var s, b := h[|h| - 1].score, h[|h| - 1].budget;
       var w := Width(before + Scores(rd, r, settled));
       CountAbove(Restrict(rd.Entries(alive, r), settled), s + 0.5 * w * ((1.0 - b) + (1.0 - rd.ladder[r].budget)))
         >= rd.ladder[r].survivors
  }

  /** The arm would score on this rung at most its last score and half the spread of all scores
      seen, for the data it lacked. */
  ghost predicate HonestKill(rd: Round, r: nat, p: Id, before: set<real>, h: seq<Observation>, settled: set<Id>) {
    rd.run(p, r).Scored? ==>
      && h != []
      && rd.run(p, r).score <= h[|h| - 1].score + 0.5 * Width(before + Scores(rd, r, settled)) * (1.0 - h[|h| - 1].budget)
  }

  lemma {:induction false} CountLower(s: seq<Keyed<Id>>, c: real, d: real)
    requires c <= d
    ensures CountAbove(s, c) >= CountAbove(s, d)
  {
    if s != [] { CountLower(s[1..], c, d); }
  }

  lemma Margins(w: real, b: real, c: real, up: real, down: real, both: real)
    requires w > 0.0 && up == 0.5 * w * (1.0 - b) && down == 0.5 * w * (1.0 - c) && both == 0.5 * w * ((1.0 - b) + (1.0 - c))
    ensures both == up + down
    ensures (b <= 1.0 ==> up >= 0.0) && (c <= 1.0 ==> down >= 0.0)
  {
    HalfOf(w, 1.0 - b, up);
    HalfOf(w, 1.0 - c, down);
    HalfOf(w, (1.0 - b) + (1.0 - c), both);
    Distribute(1.0 - b, 1.0 - c, 0.5 * w);
    if b <= 1.0 { NonNegative(1.0 - b, 0.5 * w, up); }
    if c <= 1.0 { NonNegative(1.0 - c, 0.5 * w, down); }
  }

  lemma HalfOf(w: real, x: real, p: real)
    requires p == 0.5 * w * x
    ensures p == x * (0.5 * w)
  {}

  /** What an out-of-reach arm cannot make up for: anything at most its last score and the margin
      for its own data is below as many settled scores as survive. */
  lemma OutscoredBy(rd: Round, alive: seq<Id>, r: nat, before: set<real>, h: seq<Observation>, settled: set<Id>, ran: set<Id>,
                    up: real, c: real)
    requires r < |rd.ladder| && rd.ladder[r].budget <= 1.0
    requires OutOfReach(rd, alive, r, before, h, settled) && settled <= ran
    requires up == 0.5 * Width(before + Scores(rd, r, settled)) * (1.0 - h[|h| - 1].budget) && c <= h[|h| - 1].score + up
    ensures CountAbove(Restrict(rd.Entries(alive, r), ran), c) >= rd.ladder[r].survivors
  {
    var last, w := h[|h| - 1], Width(before + Scores(rd, r, settled));
    var t := last.score + 0.5 * w * ((1.0 - last.budget) + (1.0 - rd.ladder[r].budget));
    WidthUnique(before + Scores(rd, r, settled), w, w);
    WithinLead(w, last.budget, rd.ladder[r].budget, last.score, up, c, t);
    StillAbove(rd.Entries(alive, r), settled, ran, c, t, rd.ladder[r].survivors);
  }

  lemma WithinLead(w: real, b: real, c: real, s: real, up: real, x: real, t: real)
    requires w > 0.0 && c <= 1.0 && up == 0.5 * w * (1.0 - b) && x <= s + up
    requires t == s + 0.5 * w * ((1.0 - b) + (1.0 - c))
    ensures x <= t
  {
    Margins(w, b, c, up, 0.5 * w * (1.0 - c), 0.5 * w * ((1.0 - b) + (1.0 - c)));
  }

  lemma StillAbove(es: seq<Keyed<Id>>, settled: set<Id>, ran: set<Id>, c: real, t: real, k: int)
    requires c <= t && CountAbove(Restrict(es, settled), t) >= k && settled <= ran
    ensures CountAbove(Restrict(es, ran), c) >= k
  {
    CountLower(Restrict(es, settled), c, t);
    CountMonotone(es, settled, ran, c);
  }

  /** An honestly killed arm has at least as many arms as survive strictly above its true score. */
  lemma PruneIsSound(rd: Round, alive: seq<Id>, r: nat, before: set<real>, h: seq<Observation>, settled: set<Id>, ran: set<Id>, q: Id)
    requires r < |rd.ladder| && rd.ladder[r].budget <= 1.0
    requires OutOfReach(rd, alive, r, before, h, settled) && settled <= ran
    requires HonestKill(rd, r, q, before, h, settled) && rd.run(q, r).Scored?
    ensures CountAbove(Restrict(rd.Entries(alive, r), ran), rd.run(q, r).score) >= rd.ladder[r].survivors
  {
    var up := 0.5 * Width(before + Scores(rd, r, settled)) * (1.0 - h[|h| - 1].budget);
    OutscoredBy(rd, alive, r, before, h, settled, ran, up, rd.run(q, r).score);
  }

  /** So is its last score: with or without honesty, a pruned arm was behind. */
  lemma PrunedIsBehind(rd: Round, alive: seq<Id>, r: nat, before: set<real>, h: seq<Observation>, settled: set<Id>, ran: set<Id>)
    requires r < |rd.ladder| && rd.ladder[r].budget <= 1.0
    requires OutOfReach(rd, alive, r, before, h, settled) && settled <= ran
    requires forall o :: o in h ==> o.budget <= 1.0
    ensures LastScoreBehind(Restrict(rd.Entries(alive, r), ran), h, rd.ladder[r].survivors)
  {
    var last := h[|h| - 1];
    assert last in h;
    var w := Width(before + Scores(rd, r, settled));
    var up, down := 0.5 * w * (1.0 - last.budget), 0.5 * w * (1.0 - rd.ladder[r].budget);
    WidthUnique(before + Scores(rd, r, settled), w, w);
    Margins(w, last.budget, rd.ladder[r].budget, up, down, 0.5 * w * ((1.0 - last.budget) + (1.0 - rd.ladder[r].budget)));
    OutscoredBy(rd, alive, r, before, h, settled, ran, up, last.score);
  }

  // -------------------------------------------------------------- the rule as it is coded

  /** The range of scores grows with every score seen. */
  function Widen(range: Option<(real, real)>, s: real): Option<(real, real)> {
    match range
    case None => Some((s, s))
    case Some((lo, hi)) => Some((if s < lo then s else lo, if s > hi then s else hi))
  }

  /** The score band used by the bounds: `(0, 1)` until two different scores were seen. */
  function BandOf(range: Option<(real, real)>): (real, real) {
    if range.Some? && range.value.1 > range.value.0 then range.value else (0.0, 1.0)
  }

  /** Bounds on an arm's score on this rung: its last score plus or minus half the span of
      the observed score band, scaled by the share of data it has not been trained on.
      An arm without scores has no upper bound (`None` stands for infinity). */
  function Ucb(h: seq<Observation>, lo: real, hi: real): Option<real> {
    if h == [] then None else Some(h[|h| - 1].score + Slack(h[|h| - 1].budget, lo, hi))
  }

  function Lcb(h: seq<Observation>, lo: real, hi: real): real
    requires h != []
  {
    h[|h| - 1].score - Slack(h[|h| - 1].budget, lo, hi)
  }

  function Slack(budget: real, lo: real, hi: real): real {
    0.5 * Span(lo, hi) * (1.0 - budget)
  }

  function Span(lo: real, hi: real): real {
    if hi - lo > 0.000000001 then hi - lo else 0.000000001
  }

  /** A pending arm is pruned when even its upper bound is below the `k`-th best lower
      bound among the settled arms. */
  predicate Dominated(h: seq<Observation>, settled: seq<Keyed<Id>>, k: nat, band: (real, real))
    requires k >= 1
  {
    && |settled| >= k
    && Ucb(h, band.0, band.1).Some?
    && |SortDesc(settled)| >= k
    && Ucb(h, band.0, band.1).value < SortDesc(settled)[k - 1].key
  }

  /** `range` is the range of `scores`; there is none for no scores. */
  ghost predicate Spans(range: Option<(real, real)>, scores: set<real>) {
    match range
    case None => scores == {}
    case Some((lo, hi)) => lo in scores && hi in scores && forall s :: s in scores ==> lo <= s <= hi
  }

  lemma SpansWiden(range: Option<(real, real)>, scores: set<real>, s: real)
    requires Spans(range, scores)
    ensures Spans(Widen(range, s), scores + {s})
  {}

  /** Lower bounds of scores shown on one rung. */
  function Lowered(entries: seq<Keyed<Id>>, slack: real): seq<Keyed<Id>> {
    if entries == [] then []
    else [Keyed(entries[0].item, entries[0].key - slack)] + Lowered(entries[1..], slack)
  }

  /** The lower bounds of the arms of `settled` that scored on rung `r`. */
  function Bounds(rd: Round, alive: seq<Id>, r: nat, settled: set<Id>, band: (real, real)): seq<Keyed<Id>>
    requires r < |rd.ladder|
  {
    Lowered(Restrict(rd.Entries(alive, r), settled), Slack(rd.ladder[r].budget, band.0, band.1))
  }

  lemma BoundsCons(rd: Round, alive: seq<Id>, r: nat, settled: set<Id>, band: (real, real))
    requires r < |rd.ladder| && alive != []
    ensures Bounds(rd, alive, r, settled, band) ==
      (match rd.run(alive[0], r)
       case Scored(s) =>
         (if alive[0] in settled then [Keyed(alive[0], s - Slack(rd.ladder[r].budget, band.0, band.1))] else [])
       case Failed(_) => [])
      + Bounds(rd, alive[1..], r, settled, band)
  {
    var o, rest := rd.run(alive[0], r), rd.Entries(alive[1..], r);
    if o.Scored? {
      RestrictCons(Keyed(alive[0], o.score), rest, settled);
      if alive[0] in settled {
        assert ([Keyed(alive[0], o.score)] + Restrict(rest, settled))[1..] == Restrict(rest, settled);
      }
    }
  }

  /** The span of the band is the spread of the scores. */
  lemma SpanIsWidth(range: Option<(real, real)>, scores: set<real>)
    requires Spans(range, scores)
    ensures Span(BandOf(range).0, BandOf(range).1) == Width(scores)
  {
    var span := Span(BandOf(range).0, BandOf(range).1);
    if range.Some? && range.value.1 > range.value.0 {
      assert range.value.0 in scores && range.value.1 in scores;
    } else {
      assert forall x, y :: x in scores && y in scores ==> x == y;
    }
    assert IsWidth(scores, span);
    WidthUnique(scores, Width(scores), span);
  }

  lemma SlackIs(range: Option<(real, real)>, scores: set<real>, budget: real, slack: real)
    requires Spans(range, scores) && slack == 0.5 * Width(scores) * (1.0 - budget)
    ensures Slack(budget, BandOf(range).0, BandOf(range).1) == slack
  {
    SpanIsWidth(range, scores);
  }

  lemma {:induction false} LoweredCount(s: seq<Keyed<Id>>, slack: real, c: real)
    ensures CountAbove(Lowered(s, slack), c) == CountAbove(s, c + slack) && |Lowered(s, slack)| == |s|
  {
    if s != [] { LoweredCount(s[1..], slack, c); }
  }

  /** The `k`-th best of some entries is above `c` exactly when at least `k` of them are. */
  lemma KthAbove(s: seq<Keyed<Id>>, k: nat, c: real)
    requires k >= 1
    ensures CountAbove(s, c) >= k <==> |s| >= k && |SortDesc(s)| == |s| && SortDesc(s)[k - 1].key > c
  {
    SortPermutes(s);
    SortIsDesc(s);
    CountAboveSort(s, c);
    if CountAbove(s, c) >= k {
      AboveIsPrefix(SortDesc(s), c, k - 1);
    } else if |s| >= k && SortDesc(s)[k - 1].key > c {
      PrefixIsAbove(SortDesc(s), c, k);
    }
  }

  /** The coded rule makes exactly the decision on raw scores. */
  lemma RuleIsExact(rd: Round, alive: seq<Id>, r: nat, before: set<real>, h: seq<Observation>, settled: set<Id>,
                    range: Option<(real, real)>)
    requires r < |rd.ladder| && rd.ladder[r].survivors >= 1 && Spans(range, before + Scores(rd, r, settled))
    ensures Dominated(h, Bounds(rd, alive, r, settled, BandOf(range)), rd.ladder[r].survivors, BandOf(range))
       <==> OutOfReach(rd, alive, r, before, h, settled)
  {
    if h != [] {
      var w := Width(before + Scores(rd, r, settled));
      var up, down, t := Terms(range, before + Scores(rd, r, settled), w, h[|h| - 1].budget, rd.ladder[r].budget, h[|h| - 1].score);
      CodedRule(h, Restrict(rd.Entries(alive, r), settled), rd.ladder[r].survivors, BandOf(range), up, down, t);
      RawRule(rd, alive, r, before, h, settled, w, t);
    }
  }

  lemma RawRule(rd: Round, alive: seq<Id>, r: nat, before: set<real>, h: seq<Observation>, settled: set<Id>, w: real, t: real)
    requires r < |rd.ladder| && h != [] && w == Width(before + Scores(rd, r, settled))
    requires t == h[|h| - 1].score + 0.5 * w * ((1.0 - h[|h| - 1].budget) + (1.0 - rd.ladder[r].budget))
    ensures OutOfReach(rd, alive, r, before, h, settled)
       <==> CountAbove(Restrict(rd.Entries(alive, r), settled), t) >= rd.ladder[r].survivors
  {}

  /** The margins of the coded rule, and the threshold they add up to. */
  lemma Terms(range: Option<(real, real)>, scores: set<real>, w: real, b: real, c: real, s: real)
    returns (up: real, down: real, t: real)
    requires Spans(range, scores) && w == Width(scores)
    ensures up == Slack(b, BandOf(range).0, BandOf(range).1) && down == Slack(c, BandOf(range).0, BandOf(range).1)
    ensures t == s + 0.5 * w * ((1.0 - b) + (1.0 - c)) && t == s + up + down
  {
    up, down, t := 0.5 * w * (1.0 - b), 0.5 * w * (1.0 - c), s + 0.5 * w * ((1.0 - b) + (1.0 - c));
    SlackIs(range, scores, b, up);
    SlackIs(range, scores, c, down);
    WidthUnique(scores, w, w);
    Threshold(w, b, c, s, up, down, t);
  }

  lemma Threshold(w: real, b: real, c: real, s: real, up: real, down: real, t: real)
    requires w > 0.0 && up == 0.5 * w * (1.0 - b) && down == 0.5 * w * (1.0 - c)
    requires t == s + 0.5 * w * ((1.0 - b) + (1.0 - c))
    ensures t == s + up + down
  {
    Margins(w, b, c, up, down, 0.5 * w * ((1.0 - b) + (1.0 - c)));
  }

  lemma CodedRule(h: seq<Observation>, es: seq<Keyed<Id>>, k: nat, band: (real, real), up: real, down: real, t: real)
    requires h != [] && k >= 1 && Ucb(h, band.0, band.1) == Some(h[|h| - 1].score + up) && t == h[|h| - 1].score + up + down
    ensures Dominated(h, Lowered(es, down), k, band) <==> CountAbove(es, t) >= k
  {
    DominatedIs(h, Lowered(es, down), k, band, h[|h| - 1].score + up);
    LoweredCount(es, down, h[|h| - 1].score + up);
  }

  lemma DominatedIs(h: seq<Observation>, settled: seq<Keyed<Id>>, k: nat, band: (real, real), u: real)
    requires k >= 1 && Ucb(h, band.0, band.1) == Some(u)
    ensures Dominated(h, settled, k, band) <==> CountAbove(settled, u) >= k
  {
    KthAbove(settled, k, u);
    SortPermutes(settled);
  }

  // ------------------------------------------------------------------ the log of a rung

  /** How an arm was launched: how many judgements it had survived, and who had settled. */
  datatype Start = Start(judgements: nat, settled: set<Id>)

  /** What happened on a rung: the arms settled at each judgement, how each arm that ran was
      launched, and at which judgement each other arm was killed. */
  datatype RungLog = RungLog(judged: seq<set<Id>>, starts: map<Id, Start>, kills: map<Id, nat>)

  const EMPTY_LOG := RungLog([], map[], map[])

  /** The data a rung starts from: who enters it, the scores seen before, and what each arm has
      shown. */
  datatype Entry = Entry(alive: seq<Id>, before: set<real>, shown: map<Id, seq<Observation>>)

  ghost predicate Condemned(rd: Round, r: nat, e: Entry, p: Id, settled: set<Id>)
    requires r < |rd.ladder|
  {
    p in e.shown && OutOfReach(rd, e.alive, r, e.before, e.shown[p], settled)
  }

  /** The arm survived the first `n` judgements. */
  ghost predicate Spared(rd: Round, r: nat, e: Entry, p: Id, judged: seq<set<Id>>, n: nat)
    requires r < |rd.ladder|
  {
    n <= |judged| && forall i {:trigger Condemned(rd, r, e, p, judged[i])} :: 0 <= i < n ==> !Condemned(rd, r, e, p, judged[i])
  }

  /** The arm was killed at the first judgement that condemned it. */
  ghost predicate KilledAt(rd: Round, r: nat, e: Entry, p: Id, judged: seq<set<Id>>, n: nat)
    requires r < |rd.ladder|
  {
    n < |judged| && p in e.alive && Condemned(rd, r, e, p, judged[n]) && Spared(rd, r, e, p, judged, n)
  }

  /** Who had settled at the last of `n` judgements. */
  ghost function LastJudged(judged: seq<set<Id>>, n: nat): set<Id>
    requires n <= |judged|
  {
    if n == 0 then {} else judged[n - 1]
  }

  /** The arm was launched without ever having been condemned; and while the rung prunes, right
      after a judgement by everything that had settled. */
  ghost predicate StartedAt(rd: Round, r: nat, e: Entry, p: Id, judged: seq<set<Id>>, start: Start, judging: bool)
    requires r < |rd.ladder|
  {
    && p in e.alive && Spared(rd, r, e, p, judged, start.judgements)
    && (judging ==> start.settled == LastJudged(judged, start.judgements))
  }

  /** A rung on which every kill and every launch is the one the rule decides. */
  ghost predicate RungRun(rd: Round, r: nat, e: Entry, log: RungLog, judging: bool)
    requires r < |rd.ladder|
  {
    && (!judging ==> log.judged == [])
    && (forall i, p :: 0 <= i < |log.judged| && p in log.judged[i] ==> p in log.starts && log.starts[p].judgements <= i)
    && (forall p {:trigger KilledAt(rd, r, e, p, log.judged, log.kills[p])} :: p in log.kills ==>
          KilledAt(rd, r, e, p, log.judged, log.kills[p]))
    && (forall p {:trigger StartedAt(rd, r, e, p, log.judged, log.starts[p], judging)} :: p in log.starts ==>
          StartedAt(rd, r, e, p, log.judged, log.starts[p], judging))
  }

  /** The arms still waiting have survived every judgement so far. */
  ghost predicate Waiting(rd: Round, r: nat, e: Entry, log: RungLog, pending: seq<Id>)
    requires r < |rd.ladder|
  {
    forall p {:trigger Spared(rd, r, e, p, log.judged, |log.judged|)} :: p in pending ==>
      p in e.alive && Spared(rd, r, e, p, log.judged, |log.judged|)
  }

  lemma NothingYet(rd: Round, r: nat, e: Entry, pending: seq<Id>, judging: bool)
    requires r < |rd.ladder| && forall p :: p in pending ==> p in e.alive
    ensures RungRun(rd, r, e, EMPTY_LOG, judging) && Waiting(rd, r, e, EMPTY_LOG, pending)
  {}

  /** One more arm is launched. */
  lemma LogLaunch(rd: Round, r: nat, e: Entry, log: RungLog, pending: seq<Id>, p: Id, done: set<Id>, judging: bool)
    requires r < |rd.ladder| && RungRun(rd, r, e, log, judging) && Waiting(rd, r, e, log, pending) && p in pending
    requires p !in log.starts && (judging ==> done == LastJudged(log.judged, |log.judged|))
    ensures RungRun(rd, r, e, log.(starts := log.starts[p := Start(|log.judged|, done)]), judging)
    ensures forall rest: seq<Id> {:trigger Waiting(rd, r, e, log.(starts := log.starts[p := Start(|log.judged|, done)]), rest)} ::
      (forall q :: q in rest ==> q in pending) ==> Waiting(rd, r, e, log.(starts := log.starts[p := Start(|log.judged|, done)]), rest)
  {
    var after := log.(starts := log.starts[p := Start(|log.judged|, done)]);
    assert Spared(rd, r, e, p, log.judged, |log.judged|);
    forall q | q in after.starts ensures StartedAt(rd, r, e, q, after.judged, after.starts[q], judging) {
      if q != p { assert StartedAt(rd, r, e, q, log.judged, log.starts[q], judging); }
    }
    forall q | q in after.kills ensures KilledAt(rd, r, e, q, after.judged, after.kills[q]) {
      assert KilledAt(rd, r, e, q, log.judged, log.kills[q]);
    }
    forall rest: seq<Id>, q | (forall x :: x in rest ==> x in pending) && q in rest
      ensures q in e.alive && Spared(rd, r, e, q, after.judged, |after.judged|)
    {
      assert Spared(rd, r, e, q, log.judged, |log.judged|);
    }
  }

  /** Judgements made stay as they are when another follows. */
  lemma SparedStill(rd: Round, r: nat, e: Entry, p: Id, judged: seq<set<Id>>, settled: set<Id>, n: nat)
    requires r < |rd.ladder| && Spared(rd, r, e, p, judged, n)
    ensures Spared(rd, r, e, p, judged + [settled], n)
    ensures n == |judged| && !Condemned(rd, r, e, p, settled) ==> Spared(rd, r, e, p, judged + [settled], n + 1)
  {
    forall i | 0 <= i < n ensures !Condemned(rd, r, e, p, (judged + [settled])[i]) {
      assert !Condemned(rd, r, e, p, judged[i]);
    }
  }

  /** The log after a judgement that kills `kill`. */
  ghost function AfterJudgement(log: RungLog, done: set<Id>, kill: seq<Id>): RungLog {
    RungLog(log.judged + [done], log.starts, log.kills + map p | p in kill :: |log.judged|)
  }

  lemma LogJudgement(rd: Round, r: nat, e: Entry, log: RungLog, pending: seq<Id>, done: set<Id>, keep: seq<Id>, kill: seq<Id>)
    requires r < |rd.ladder| && RungRun(rd, r, e, log, true) && Waiting(rd, r, e, log, pending) && done <= log.starts.Keys
    requires forall p :: p in kill ==> p in pending && Condemned(rd, r, e, p, done)
    requires forall p :: p in keep ==> p in pending && !Condemned(rd, r, e, p, done)
    ensures RungRun(rd, r, e, AfterJudgement(log, done, kill), true) && Waiting(rd, r, e, AfterJudgement(log, done, kill), keep)
  {
    var after := AfterJudgement(log, done, kill);
    forall p | p in after.kills ensures KilledAt(rd, r, e, p, after.judged, after.kills[p]) {
      if p in kill {
        assert Spared(rd, r, e, p, log.judged, |log.judged|);
        SparedStill(rd, r, e, p, log.judged, done, |log.judged|);
      } else {
        assert KilledAt(rd, r, e, p, log.judged, log.kills[p]);
        SparedStill(rd, r, e, p, log.judged, done, log.kills[p]);
      }
    }
    forall p | p in after.starts ensures StartedAt(rd, r, e, p, after.judged, after.starts[p], true) {
      assert StartedAt(rd, r, e, p, log.judged, log.starts[p], true);
      SparedStill(rd, r, e, p, log.judged, done, log.starts[p].judgements);
    }
    forall p | p in keep ensures p in e.alive && Spared(rd, r, e, p, after.judged, |after.judged|) {
      assert Spared(rd, r, e, p, log.judged, |log.judged|);
      SparedStill(rd, r, e, p, log.judged, done, |log.judged|);
    }
    forall i, p | 0 <= i < |after.judged| && p in after.judged[i] ensures p in after.starts && after.starts[p].judgements <= i {
      if i == |log.judged| { assert StartedAt(rd, r, e, p, log.judged, log.starts[p], true); }
    }
  }

  // ------------------------------------------------------------------ the log of a round

  /** The arms killed, rung by rung. */
  ghost function Killed(logs: seq<RungLog>): (kills: seq<set<Id>>)
    ensures |kills| == |logs| && forall r :: 0 <= r < |logs| ==> kills[r] == logs[r].kills.Keys
  {
    seq(|logs|, r requires 0 <= r < |logs| => logs[r].kills.Keys)
  }

  /** The scores seen on the first `r` rungs. */
  ghost function ScoresBefore(rd: Round, kills: seq<set<Id>>, r: nat): set<real>
    requires rd.Valid() && r <= |kills| <= |rd.ladder|
  {
    if r == 0 then {} else ScoresBefore(rd, kills, r - 1) + Scores(rd, r - 1, rd.Ran(kills, r - 1))
  }

  /** What rung `r` starts from. */
  ghost function EntryOf(rd: Round, kills: seq<set<Id>>, r: nat): Entry
    requires rd.Valid() && r <= |kills| <= |rd.ladder|
  {
    var alive := rd.Entering(kills, r);
    Entry(alive, ScoresBefore(rd, kills, r), map p | p in Unkilled(alive, {}) :: rd.History(kills, p, r))
  }

  /** Rung `r` of a round went as the rule decides: exactly the arms not killed ran. */
  ghost predicate RungAt(rd: Round, kills: seq<set<Id>>, r: nat, log: RungLog, pruning: bool)
    requires rd.Valid() && r < |kills| <= |rd.ladder|
  {
    && log.starts.Keys == rd.Ran(kills, r) && log.kills.Keys <= Unkilled(rd.Entering(kills, r), {})
    && RungRun(rd, r, EntryOf(rd, kills, r), log, pruning && rd.ladder[r].budget < 1.0)
  }

  /** Every rung so far went as the rule decides. */
  ghost predicate RungsMade(rd: Round, logs: seq<RungLog>, pruning: bool)
    requires rd.Valid() && |logs| <= |rd.ladder|
  {
    forall r {:trigger RungAt(rd, Killed(logs), r, logs[r], pruning)} :: 0 <= r < |logs| ==>
      RungAt(rd, Killed(logs), r, logs[r], pruning)
  }

  /** A complete round whose launches and kills were all decided by the rule. */
  ghost predicate PrunedRun(rd: Round, logs: seq<RungLog>, pruning: bool) {
    rd.Valid() && |logs| == |rd.ladder| && RungsMade(rd, logs, pruning)
  }

  /** Every arm killed would have scored at most the bound it was killed on. */
  ghost predicate AllHonest(rd: Round, logs: seq<RungLog>)
    requires rd.Valid() && |logs| <= |rd.ladder|
  {
    forall r, p {:trigger HonestAt(rd, Killed(logs), r, p, logs[r])} :: 0 <= r < |logs| && p in logs[r].kills ==>
      HonestAt(rd, Killed(logs), r, p, logs[r])
  }

  ghost predicate HonestAt(rd: Round, kills: seq<set<Id>>, r: nat, p: Id, log: RungLog)
    requires rd.Valid() && r < |kills| <= |rd.ladder|
  {
    && p in log.kills && log.kills[p] < |log.judged|
    && HonestKill(rd, r, p, ScoresBefore(rd, kills, r), rd.History(kills, p, r), log.judged[log.kills[p]])
  }

  lemma {:induction false} HistoryCapped(rd: Round, kills: seq<set<Id>>, p: Id, r: nat)
    requires rd.Valid() && r <= |kills| <= |rd.ladder|
    ensures forall o :: o in rd.History(kills, p, r) ==> o.budget <= 1.0
  {
    if r > 0 { HistoryCapped(rd, kills, p, r - 1); }
  }

  lemma KillIsLogged(rd: Round, r: nat, e: Entry, log: RungLog, p: Id, judging: bool)
    requires r < |rd.ladder| && RungRun(rd, r, e, log, judging) && p in log.kills
    ensures judging && p in e.alive && p in e.shown && log.kills[p] < |log.judged|
    ensures OutOfReach(rd, e.alive, r, e.before, e.shown[p], log.judged[log.kills[p]])
    ensures forall q :: q in log.judged[log.kills[p]] ==> q in log.starts
  {
    assert KilledAt(rd, r, e, p, log.judged, log.kills[p]);
  }

  /** A kill in the log, in terms of the round alone. */
  lemma LoggedKill(rd: Round, logs: seq<RungLog>, r: nat, p: Id, pruning: bool) returns (settled: set<Id>)
    requires PrunedRun(rd, logs, pruning) && r < |logs| && p in logs[r].kills
    ensures pruning && rd.ladder[r].budget < 1.0 && p in rd.Entering(Killed(logs), r)
    ensures logs[r].kills[p] < |logs[r].judged| && settled == logs[r].judged[logs[r].kills[p]]
    ensures settled <= rd.Ran(Killed(logs), r)
    ensures OutOfReach(rd, rd.Entering(Killed(logs), r), r, ScoresBefore(rd, Killed(logs), r), rd.History(Killed(logs), p, r), settled)
  {
    assert RungAt(rd, Killed(logs), r, logs[r], pruning);
    settled := KillOfRung(rd, Killed(logs), r, logs[r], p, pruning);
  }

  lemma KillOfRung(rd: Round, kills: seq<set<Id>>, r: nat, log: RungLog, p: Id, pruning: bool) returns (settled: set<Id>)
    requires rd.Valid() && r < |kills| <= |rd.ladder| && RungAt(rd, kills, r, log, pruning) && p in log.kills
    ensures pruning && rd.ladder[r].budget < 1.0 && p in rd.Entering(kills, r)
    ensures log.kills[p] < |log.judged| && settled == log.judged[log.kills[p]] && settled <= rd.Ran(kills, r)
    ensures OutOfReach(rd, rd.Entering(kills, r), r, ScoresBefore(rd, kills, r), rd.History(kills, p, r), settled)
  {
    KillIsLogged(rd, r, EntryOf(rd, kills, r), log, p, pruning && rd.ladder[r].budget < 1.0);
    settled := log.judged[log.kills[p]];
    forall q | q in settled ensures q in rd.Ran(kills, r) { assert q in log.starts; }
  }

  lemma TopIsUntouched(rd: Round, logs: seq<RungLog>, pruning: bool)
    requires PrunedRun(rd, logs, pruning)
    ensures Killed(logs)[|logs| - 1] == {}
  {
    var top := |logs| - 1;
    if p :| p in logs[top].kills { var settled := LoggedKill(rd, logs, top, p, pruning); }
  }

  lemma NothingPruned(rd: Round, logs: seq<RungLog>)
    requires PrunedRun(rd, logs, false)
    ensures Killed(logs) == rd.NoKills()
  {
    forall r | 0 <= r < |logs| ensures logs[r].kills.Keys == {} {
      if p :| p in logs[r].kills { var settled := LoggedKill(rd, logs, r, p, false); }
    }
  }

  /** Whatever was pruned was behind. */
  lemma KillsAreBehind(rd: Round, logs: seq<RungLog>, pruning: bool)
    requires PrunedRun(rd, logs, pruning)
    ensures rd.Behind(Killed(logs))
  {
    var kills := Killed(logs);
    forall r, q | 0 <= r < |kills| && q in kills[r] ensures rd.ArmBehind(kills, r, q) {
      var settled := LoggedKill(rd, logs, r, q, pruning);
      HistoryCapped(rd, kills, q, r);
      PrunedIsBehind(rd, rd.Entering(kills, r), r, ScoresBefore(rd, kills, r), rd.History(kills, q, r), settled, rd.Ran(kills, r));
    }
  }

  /** Honest kills leave out only arms that enough others outscore. */
  lemma HonestKillsAreJustified(rd: Round, logs: seq<RungLog>, pruning: bool)
    requires PrunedRun(rd, logs, pruning) && AllHonest(rd, logs)
    ensures rd.Justified(Killed(logs))
  {
    var kills := Killed(logs);
    forall r | 0 <= r < |kills| ensures rd.RungJustified(kills, r) { HonestRung(rd, logs, r, pruning); }
  }

  lemma HonestRung(rd: Round, logs: seq<RungLog>, r: nat, pruning: bool)
    requires PrunedRun(rd, logs, pruning) && AllHonest(rd, logs) && r < |logs|
    ensures rd.RungJustified(Killed(logs), r)
  {
    var kills := Killed(logs);
    var alive, ran := rd.Entering(kills, r), rd.Ran(kills, r);
    var es := rd.Entries(alive, r);
    EntriesMembers(rd, alive, r);
    forall i | 0 <= i < |es| && es[i].item !in ran
      ensures CountAbove(Restrict(es, ran), es[i].key) >= rd.ladder[r].survivors
    {
      var q := es[i].item;
      assert es[i] in es;
      assert q in logs[r].kills;
      var settled := LoggedKill(rd, logs, r, q, pruning);
      assert HonestAt(rd, kills, r, q, logs[r]);
      PruneIsSound(rd, alive, r, ScoresBefore(rd, kills, r), rd.History(kills, q, r), settled, ran, q);
    }
  }

  lemma SameRun(rd: Round, kills: seq<set<Id>>)
    requires rd.Valid() && |kills| == |rd.ladder| && rd.Justified(kills) && kills[|kills| - 1] == {}
    ensures forall r :: 0 <= r <= |kills| ==> rd.Entering(kills, r) == rd.Entering(rd.NoKills(), r)
    ensures rd.FullEntries(kills) == rd.FullEntries(rd.NoKills())
  {
    forall r | 0 <= r <= |kills| ensures rd.Entering(kills, r) == rd.Entering(rd.NoKills(), r) {
      SameArmsAdvance(rd, kills, r);
    }
    SameFullScores(rd, kills);
  }

  /** If every arm killed would have scored at most the bound it was killed on, the arms
      entering every rung, the full-budget scores, and with them the winner's score, are those
      of the sequential run without pruning. */
  lemma HonestPruningRefines(rd: Round, logs: seq<RungLog>, pruning: bool)
    requires PrunedRun(rd, logs, pruning) && AllHonest(rd, logs)
    ensures forall r :: 0 <= r <= |logs| ==> rd.Entering(Killed(logs), r) == rd.Entering(rd.NoKills(), r)
    ensures rd.FullEntries(Killed(logs)) == rd.FullEntries(rd.NoKills())
    ensures forall best, reference ::
      rd.FullEntries(rd.NoKills()) != [] && rd.IsWinner(Killed(logs), best) && rd.IsWinner(rd.NoKills(), reference) ==>
        best.Some? && reference.Some? && best.value.key == reference.value.key && rd.IsWinner(rd.NoKills(), best)
  {
    var kills := Killed(logs);
    HonestKillsAreJustified(rd, logs, pruning);
    TopIsUntouched(rd, logs, pruning);
    SameRun(rd, kills);
    forall best, reference | rd.FullEntries(rd.NoKills()) != [] && rd.IsWinner(kills, best) && rd.IsWinner(rd.NoKills(), reference)
      ensures best.Some? && reference.Some? && best.value.key == reference.value.key && rd.IsWinner(rd.NoKills(), best)
    {
      ConcurrentRefinesSequential(rd, kills, best, reference);
    }
  }

  // -------------------------------------------------------------- one more rung of a log

  lemma {:induction false} ScoresBeforePrefix(rd: Round, kills: seq<set<Id>>, more: set<Id>, r: nat)
    requires rd.Valid() && r <= |kills| < |rd.ladder|
    ensures ScoresBefore(rd, kills + [more], r) == ScoresBefore(rd, kills, r)
  {
    if r > 0 {
      ScoresBeforePrefix(rd, kills, more, r - 1);
      RanPrefix(rd, kills, more, r - 1);
    }
  }

  lemma KilledMore(logs: seq<RungLog>, log: RungLog)
    ensures Killed(logs + [log]) == Killed(logs) + [log.kills.Keys]
  {}

  lemma EntryPrefix(rd: Round, kills: seq<set<Id>>, more: set<Id>, r: nat)
    requires rd.Valid() && r <= |kills| < |rd.ladder|
    ensures EntryOf(rd, kills + [more], r) == EntryOf(rd, kills, r)
  {
    EnteringPrefix(rd, kills, more, r);
    ScoresBeforePrefix(rd, kills, more, r);
    forall p ensures rd.History(kills + [more], p, r) == rd.History(kills, p, r) { HistoryPrefix(rd, kills, more, p, r); }
  }

  /** The next rung joins the log. */
  lemma LogGrows(rd: Round, logs: seq<RungLog>, log: RungLog, pruning: bool)
    requires rd.Valid() && |logs| < |rd.ladder| && RungsMade(rd, logs, pruning)
    requires var kills, r := Killed(logs), |logs|; var alive := rd.Entering(kills, r);
      && log.starts.Keys == Unkilled(alive, log.kills.Keys) && log.kills.Keys <= Unkilled(alive, {})
      && RungRun(rd, r, EntryOf(rd, kills, r), log, pruning && rd.ladder[r].budget < 1.0)
    ensures RungsMade(rd, logs + [log], pruning)
  {
    KilledMore(logs, log);
    forall r | 0 <= r < |logs + [log]| ensures RungAt(rd, Killed(logs + [log]), r, (logs + [log])[r], pruning) {
      EntryPrefix(rd, Killed(logs), log.kills.Keys, r);
      EnteringPrefix(rd, Killed(logs), log.kills.Keys, r);
      if r < |logs| {
        assert RungAt(rd, Killed(logs), r, logs[r], pruning);
        RanPrefix(rd, Killed(logs), log.kills.Keys, r);
      }
    }
  }
}
