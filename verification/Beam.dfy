/** The bounded beam over recipe genomes. */
module Beam {
  import opened Wrappers
  import opened Labels
  import opened Genome
  import opened GenomeLabels

  // Mutations and crossovers of the champion, deduplicated by label, ordered by a data-free
  // priority, cut to the beam width.

  // ------------------------------------------------------------------ the candidate pool

  function SetScale(g: Genome, v: Value): Genome { g.(scale := v) }
  function SetPower(g: Genome, v: Value): Genome { g.(power := v) }
  function SetPoly(g: Genome, v: Value): Genome { g.(poly := v) }
  function SetWinsor(g: Genome, v: Value): Genome { g.(winsor := v) }
  function SetReduce(g: Genome, v: Value): Genome { g.(reduce := v) }
  function SetSelect(g: Genome, v: Value): Genome { g.(select := v) }
  function SetTarget(g: Genome, v: Value): Genome { g.(target := v) }

  /** `m` is `g` with one gene changed to a choice that differs from its current value. */
  ghost predicate ChangeOf(g: Genome, current: Value, choices: seq<Value>, change: (Genome, Value) -> Genome, m: Genome) {
    exists i :: 0 <= i < |choices| && !Equal(current, choices[i]) && m == change(g, choices[i])
  }

  method Changes(g: Genome, current: Value, choices: seq<Value>, change: (Genome, Value) -> Genome) returns (out: seq<Genome>)
    ensures |out| <= |choices|
    ensures forall m :: m in out <==> ChangeOf(g, current, choices, change, m)
  {
    out := [];
    for i := 0 to |choices|
      invariant |out| <= i
      invariant forall m :: m in out <==> exists j :: 0 <= j < i && !Equal(current, choices[j]) && m == change(g, choices[j])
    {
      if !Equal(current, choices[i]) {
        out := out + [change(g, choices[i])];
      }
    }
  }

  ghost predicate SwapOf(g: Genome, kind: Kind, m: Genome) {
    exists i :: 0 <= i < |Bases(kind)| && PStr(Bases(kind)[i]) != g.base && m == g.(base := PStr(Bases(kind)[i]))
  }

  method BaseSwaps(g: Genome, kind: Kind) returns (out: seq<Genome>)
    ensures |out| <= |Bases(kind)|
    ensures forall m :: m in out <==> SwapOf(g, kind, m)
  {
    out := [];
    for i := 0 to |Bases(kind)|
      invariant |out| <= i
      invariant forall m :: m in out <==>
        exists j :: 0 <= j < i && PStr(Bases(kind)[j]) != g.base && m == g.(base := PStr(Bases(kind)[j]))
    {
      if PStr(Bases(kind)[i]) != g.base {
        out := out + [g.(base := PStr(Bases(kind)[i]))];
      }
    }
  }

  /** The genomes one gene away from `g`: another base of the kind, another choice of one
      alphabet, or interactions toggled when there is a polynomial. */
  ghost predicate Neighbour(g: Genome, kind: Kind, m: Genome) {
    || SwapOf(g, kind, m)
    || (exists i :: 0 <= i < |SCALE_CHOICES| && !Equal(g.scale, SCALE_CHOICES[i]) && m == g.(scale := SCALE_CHOICES[i]))
    || (exists i :: 0 <= i < |POWER_CHOICES| && !Equal(g.power, POWER_CHOICES[i]) && m == g.(power := POWER_CHOICES[i]))
    || (exists i :: 0 <= i < |POLY_CHOICES| && !Equal(g.poly, POLY_CHOICES[i]) && m == g.(poly := POLY_CHOICES[i]))
    || (exists i :: 0 <= i < |WINSOR_CHOICES| && !Equal(g.winsor, WINSOR_CHOICES[i]) && m == g.(winsor := WINSOR_CHOICES[i]))
    || (exists i :: 0 <= i < |REDUCE_CHOICES| && !Equal(g.reduce, REDUCE_CHOICES[i]) && m == g.(reduce := REDUCE_CHOICES[i]))
    || (exists i :: 0 <= i < |SELECT_CHOICES| && !Equal(g.select, SELECT_CHOICES[i]) && m == g.(select := SELECT_CHOICES[i]))
    || (kind == Regression && exists i :: 0 <= i < |TARGET_CHOICES| && !Equal(g.target, TARGET_CHOICES[i]) && m == g.(target := TARGET_CHOICES[i]))
    || (Truthy(g.poly) && m == g.(interactionsOnly := PBool(!Truthy(g.interactionsOnly))))
  }

  /** Single-gene mutations: exactly the neighbours of the champion, linearly many. */
  method PointMutations(champ: Genome, kind: Kind) returns (cands: seq<Genome>)
    ensures forall m :: m in cands <==> Neighbour(champ, kind, m)
    ensures |cands| <= |Bases(kind)| + 25
  {
    cands := BaseSwaps(champ, kind);
    var more := Changes(champ, champ.scale, SCALE_CHOICES, SetScale);
    cands := cands + more;
    more := Changes(champ, champ.power, POWER_CHOICES, SetPower);
    cands := cands + more;
    more := Changes(champ, champ.poly, POLY_CHOICES, SetPoly);
    cands := cands + more;
    more := Changes(champ, champ.winsor, WINSOR_CHOICES, SetWinsor);
    cands := cands + more;
    more := Changes(champ, champ.reduce, REDUCE_CHOICES, SetReduce);
    cands := cands + more;
    more := Changes(champ, champ.select, SELECT_CHOICES, SetSelect);
    cands := cands + more;
    if kind == Regression {
      more := Changes(champ, champ.target, TARGET_CHOICES, SetTarget);
      cands := cands + more;
    }
    if Truthy(champ.poly) {
      cands := cands + [champ.(interactionsOnly := PBool(!Truthy(champ.interactionsOnly)))];
    }
  }

  function Linear(kind: Kind): Genome {
    DEFAULTS.(base := DefaultBase(kind))
  }

  /** The curated starting points of a kind. */
  function Archetypes(kind: Kind): (s: seq<Genome>)
    ensures s != []
  {
    var lin := Linear(kind);
    var std := lin.(scale := PStr("standard"));
    var common := [
      std.(poly := PInt(2), interactionsOnly := PBool(true)),
      lin.(power := PStr("yeo-johnson")),
      lin.(power := PStr("quantile-normal")),
      lin.(scale := PStr("robust"), winsor := PFloat(0.05)),
      std.(poly := PInt(2), select := SELECT_CHOICES[1]),
      std.(poly := PInt(2)),
      std.(reduce := REDUCE_CHOICES[1])];
    if kind == Regression then
      common + [std.(poly := PInt(2), target := PStr("yeo-johnson")), lin.(power := PStr("yeo-johnson"), target := PStr("log1p"))]
    else common
  }

  /** Structural genes from the archetype, the rest from the champion. */
  function Child(champ: Genome, arch: Genome): Genome {
    champ.(poly := arch.poly, interactionsOnly := arch.interactionsOnly, power := arch.power,
           reduce := arch.reduce, select := arch.select, target := arch.target)
  }

  /** `c` has the structure of `arch` and is the champion otherwise. */
  ghost predicate IsChild(champ: Genome, arch: Genome, c: Genome) {
    && c.base == champ.base && c.scale == champ.scale && c.winsor == champ.winsor
    && c.poly == arch.poly && c.interactionsOnly == arch.interactionsOnly && c.power == arch.power
    && c.reduce == arch.reduce && c.select == arch.select && c.target == arch.target
  }

  method Crossovers(champ: Genome, kind: Kind, n: nat) returns (out: seq<Genome>)
    ensures |out| == (if n < |Archetypes(kind)| then n else |Archetypes(kind)|)
    ensures forall i :: 0 <= i < |out| ==> IsChild(champ, Canonical(Archetypes(kind)[i], kind), out[i])
  {
    var archs := Archetypes(kind);
    var k := if n < |archs| then n else |archs|;
    out := [];
    for i := 0 to k
      invariant |out| == i
      invariant forall j :: 0 <= j < i ==> IsChild(champ, Canonical(archs[j], kind), out[j])
    {
      out := out + [Child(champ, Canonical(archs[i], kind))];
    }
  }

  // ------------------------------------------------------------------------- ordering

  /** A candidate with what it is ordered by. */
  datatype Entry = Entry(priority: real, text: string, genome: Genome)

  /** How many flags are up. */
  function Count(flags: seq<bool>): nat {
    if flags == [] then 0 else Count(flags[..|flags| - 1]) + if flags[|flags| - 1] then 1 else 0
  }

  /** Which tokens of a label are those of recently failed ones. */
  function BadTokens(text: string, bad: set<string>): seq<bool> {
    var tokens := Split(text);
    seq(|tokens|, i requires 0 <= i < |tokens| => tokens[i] in bad)
  }

  /** Which preprocessing genes are set. */
  function GenesSet(g: Genome): seq<bool> {
    [Truthy(g.winsor), Truthy(g.power), Truthy(g.poly), Truthy(g.reduce), Truthy(g.select), Truthy(g.target)]
  }

  /** Tokens of recently failed labels cost 2 each, each preprocessing gene costs 0.1. */
  function Priority(g: Genome, text: string, bad: set<string>): real {
    -2.0 * Count(BadTokens(text, bad)) as real - 0.1 * Count(GenesSet(g)) as real
  }

  ghost function Up(flags: seq<bool>): set<int> {
    set i | 0 <= i < |flags| && flags[i]
  }

  lemma {:induction false} CountIsUp(flags: seq<bool>)
    ensures Count(flags) == |Up(flags)| <= |flags|
  {
    if flags != [] {
      var last := |flags| - 1;
      CountIsUp(flags[..last]);
      assert Up(flags) == Up(flags[..last]) + if flags[last] then {last} else {};
    }
  }

  /** What is tried sooner: with `b` and `c` the places of the failed tokens in two labels and
      `m` and `n` the preprocessing genes two genomes set, fewer failed tokens come first, and
      then fewer genes. */
  lemma PriorityOrder(g: Genome, text: string, h: Genome, other: string, bad: set<string>,
                      b: set<int>, c: set<int>, m: set<int>, n: set<int>)
    requires b == set i | 0 <= i < |Split(text)| && Split(text)[i] in bad
    requires c == set i | 0 <= i < |Split(other)| && Split(other)[i] in bad
    requires m == Up([Truthy(g.winsor), Truthy(g.power), Truthy(g.poly), Truthy(g.reduce), Truthy(g.select), Truthy(g.target)])
    requires n == Up([Truthy(h.winsor), Truthy(h.power), Truthy(h.poly), Truthy(h.reduce), Truthy(h.select), Truthy(h.target)])
    ensures |b| < |c| ==> Priority(g, text, bad) > Priority(h, other, bad)
    ensures |b| == |c| ==> (Priority(g, text, bad) > Priority(h, other, bad) <==> |m| < |n|)
  {
    assert b == Up(BadTokens(text, bad)) && c == Up(BadTokens(other, bad));
    CountIsUp(BadTokens(text, bad));
    CountIsUp(BadTokens(other, bad));
    CountIsUp(GenesSet(g));
    CountIsUp(GenesSet(h));
  }

  /** Lexicographic order of strings. */
  predicate Less(s: string, t: string) {
    if t == [] then false
    else if s == [] then true
    else s[0] < t[0] || (s[0] == t[0] && Less(s[1..], t[1..]))
  }

  lemma {:induction false} LessTotal(s: string, t: string)
    ensures s == t || Less(s, t) || Less(t, s)
    ensures !(Less(s, t) && Less(t, s)) && (Less(s, t) ==> s != t)
  {
    if s != [] && t != [] {
      LessTotal(s[1..], t[1..]);
      if s[0] == t[0] && s[1..] == t[1..] {
        assert s == [s[0]] + s[1..] && t == [t[0]] + t[1..];
      }
    }
  }

  lemma {:induction false} LessTransitive(s: string, t: string, u: string)
    requires Less(s, t) && Less(t, u)
    ensures Less(s, u)
  {
    if s != [] && s[0] == t[0] == u[0] { LessTransitive(s[1..], t[1..], u[1..]); }
  }

  /** Tried sooner: higher priority, then the smaller label. */
  predicate Before(a: Entry, b: Entry) {
    a.priority > b.priority || (a.priority == b.priority && Less(a.text, b.text))
  }

  lemma BeforeTotal(a: Entry, b: Entry)
    ensures a.text != b.text ==> Before(a, b) || Before(b, a)
    ensures !(Before(a, b) && Before(b, a))
  {
    LessTotal(a.text, b.text);
  }

  lemma BeforeTransitive(a: Entry, b: Entry, c: Entry)
    requires Before(a, b) && Before(b, c)
    ensures Before(a, c)
  {
    if a.priority == b.priority == c.priority { LessTransitive(a.text, b.text, c.text); }
  }

  function InsertEntry(x: Entry, s: seq<Entry>): seq<Entry> {
    if s == [] || !Before(s[0], x) then [x] + s else [s[0]] + InsertEntry(x, s[1..])
  }

  function SortEntries(s: seq<Entry>): seq<Entry> {
    if s == [] then [] else InsertEntry(s[0], SortEntries(s[1..]))
  }

  ghost predicate DistinctTexts(s: seq<Entry>) {
    forall i, j :: 0 <= i < j < |s| ==> s[i].text != s[j].text
  }

  ghost predicate Ordered(s: seq<Entry>) {
    forall i, j :: 0 <= i < j < |s| ==> Before(s[i], s[j])
  }

  lemma {:induction false} InsertKeepsOrder(x: Entry, s: seq<Entry>)
    requires Ordered(s) && forall e :: e in s ==> e.text != x.text
    ensures Ordered(InsertEntry(x, s)) && |InsertEntry(x, s)| == |s| + 1
    ensures forall e :: e in InsertEntry(x, s) <==> e == x || e in s
  {
    if s == [] {
    } else if !Before(s[0], x) {
      assert s[0] in s;
      BeforeTotal(s[0], x);
      forall j | 0 <= j < |s| ensures Before(x, s[j]) {
        if j > 0 { BeforeTransitive(x, s[0], s[j]); }
      }
    } else {
      var t := InsertEntry(x, s[1..]);
      InsertKeepsOrder(x, s[1..]);
      assert s == [s[0]] + s[1..];
      forall j | 0 <= j < |t| ensures Before(s[0], t[j]) {
        assert t[j] in t;
        if t[j] != x {
          var k :| 0 <= k < |s[1..]| && s[1..][k] == t[j];
          assert s[k + 1] == t[j];
        }
      }
    }
  }

  /** Sorting entries with distinct labels puts them in strict order and keeps them all. */
  lemma {:induction false} SortedEntries(s: seq<Entry>)
    requires DistinctTexts(s)
    ensures Ordered(SortEntries(s)) && |SortEntries(s)| == |s|
    ensures forall e :: e in SortEntries(s) <==> e in s
  {
    if s != [] {
      var rest := s[1..];
      assert s == [s[0]] + rest;
      SortedEntries(rest);
      forall e | e in SortEntries(rest) ensures e.text != s[0].text {
        var k :| 0 <= k < |rest| && rest[k] == e;
        assert s[k + 1] == e;
      }
      InsertKeepsOrder(s[0], SortEntries(rest));
    }
  }

  // --------------------------------------------------------------------- the proposals

  /** The entry of a candidate: normalised, labelled, prioritised. */
  function EntryOf(g: Genome, kind: Kind, bad: set<string>, format: real -> string): Entry {
    var gn := Canonical(g, kind);
    var text := GenomeLabel(gn, format);
    Entry(Priority(gn, text, bad), text, gn)
  }

  function EntryFor(kind: Kind, bad: set<string>, format: real -> string): Genome -> Entry {
    (g: Genome) => EntryOf(g, kind, bad, format)
  }

  /** What deduplication works with: entries of candidates, labels tried before, and the
      champion's label. */
  datatype Search = Search(entryOf: Genome -> Entry, tried: set<string>, champText: string) {

    predicate Eligible(text: string) {
      text !in tried && text != champText
    }

    /** The first candidate of every eligible label, in pool order. */
    function Scored(pool: seq<Genome>): seq<Entry> {
      if pool == [] then []
      else
        var before, e := Scored(pool[..|pool| - 1]), entryOf(pool[|pool| - 1]);
        if Eligible(e.text) && !HasText(before, e.text) then before + [e] else before
    }
  }

  predicate HasText(s: seq<Entry>, text: string) {
    exists i :: 0 <= i < |s| && s[i].text == text
  }

  lemma {:induction false} ScoredAre(q: Search, pool: seq<Genome>)
    ensures DistinctTexts(q.Scored(pool))
    ensures forall e :: e in q.Scored(pool) ==> q.Eligible(e.text) && exists i :: 0 <= i < |pool| && e == q.entryOf(pool[i])
    ensures forall i :: 0 <= i < |pool| && q.Eligible(q.entryOf(pool[i]).text) ==> HasText(q.Scored(pool), q.entryOf(pool[i]).text)
  {
    if pool != [] {
      var last := |pool| - 1;
      var before, e := q.Scored(pool[..last]), q.entryOf(pool[last]);
      ScoredAre(q, pool[..last]);
      forall f | f in q.Scored(pool) ensures q.Eligible(f.text) && exists i :: 0 <= i < |pool| && f == q.entryOf(pool[i]) {
        if f in before {
          var i :| 0 <= i < last && f == q.entryOf(pool[..last][i]);
          assert f == q.entryOf(pool[i]);
        } else {
          assert f == q.entryOf(pool[last]);
        }
      }
      forall i | 0 <= i < |pool| && q.Eligible(q.entryOf(pool[i]).text)
        ensures HasText(q.Scored(pool), q.entryOf(pool[i]).text)
      {
        if i < last {
          assert pool[..last][i] == pool[i];
          KeepsText(before, e, q.entryOf(pool[i]).text);
        } else {
          TakesText(before, e);
        }
      }
    }
  }

  lemma KeepsText(before: seq<Entry>, e: Entry, text: string)
    requires HasText(before, text)
    ensures HasText(before + [e], text)
  {
    var i :| 0 <= i < |before| && before[i].text == text;
    assert (before + [e])[i].text == text;
  }

  lemma TakesText(before: seq<Entry>, e: Entry)
    ensures HasText(before + [e], e.text)
  {
    assert (before + [e])[|before|] == e;
  }

  method ScorePool(q: Search, pool: seq<Genome>) returns (scored: seq<Entry>)
    ensures scored == q.Scored(pool)
  {
    scored := [];
    var seen: set<string> := {};
    assert pool[..0] == [];
    for i := 0 to |pool|
      invariant scored == q.Scored(pool[..i])
      invariant forall t :: t in seen <==> HasText(scored, t)
    {
      var e := q.entryOf(pool[i]);
      assert pool[..i + 1][..i] == pool[..i];
      if q.Eligible(e.text) && e.text !in seen {
        SeenAfter(scored, e);
        seen := seen + {e.text};
        scored := scored + [e];
      }
    }
    assert pool[..|pool|] == pool;
  }

  lemma SeenAfter(s: seq<Entry>, e: Entry)
    ensures forall t :: HasText(s + [e], t) <==> HasText(s, t) || t == e.text
  {
    forall t ensures HasText(s + [e], t) <==> HasText(s, t) || t == e.text {
      if HasText(s, t) { KeepsText(s, e, t); }
      TakesText(s, e);
    }
  }

  /** A proposed program: its label and its genome. */
  datatype Proposal = Proposal(text: string, genome: Genome)

  /** Normalises once more and labels what comes out. */
  function ProgramFrom(g: Genome, kind: Kind, format: real -> string): Proposal {
    var gn := Canonical(g, kind);
    Proposal(GenomeLabel(gn, format), gn)
  }

  /** Because normalisation is idempotent, a program carries the label its candidate was
      deduplicated by. */
  lemma EmittedLabel(kind: Kind, bad: set<string>, format: real -> string, g: Genome)
    ensures EmittedAs(EntryFor(kind, bad, format)(g), kind, format)
  {
    CanonicalTwice(g, kind);
  }

  /** Rendering a candidate yields its own genome, with the label it was deduplicated by. */
  ghost predicate EmittedAs(e: Entry, kind: Kind, format: real -> string) {
    ProgramFrom(e.genome, kind, format) == Proposal(e.text, e.genome)
  }

  /** What a beam of `width` out of `pool` promises: eligible candidates with distinct labels,
      in order, and every eligible label left out was behind all of them. */
  ghost predicate GoodBeam(q: Search, pool: seq<Genome>, width: nat, chosen: seq<Entry>) {
    && |chosen| <= width && Ordered(chosen) && DistinctTexts(chosen)
    && (forall i :: 0 <= i < |chosen| ==> q.Eligible(chosen[i].text) && FromPool(q.entryOf, pool, chosen[i]))
    && (forall j {:trigger q.entryOf(pool[j])} :: 0 <= j < |pool| ==> Covered(q, pool, width, chosen, q.entryOf(pool[j]).text))
  }

  ghost predicate FromPool(entryOf: Genome -> Entry, pool: seq<Genome>, e: Entry) {
    exists j :: 0 <= j < |pool| && e == entryOf(pool[j])
  }

  /** An eligible label is in a full beam or behind it. */
  ghost predicate Covered(q: Search, pool: seq<Genome>, width: nat, chosen: seq<Entry>, text: string) {
    q.Eligible(text) && !HasText(chosen, text) ==>
      |chosen| == width && exists e :: e in q.Scored(pool) && e.text == text && BehindAll(chosen, e)
  }

  ghost predicate BehindAll(chosen: seq<Entry>, e: Entry) {
    forall i :: 0 <= i < |chosen| ==> Before(chosen[i], e)
  }

  /** Sorts the candidates and takes the beam. */
  method TakeBeam(q: Search, pool: seq<Genome>, width: nat) returns (chosen: seq<Entry>)
    ensures GoodBeam(q, pool, width, chosen) && forall e :: e in chosen ==> e in q.Scored(pool)
  {
    var scored := ScorePool(q, pool);
    ScoredAre(q, pool);
    SortedEntries(scored);
    var ranked := SortEntries(scored);
    chosen := if width < |ranked| then ranked[..width] else ranked;
    BeamIsGood(q, pool, width, ranked, chosen);
  }

  lemma BeamIsGood(q: Search, pool: seq<Genome>, width: nat, ranked: seq<Entry>, chosen: seq<Entry>)
    requires Ordered(ranked) && forall e :: e in ranked <==> e in q.Scored(pool)
    requires chosen == (if width < |ranked| then ranked[..width] else ranked)
    ensures GoodBeam(q, pool, width, chosen)
  {
    ScoredAre(q, pool);
    OrderedIsDistinct(q, pool, ranked);
    forall i | 0 <= i < |chosen| ensures q.Eligible(chosen[i].text) && FromPool(q.entryOf, pool, chosen[i]) {
      assert ranked[i] in ranked;
    }
    forall j | 0 <= j < |pool| ensures Covered(q, pool, width, chosen, q.entryOf(pool[j]).text) {
      var text := q.entryOf(pool[j]).text;
      if q.Eligible(text) && !HasText(chosen, text) { LeftOut(q, pool, width, ranked, chosen, text); }
    }
  }

  lemma OrderedIsDistinct(q: Search, pool: seq<Genome>, ranked: seq<Entry>)
    requires Ordered(ranked) && DistinctTexts(q.Scored(pool)) && forall e :: e in ranked <==> e in q.Scored(pool)
    ensures DistinctTexts(ranked)
  {
    var s := q.Scored(pool);
    forall i, j | 0 <= i < j < |ranked| ensures ranked[i].text != ranked[j].text {
      assert ranked[i] in ranked && ranked[j] in ranked;
      var a :| 0 <= a < |s| && s[a] == ranked[i];
      var b :| 0 <= b < |s| && s[b] == ranked[j];
      BeforeTotal(ranked[i], ranked[j]);
    }
  }

  lemma LeftOut(q: Search, pool: seq<Genome>, width: nat, ranked: seq<Entry>, chosen: seq<Entry>, text: string)
    requires Ordered(ranked) && forall e :: e in ranked <==> e in q.Scored(pool)
    requires chosen == (if width < |ranked| then ranked[..width] else ranked)
    requires HasText(q.Scored(pool), text) && !HasText(chosen, text)
    ensures |chosen| == width
    ensures exists e :: e in q.Scored(pool) && e.text == text && BehindAll(chosen, e)
  {
    var s := q.Scored(pool);
    var a :| 0 <= a < |s| && s[a].text == text;
    assert s[a] in s;
    var k :| 0 <= k < |ranked| && ranked[k] == s[a];
    forall i | 0 <= i < |chosen| ensures ranked[i].text != text {
      assert chosen[i] == ranked[i];
    }
    assert BehindAll(chosen, s[a]);
  }

  /** Nothing is proposed again: no label that was tried, and never the champion's genes. */
  ghost predicate NewGenomes(chosen: seq<Entry>, tried: set<string>, champ: Genome) {
    forall i :: 0 <= i < |chosen| ==> chosen[i].text !in tried && !SameGenes(chosen[i].genome, champ)
  }

  /** No genome is lost: a candidate that is not the champion in other words and whose label
      was not tried is, gene by gene, one of the entries, and that entry is in the beam or
      behind a full one. */
  ghost predicate NothingLost(q: Search, kind: Kind, tried: set<string>, champ: Genome, format: real -> string,
                              pool: seq<Genome>, width: nat, chosen: seq<Entry>)
  {
    forall j {:trigger pool[j]} :: 0 <= j < |pool| ==>
      var gn := Canonical(pool[j], kind);
      !SameGenes(gn, champ) && GenomeLabel(gn, format) !in tried ==> KeptOrBehind(q, pool, width, chosen, gn)
  }

  ghost predicate KeptOrBehind(q: Search, pool: seq<Genome>, width: nat, chosen: seq<Entry>, gn: Genome) {
    exists e :: e in q.Scored(pool) && SameGenes(gn, e.genome) && (e in chosen || (|chosen| == width && BehindAll(chosen, e)))
  }

  /** Entries hold the canonical genome of a candidate and its label. */
  ghost predicate Labelled(entryOf: Genome -> Entry, kind: Kind, format: real -> string) {
    forall g {:trigger entryOf(g)} :: LabelledEntry(entryOf(g), Canonical(g, kind), format)
  }

  ghost predicate LabelledEntry(e: Entry, gn: Genome, format: real -> string) {
    e.genome == gn && e.text == GenomeLabel(gn, format)
  }

  lemma EntryIsLabelled(g: Genome, kind: Kind, bad: set<string>, format: real -> string)
    ensures LabelledEntry(EntryOf(g, kind, bad, format), Canonical(g, kind), format)
  {}

  lemma EntriesAreLabelled(kind: Kind, bad: set<string>, format: real -> string)
    ensures Labelled(EntryFor(kind, bad, format), kind, format)
  {
    forall g ensures LabelledEntry(EntryFor(kind, bad, format)(g), Canonical(g, kind), format) {
      EntryIsLabelled(g, kind, bad, format);
      assert EntryFor(kind, bad, format)(g) == EntryOf(g, kind, bad, format);
    }
  }

  lemma BeamLosesNothing(q: Search, kind: Kind, format: real -> string, champ: Genome, pool: seq<Genome>,
                         width: nat, chosen: seq<Entry>)
    requires Labelled(q.entryOf, kind, format) && q.champText == GenomeLabel(champ, format)
    requires Canonical(champ, kind) == champ && Faithful(format)
    requires GoodBeam(q, pool, width, chosen) && forall e :: e in chosen ==> e in q.Scored(pool)
    ensures NothingLost(q, kind, q.tried, champ, format, pool, width, chosen)
    ensures NewGenomes(chosen, q.tried, champ)
  {
    ScoredAre(q, pool);
    forall j | 0 <= j < |pool| && !SameGenes(Canonical(pool[j], kind), champ) && GenomeLabel(Canonical(pool[j], kind), format) !in q.tried
      ensures KeptOrBehind(q, pool, width, chosen, Canonical(pool[j], kind))
    {
      var text := q.entryOf(pool[j]).text;
      FaithfulLabels(pool[j], champ, kind, format);
      assert Covered(q, pool, width, chosen, text);
      var e := EntryWith(q, pool, width, chosen, text);
      SameTextSameGenes(q, kind, format, pool, pool[j], e);
    }
    forall i | 0 <= i < |chosen| ensures !SameGenes(chosen[i].genome, champ) {
      assert FromPool(q.entryOf, pool, chosen[i]);
      var j :| 0 <= j < |pool| && chosen[i] == q.entryOf(pool[j]);
      FaithfulLabels(pool[j], champ, kind, format);
    }
  }

  /** The entry that carries an eligible label. */
  lemma EntryWith(q: Search, pool: seq<Genome>, width: nat, chosen: seq<Entry>, text: string) returns (e: Entry)
    requires q.Eligible(text) && Covered(q, pool, width, chosen, text) && forall c :: c in chosen ==> c in q.Scored(pool)
    ensures e in q.Scored(pool) && e.text == text && (e in chosen || (|chosen| == width && BehindAll(chosen, e)))
  {
    if HasText(chosen, text) {
      var i :| 0 <= i < |chosen| && chosen[i].text == text;
      e := chosen[i];
    } else {
      e :| e in q.Scored(pool) && e.text == text && BehindAll(chosen, e);
    }
  }

  lemma SameTextSameGenes(q: Search, kind: Kind, format: real -> string, pool: seq<Genome>, g: Genome, e: Entry)
    requires Labelled(q.entryOf, kind, format) && Faithful(format)
    requires e in q.Scored(pool) && e.text == q.entryOf(g).text
    ensures SameGenes(Canonical(g, kind), e.genome)
  {
    ScoredAre(q, pool);
    var i :| 0 <= i < |pool| && e == q.entryOf(pool[i]);
    FaithfulLabels(g, pool[i], kind, format);
  }

  function Renderer(kind: Kind, format: real -> string): Genome -> Proposal {
    (g: Genome) => ProgramFrom(g, kind, format)
  }

  /** Rendering gives every entry the label it was chosen by. */
  ghost predicate Emits(chosen: seq<Entry>, render: Genome -> Proposal) {
    forall i :: 0 <= i < |chosen| ==> render(chosen[i].genome) == Proposal(chosen[i].text, chosen[i].genome)
  }

  lemma BeamEmits(q: Search, kind: Kind, bad: set<string>, format: real -> string, pool: seq<Genome>, width: nat,
                  chosen: seq<Entry>, render: Genome -> Proposal)
    requires q.entryOf == EntryFor(kind, bad, format) && GoodBeam(q, pool, width, chosen)
    requires render == Renderer(kind, format)
    ensures Emits(chosen, render)
  {
    forall i | 0 <= i < |chosen| ensures render(chosen[i].genome) == Proposal(chosen[i].text, chosen[i].genome) {
      assert FromPool(q.entryOf, pool, chosen[i]);
      PoolEmits(q.entryOf, kind, bad, format, pool, chosen[i]);
      RendererIs(kind, format, chosen[i].genome);
    }
  }

  lemma PoolEmits(entryOf: Genome -> Entry, kind: Kind, bad: set<string>, format: real -> string, pool: seq<Genome>, e: Entry)
    requires entryOf == EntryFor(kind, bad, format) && FromPool(entryOf, pool, e)
    ensures EmittedAs(e, kind, format)
  {
    var j :| 0 <= j < |pool| && e == entryOf(pool[j]);
    EmittedLabel(kind, bad, format, pool[j]);
  }

  lemma RendererIs(kind: Kind, format: real -> string, g: Genome)
    ensures Renderer(kind, format)(g) == ProgramFrom(g, kind, format)
  {}

  /** Renders the chosen candidates. */
  method Render(chosen: seq<Entry>, render: Genome -> Proposal) returns (out: seq<Proposal>)
    requires Emits(chosen, render)
    ensures Rendered(chosen, out)
  {
    out := [];
    for i := 0 to |chosen|
      invariant Rendered(chosen[..i], out)
    {
      out := out + [render(chosen[i].genome)];
    }
    assert chosen[..|chosen|] == chosen;
  }

  ghost predicate Rendered(chosen: seq<Entry>, out: seq<Proposal>) {
    |out| == |chosen| && forall i :: 0 <= i < |out| ==> out[i] == Proposal(chosen[i].text, chosen[i].genome)
  }

  /** Generates the pool of a champion and takes the beam. */
  method SearchAround(q: Search, champ: Genome, kind: Kind, width: nat, crossovers: nat)
    returns (pool: seq<Genome>, chosen: seq<Entry>)
    ensures InPool(champ, kind, crossovers, pool) && GoodBeam(q, pool, width, chosen)
    ensures forall e :: e in chosen ==> e in q.Scored(pool)
  {
    var mutations := PointMutations(champ, kind);
    var crossed := Crossovers(champ, kind, crossovers);
    PoolIs(champ, kind, crossovers, mutations, crossed);
    pool := mutations + crossed;
    chosen := TakeBeam(q, pool, width);
  }

  /** The champion a round starts from: the best recipe, or the first archetype when there is
      none or it is empty. */
  function Champion(best: Option<Genes>, kind: Kind): Option<Genome> {
    if best.Some? && best.value != NO_GENES then Normalize(best.value, kind)
    else Some(Canonical(Archetypes(kind)[0], kind))
  }

  lemma ChampionIsCanonical(best: Option<Genes>, kind: Kind)
    requires Champion(best, kind).Some?
    ensures Canonical(Champion(best, kind).value, kind) == Champion(best, kind).value
  {
    if best.Some? { CanonicalTwice(Complete(best.value), kind); }
    CanonicalTwice(Archetypes(kind)[0], kind);
  }

  method StartFrom(best: Option<Genes>, kind: Kind) returns (champ: Option<Genome>)
    ensures champ == Champion(best, kind)
  {
    if best.Some? && best.value != NO_GENES {
      champ := NormalizeGenome(best.value, kind);
    } else {
      champ := Some(Canonical(Archetypes(kind)[0], kind));
    }
  }

  /** The search a round makes around its champion. */
  function SearchFrom(champ: Genome, kind: Kind, tried: set<string>, bad: set<string>, format: real -> string): Search {
    Search(EntryFor(kind, bad, format), tried, GenomeLabel(champ, format))
  }

  /** One round of proposals; `None` when the champion's recipe cannot be normalised. */
  method Propose(kind: Kind, tried: set<string>, best: Option<Genes>, bad: set<string>, format: real -> string,
                 width: nat, crossovers: nat)
    returns (out: Option<seq<Proposal>>, ghost pool: seq<Genome>, ghost chosen: seq<Entry>)
    requires width >= 1
    ensures out.None? <==> Champion(best, kind).None?
    ensures out.Some? ==>
      && Rendered(chosen, out.value) && InPool(Champion(best, kind).value, kind, crossovers, pool)
      && GoodBeam(SearchFrom(Champion(best, kind).value, kind, tried, bad, format), pool, width, chosen)
      && (Faithful(format) ==> NewGenomes(chosen, tried, Champion(best, kind).value))
      && (Faithful(format) ==>
            NothingLost(SearchFrom(Champion(best, kind).value, kind, tried, bad, format), kind, tried,
                        Champion(best, kind).value, format, pool, width, chosen))
  {
    var champ := StartFrom(best, kind);
    if champ.None? {
      return None, [], [];
    }
    var q := SearchFrom(champ.value, kind, tried, bad, format);
    var candidates, taken := SearchAround(q, champ.value, kind, width, crossovers);
    BeamEmits(q, kind, bad, format, candidates, width, taken, Renderer(kind, format));
    EntriesAreLabelled(kind, bad, format);
    ChampionIsCanonical(best, kind);
    if Faithful(format) { BeamLosesNothing(q, kind, format, champ.value, candidates, width, taken); }
    var rendered := Render(taken, Renderer(kind, format));
    return Some(rendered), candidates, taken;
  }

  /** The pool holds exactly the champion's neighbours and its crossovers with the first
      archetypes, and is linear in the number of genes. */
  ghost predicate InPool(champ: Genome, kind: Kind, crossovers: nat, pool: seq<Genome>) {
    && |pool| <= |Bases(kind)| + 25 + crossovers
    && forall m :: m in pool <==> Neighbour(champ, kind, m) || CrossedWith(champ, kind, crossovers, m)
  }

  ghost predicate CrossedWith(champ: Genome, kind: Kind, crossovers: nat, m: Genome) {
    exists i :: 0 <= i < |Archetypes(kind)| && i < crossovers && IsChild(champ, Canonical(Archetypes(kind)[i], kind), m)
  }

  lemma PoolIs(champ: Genome, kind: Kind, crossovers: nat, mutations: seq<Genome>, crossed: seq<Genome>)
    requires (forall m :: m in mutations <==> Neighbour(champ, kind, m)) && |mutations| <= |Bases(kind)| + 25
    requires |crossed| == (if crossovers < |Archetypes(kind)| then crossovers else |Archetypes(kind)|)
    requires forall i :: 0 <= i < |crossed| ==> IsChild(champ, Canonical(Archetypes(kind)[i], kind), crossed[i])
    ensures InPool(champ, kind, crossovers, mutations + crossed)
  {
    forall m ensures m in crossed <==> CrossedWith(champ, kind, crossovers, m) {
      if CrossedWith(champ, kind, crossovers, m) {
        var i :| 0 <= i < |Archetypes(kind)| && i < crossovers && IsChild(champ, Canonical(Archetypes(kind)[i], kind), m);
        assert crossed[i] == m;
      }
    }
  }
}
