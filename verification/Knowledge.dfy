/** The research knowledge base, retrieval from it, and the proposer that uses it. */
module Knowledge {
  import opened Reals
  import opened LinAlg
  import opened Ranking
  import opened Context
  import opened Labels
  import opened Bandit
  import opened Ranker
  import opened Wrappers

  datatype KBRecord = KBRecord(
    problemType: string,
    fingerprint: Vec,
    td: TaskDescriptor,
    rd: RecipeDict,
    text: string,
    valGain: Reading,
    valScore: Reading,
    costSeconds: real,
    programId: nat)

  function RecordLabel(rd: RecipeDict): string {
    match rd
    case Shaped(r) => Label(r)
    case Raw(text, _) => text
  }

  /** What is asked of the knowledge base. */
  datatype Query = Query(problemType: string, fingerprint: Vec, minSimilarity: real, minGain: real, root: real -> real) {

    function Norm(v: Vec): real {
      root(Dot(v, v))
    }

    function Similarity(v: Vec): real
      requires |v| == |fingerprint| && Norm(fingerprint) * Norm(v) != 0.0
    {
      Dot(fingerprint, v) / (Norm(fingerprint) * Norm(v))
    }

    /** Not below the bar.  Nothing is below or above a gain that is not a number. */
    predicate Helped(gain: Reading) {
      match gain
      case Finite(v) => v >= minGain
      case Infinite(positive) => positive
      case NotANumber => true
    }

    /** Of the same problem type, helpful, comparable and similar. */
    predicate Qualifies(rec: KBRecord) {
      && rec.problemType == problemType
      && Helped(rec.valGain)
      && |rec.fingerprint| == |fingerprint|
      && Norm(rec.fingerprint) != 0.0 && Norm(fingerprint) != 0.0
      && Norm(fingerprint) * Norm(rec.fingerprint) != 0.0
      && Similarity(rec.fingerprint) >= minSimilarity
    }

    /** Similarity-weighted gain. */
    function Score(rec: KBRecord): Reading
      requires Qualifies(rec)
    {
      var sim := Similarity(rec.fingerprint);
      match rec.valGain
      case Finite(v) => Finite(sim * v)
      case Infinite(positive) => if sim == 0.0 then NotANumber else Infinite(positive == (sim > 0.0))
      case NotANumber => NotANumber
    }

    /** Every qualifying record has a finite score, so that ranking by it has one meaning. */
    ghost predicate Comparable(records: seq<KBRecord>) {
      forall rec :: rec in records && Qualifies(rec) ==> Score(rec).Finite?
    }
  }

  /** The number a candidate is ranked by; it only matters when the score is finite. */
  function KeyOf(score: Reading): real {
    if score.Finite? then score.value else 0.0
  }

  /** What retrieval promises in any case: at most `limit` candidates, no label twice, and no
      label missing unless the limit is reached. */
  ghost predicate CoversLabels(candidates: seq<Keyed<KBRecord>>, out: seq<Keyed<KBRecord>>, limit: nat) {
    && |out| <= limit
    && (forall e :: e in out ==> e in candidates)
    && DistinctLabels(out)
    && (forall c :: c in candidates && !HasLabel(out, c.item.text) ==> |out| == limit)
  }

  /** And when scores are finite: the best `limit` labels, each through its best instance. */
  ghost predicate TopOverLabels(candidates: seq<Keyed<KBRecord>>, out: seq<Keyed<KBRecord>>, limit: nat) {
    && |out| <= limit && Desc(out)
    && (forall e :: e in out ==> e in candidates)
    && DistinctLabels(out)
    && (forall e, c :: e in out && c in candidates && c.item.text == e.item.text ==> c.key <= e.key)
    && (forall c :: c in candidates && !HasLabel(out, c.item.text) ==>
          |out| == limit && forall e :: e in out ==> c.key <= e.key)
  }

  ghost predicate DistinctLabels(s: seq<Keyed<KBRecord>>) {
    forall i, j :: 0 <= i < j < |s| ==> s[i].item.text != s[j].item.text
  }

  ghost predicate HasLabel(s: seq<Keyed<KBRecord>>, text: string) {
    exists i :: 0 <= i < |s| && s[i].item.text == text
  }

  /** Walks the ranked candidates, skipping labels already taken, until `k` were taken. */
  method FirstPerLabel(ranked: seq<Keyed<KBRecord>>, k: int) returns (out: seq<Keyed<KBRecord>>)
    ensures CoversLabels(ranked, out, if k < 1 then 1 else k)
    ensures Desc(ranked) ==> TopOverLabels(ranked, out, if k < 1 then 1 else k)
  {
    ghost var limit := if k < 1 then 1 else k;
    out := [];
    var seen: set<string> := {};
    var i := 0;
    while i < |ranked|
      invariant 0 <= i <= |ranked|
      invariant Walked(ranked, i, out)
      invariant forall t :: t in seen <==> HasLabel(out, t)
      invariant |out| < limit
    {
      var text := ranked[i].item.text;
      if text !in seen {
        WalkTakes(ranked, i, out);
        LabelsAfter(out, ranked[i]);
        seen := seen + {text};
        out := out + [ranked[i]];
        i := i + 1;
        if |out| >= k {
          break;
        }
      } else {
        WalkSkips(ranked, i, out);
        i := i + 1;
      }
    }
    WalkCovers(ranked, i, out, limit);
    if Desc(ranked) { WalkIsTop(ranked, i, out, limit); }
  }

  /** After `i` candidates: the first instance of each label seen so far was taken. */
  ghost predicate Walked(ranked: seq<Keyed<KBRecord>>, i: nat, out: seq<Keyed<KBRecord>>)
    requires i <= |ranked|
  {
    && (forall e :: e in out ==> e in ranked[..i])
    && DistinctLabels(out)
    && (forall j :: 0 <= j < i ==> HasLabel(out, ranked[j].item.text))
    && (Desc(ranked) ==> WalkedDown(ranked, i, out))
  }

  ghost predicate WalkedDown(ranked: seq<Keyed<KBRecord>>, i: nat, out: seq<Keyed<KBRecord>>)
    requires i <= |ranked|
  {
    && Desc(out)
    && (forall j, m :: 0 <= j < i && 0 <= m < |out| && out[m].item.text == ranked[j].item.text ==> ranked[j].key <= out[m].key)
  }

  lemma WalkCovers(ranked: seq<Keyed<KBRecord>>, i: nat, out: seq<Keyed<KBRecord>>, limit: nat)
    requires i <= |ranked| && Walked(ranked, i, out)
    requires |out| <= limit && (i < |ranked| ==> |out| == limit)
    ensures CoversLabels(ranked, out, limit)
  {
    forall e | e in out ensures e in ranked { assert e in ranked[..i]; }
    forall c | c in ranked && !HasLabel(out, c.item.text) ensures |out| == limit {
      var j :| 0 <= j < |ranked| && ranked[j] == c;
    }
  }

  lemma LabelsAfter(out: seq<Keyed<KBRecord>>, e: Keyed<KBRecord>)
    ensures forall t :: HasLabel(out + [e], t) <==> HasLabel(out, t) || t == e.item.text
  {
    forall t ensures HasLabel(out + [e], t) <==> HasLabel(out, t) || t == e.item.text {
      var more := out + [e];
      if HasLabel(out, t) {
        var i :| 0 <= i < |out| && out[i].item.text == t;
        assert more[i].item.text == t;
      }
      assert more[|out|] == e;
    }
  }

  lemma WalkTakes(ranked: seq<Keyed<KBRecord>>, i: nat, out: seq<Keyed<KBRecord>>)
    requires i < |ranked| && Walked(ranked, i, out) && !HasLabel(out, ranked[i].item.text)
    ensures Walked(ranked, i + 1, out + [ranked[i]])
  {
    LabelsAfter(out, ranked[i]);
    assert ranked[..i + 1] == ranked[..i] + [ranked[i]];
    if Desc(ranked) { TakesDown(ranked, i, out); }
  }

  lemma TakesDown(ranked: seq<Keyed<KBRecord>>, i: nat, out: seq<Keyed<KBRecord>>)
    requires Desc(ranked) && i < |ranked| && Walked(ranked, i, out) && !HasLabel(out, ranked[i].item.text)
    ensures WalkedDown(ranked, i + 1, out + [ranked[i]])
  {
    forall m | 0 <= m < |out| ensures out[m].key >= ranked[i].key && out[m].item.text != ranked[i].item.text {
      assert out[m] in ranked[..i];
    }
  }

  lemma WalkSkips(ranked: seq<Keyed<KBRecord>>, i: nat, out: seq<Keyed<KBRecord>>)
    requires i < |ranked| && Walked(ranked, i, out) && HasLabel(out, ranked[i].item.text)
    ensures Walked(ranked, i + 1, out)
  {
    assert ranked[..i + 1] == ranked[..i] + [ranked[i]];
    if Desc(ranked) {
      forall m | 0 <= m < |out| ensures out[m].key >= ranked[i].key {
        assert out[m] in ranked[..i];
      }
    }
  }

  lemma WalkIsTop(ranked: seq<Keyed<KBRecord>>, i: nat, out: seq<Keyed<KBRecord>>, limit: nat)
    requires Desc(ranked) && i <= |ranked| && Walked(ranked, i, out)
    requires |out| <= limit && (i < |ranked| ==> |out| == limit)
    ensures TopOverLabels(ranked, out, limit)
  {
    forall e, c | e in out && c in ranked && (c.item.text == e.item.text || !HasLabel(out, c.item.text))
      ensures c.key <= e.key
    {
      var j :| 0 <= j < |ranked| && ranked[j] == c;
      var m :| 0 <= m < |out| && out[m] == e;
      assert e in ranked[..i];
      if j < i { assert HasLabel(out, ranked[j].item.text); }
    }
    forall c | c in ranked && !HasLabel(out, c.item.text) ensures |out| == limit {
      var j :| 0 <= j < |ranked| && ranked[j] == c;
    }
  }

  /** The qualifying records with their scores, in log order. */
  function Candidates(q: Query, records: seq<KBRecord>): seq<Keyed<KBRecord>> {
    if records == [] then []
    else
      (if q.Qualifies(records[0]) then [Keyed(records[0], KeyOf(q.Score(records[0])))] else []) + Candidates(q, records[1..])
  }

  lemma {:induction false} CandidatesAre(q: Query, records: seq<KBRecord>)
    ensures forall e :: e in Candidates(q, records) <==>
                        e.item in records && q.Qualifies(e.item) && e.key == KeyOf(q.Score(e.item))
  {
    if records != [] {
      CandidatesAre(q, records[1..]);
      assert records == [records[0]] + records[1..];
    }
  }

  lemma SameMembers(s: seq<Keyed<KBRecord>>, t: seq<Keyed<KBRecord>>)
    requires multiset(t) == multiset(s)
    ensures forall e :: e in t <==> e in s
  {
    forall e ensures e in t <==> e in s {
      assert e in multiset(t) <==> e in multiset(s);
    }
  }

  /** What sorting by keys that are not all numbers yields: the same entries in some order. */
  method AnyOrder(s: seq<Keyed<KBRecord>>) returns (t: seq<Keyed<KBRecord>>)
    ensures multiset(t) == multiset(s)
  {
    t := [];
    var rest := s;
    while rest != []
      invariant multiset(t) + multiset(rest) == multiset(s)
      decreases |rest|
    {
      var i :| 0 <= i < |rest|;
      assert rest == rest[..i] + [rest[i]] + rest[i + 1..];
      t, rest := t + [rest[i]], rest[..i] + rest[i + 1..];
    }
  }

  /** The candidates best first when their scores are finite, else in some order. */
  method Ranked(q: Query, records: seq<KBRecord>) returns (ranked: seq<Keyed<KBRecord>>)
    ensures forall e :: e in ranked <==> e in Candidates(q, records)
    ensures q.Comparable(records) ==> Desc(ranked)
  {
    var candidates := Candidates(q, records);
    if forall i :: 0 <= i < |candidates| ==> Scores(q, candidates[i].item) {
      ranked := SortDesc(candidates);
      SortIsDesc(candidates);
      SortPermutes(candidates);
    } else {
      CandidatesAre(q, records);
      ranked := AnyOrder(candidates);
    }
    SameMembers(candidates, ranked);
  }

  predicate Scores(q: Query, rec: KBRecord) {
    q.Qualifies(rec) ==> q.Score(rec).Finite?
  }

  // ------------------------------------------------------------------ what a match is

  /** `s` is the cosine of two vectors of the same length, neither of them zero. */
  ghost predicate Cosine(u: Vec, v: Vec, s: real) {
    |u| == |v| && exists x, y {:trigger IsLength(u, x), IsLength(v, y)} :: IsLength(u, x) && IsLength(v, y) && s * (x * y) == Dot(u, v)
  }

  ghost predicate IsLength(u: Vec, x: real) {
    x > 0.0 && x * x == Dot(u, u)
  }

  /** A record that answers a query: of the same problem type, with a gain that is not below
      the bar, and similar enough. */
  ghost predicate Answers(q: Query, rec: KBRecord) {
    && rec.problemType == q.problemType
    && (rec.valGain.Finite? ==> rec.valGain.value >= q.minGain) && rec.valGain != Infinite(false)
    && exists s :: Cosine(q.fingerprint, rec.fingerprint, s) && s >= q.minSimilarity
  }

  /** Similarity times gain. */
  ghost predicate Worth(q: Query, rec: KBRecord, x: real) {
    rec.valGain.Finite? && exists s :: Cosine(q.fingerprint, rec.fingerprint, s) && x == s * rec.valGain.value
  }

  lemma LengthIsUnique(u: Vec, x: real, y: real)
    requires IsLength(u, x) && IsLength(u, y)
    ensures x == y
  {
    LargerRoot(x, y);
    LargerRoot(y, x);
  }

  lemma CosineIsUnique(u: Vec, v: Vec, s: real, t: real)
    requires Cosine(u, v, s) && Cosine(u, v, t)
    ensures s == t
  {
    var x, y :| IsLength(u, x) && IsLength(v, y) && s * (x * y) == Dot(u, v);
    var z, w :| IsLength(u, z) && IsLength(v, w) && t * (z * w) == Dot(u, v);
    LengthIsUnique(u, x, z);
    LengthIsUnique(v, y, w);
    PositiveProduct(x, y, x * y);
    Cancel(s, t, x * y);
  }

  lemma NormIs(q: Query, v: Vec)
    requires IsRoot(q.root)
    ensures q.Norm(v) >= 0.0 && (q.Norm(v) != 0.0 <==> IsLength(v, q.Norm(v)))
    ensures forall x :: IsLength(v, x) ==> x == q.Norm(v)
  {
    DotSelf(v);
    var n := q.Norm(v);
    forall x | IsLength(v, x) ensures x == n {
      LargerRoot(x, n);
      LargerRoot(n, x);
    }
  }

  lemma SimilarityIs(q: Query, v: Vec)
    requires IsRoot(q.root) && |v| == |q.fingerprint|
    requires q.Norm(v) != 0.0 && q.Norm(q.fingerprint) != 0.0 && q.Norm(q.fingerprint) * q.Norm(v) != 0.0
    ensures Cosine(q.fingerprint, v, q.Similarity(v))
  {
    var x, y := q.Norm(q.fingerprint), q.Norm(v);
    NormIs(q, v);
    NormIs(q, q.fingerprint);
    PositiveProduct(x, y, x * y);
    Quotient(Dot(q.fingerprint, v), x * y);
    assert IsLength(q.fingerprint, x) && IsLength(v, y);
  }

  lemma NormsOfCosine(q: Query, v: Vec, s: real)
    requires IsRoot(q.root) && Cosine(q.fingerprint, v, s)
    ensures q.Norm(v) != 0.0 && q.Norm(q.fingerprint) != 0.0 && q.Norm(q.fingerprint) * q.Norm(v) != 0.0
    ensures s == q.Similarity(v)
  {
    var x, y :| IsLength(q.fingerprint, x) && IsLength(v, y) && s * (x * y) == Dot(q.fingerprint, v);
    NormIs(q, v);
    NormIs(q, q.fingerprint);
    PositiveProduct(x, y, x * y);
    SimilarityIs(q, v);
    CosineIsUnique(q.fingerprint, v, s, q.Similarity(v));
  }

  /** What the comparisons and divisions of the code select, and what they rank by. */
  lemma QualifiesIs(q: Query, rec: KBRecord)
    requires IsRoot(q.root)
    ensures q.Qualifies(rec) <==> Answers(q, rec)
    ensures q.Qualifies(rec) && rec.valGain.Finite? ==> q.Score(rec).Finite? && Worth(q, rec, q.Score(rec).value)
  {
    if Answers(q, rec) {
      var s :| Cosine(q.fingerprint, rec.fingerprint, s) && s >= q.minSimilarity;
      NormsOfCosine(q, rec.fingerprint, s);
    }
    if q.Qualifies(rec) { SimilarityIs(q, rec.fingerprint); }
  }

  /** What was retrieved, without reference to how it was computed: records that answer the
      query, keyed by their worth, and while there is room no answer's label is missing. */
  ghost predicate AreAnswers(q: Query, records: seq<KBRecord>, scored: seq<Keyed<KBRecord>>, limit: nat) {
    && (forall e :: e in scored ==> e.item in records && Answers(q, e.item) && (e.item.valGain.Finite? ==> Worth(q, e.item, e.key)))
    && (forall rec :: rec in records && Answers(q, rec) && !HasLabel(scored, rec.text) ==> |scored| == limit)
  }

  lemma RetrievedAnswers(q: Query, records: seq<KBRecord>, scored: seq<Keyed<KBRecord>>, limit: nat)
    requires IsRoot(q.root) && CoversLabels(Candidates(q, records), scored, limit)
    ensures AreAnswers(q, records, scored, limit)
  {
    CandidatesAre(q, records);
    forall e | e in scored
      ensures e.item in records && Answers(q, e.item) && (e.item.valGain.Finite? ==> Worth(q, e.item, e.key))
    {
      assert e in Candidates(q, records);
      QualifiesIs(q, e.item);
    }
    forall rec | rec in records && Answers(q, rec) && !HasLabel(scored, rec.text) ensures |scored| == limit {
      QualifiesIs(q, rec);
      assert Keyed(rec, KeyOf(q.Score(rec))) in Candidates(q, records);
    }
  }

  class KnowledgeBase {
    var records: seq<KBRecord>

    constructor (records: seq<KBRecord>)
      ensures this.records == records
    {
      this.records := records;
    }

    /** Appends one outcome; nothing already stored changes. */
    method Record(problemType: string, fingerprint: Vec, td: TaskDescriptor, rd: RecipeDict,
                  valGain: Reading, valScore: Reading, costSeconds: real, programId: nat)
      returns (rec: KBRecord)
      modifies this
      ensures records == old(records) + [rec]
      ensures rec == KBRecord(problemType, fingerprint, td, rd, RecordLabel(rd), valGain, valScore, costSeconds, programId)
    {
      rec := KBRecord(problemType, fingerprint, td, rd, RecordLabel(rd), valGain, valScore, costSeconds, programId);
      records := records + [rec];
    }

    /** The best qualifying records, one per label, best first: at most `k` of them, and one
        even when `k` is not positive. */
    method Retrieve(q: Query, k: int) returns (out: seq<KBRecord>, ghost scored: seq<Keyed<KBRecord>>)
      ensures out == Items(scored)
      ensures q.Norm(q.fingerprint) == 0.0 ==> out == []
      ensures CoversLabels(Candidates(q, records), scored, if k < 1 then 1 else k)
      ensures q.Comparable(records) ==> TopOverLabels(Candidates(q, records), scored, if k < 1 then 1 else k)
      ensures IsRoot(q.root) ==> AreAnswers(q, records, scored, if k < 1 then 1 else k)
    {
      if q.Norm(q.fingerprint) == 0.0 {
        NothingComparable(q, records);
        if IsRoot(q.root) { RetrievedAnswers(q, records, [], if k < 1 then 1 else k); }
        return [], [];
      }
      var ranked := Ranked(q, records);
      var taken := FirstPerLabel(ranked, k);
      scored := taken;
      out := Items(taken);
      if IsRoot(q.root) { RetrievedAnswers(q, records, taken, if k < 1 then 1 else k); }
    }
  }

  lemma {:induction false} NothingComparable(q: Query, records: seq<KBRecord>)
    requires q.Norm(q.fingerprint) == 0.0
    ensures Candidates(q, records) == []
  {
    if records != [] { NothingComparable(q, records[1..]); }
  }

  // ----------------------------------------------------- knowledge base and bandit in step

  /** What the bandit learns from one record. */
  function SampleOf(c: Curves, rec: KBRecord): (x: Sample)
    ensures |x.phi| == CONTEXT_DIM
  {
    Sample(Phi(c, rec.td, rec.rd), Clip(rec.valScore))
  }

  function SamplesOf(c: Curves, records: seq<KBRecord>): (log: seq<Sample>)
    ensures |log| == |records| && forall i :: 0 <= i < |log| ==> log[i] == SampleOf(c, records[i])
  {
    seq(|records|, i requires 0 <= i < |records| => SampleOf(c, records[i]))
  }

  lemma SamplesMore(c: Curves, records: seq<KBRecord>, n: nat)
    requires n < |records|
    ensures SamplesOf(c, records[..n + 1]) == SamplesOf(c, records[..n]) + [SampleOf(c, records[n])]
  {}

  /** Replays a knowledge base into a bandit. */
  method LoadFromKB(ranker: LinUCBRanker, kb: KnowledgeBase) returns (n: nat)
    requires ranker.Valid()
    modifies ranker
    ensures ranker.Valid() && n == |kb.records|
    ensures ranker.log == old(ranker.log) + SamplesOf(ranker.curves, kb.records)
    ensures ranker.nUpdates == old(ranker.nUpdates) + n
  {
    var recs := kb.records;
    n := 0;
    while n < |recs|
      invariant 0 <= n <= |recs| && ranker.Valid()
      invariant ranker.log == old(ranker.log) + SamplesOf(ranker.curves, recs[..n])
    {
      ranker.Update(recs[n].td, recs[n].rd, recs[n].valScore);
      SamplesMore(ranker.curves, recs, n);
      n := n + 1;
    }
    assert recs[..|recs|] == recs;
  }

  /** `a - b` for floats. */
  function Minus(a: Reading, b: Reading): (r: Reading)
    ensures a.Finite? && b.Finite? ==> r.Finite? && r.value + b.value == a.value
    ensures a.NotANumber? || b.NotANumber? ==> r.NotANumber?
  {
    match (a, b)
    case (Finite(x), Finite(y)) => Finite(x - y)
    case (Infinite(p), Finite(_)) => a
    case (Finite(_), Infinite(p)) => Infinite(!p)
    case (Infinite(p), Infinite(q)) => if p == q then NotANumber else a
    case _ => NotANumber
  }

  /** What is stored of an outcome.  A failed run counts as score zero and gain zero; without an
      incumbent the gain is the score. */
  function Stored(problemType: string, fingerprint: Vec, td: TaskDescriptor, program: Program, valScore: Reading,
                  incumbentBefore: Option<Reading>, costSeconds: real, ok: bool): KBRecord {
    var score := if ok then valScore else Finite(0.0);
    var gain := if ok && incumbentBefore.Some? then Minus(score, incumbentBefore.value) else score;
    KBRecord(problemType, fingerprint, td, RecipeOf(program), RecordLabel(RecipeOf(program)), gain, score, costSeconds, program.id)
  }

  /** Score and gain as numbers: zero for a failed run, else the score and what it is more than
      the incumbent's. */
  ghost predicate Gained(rec: KBRecord, valScore: Reading, incumbentBefore: Option<Reading>, ok: bool) {
    && (!ok ==> rec.valScore == rec.valGain == Finite(0.0))
    && (ok ==> rec.valScore == valScore && (incumbentBefore.None? ==> rec.valGain == valScore))
    && (ok && valScore.Finite? && incumbentBefore.Some? && incumbentBefore.value.Finite? ==>
          rec.valGain.Finite? && rec.valGain.value + incumbentBefore.value.value == valScore.value)
  }

  class KnowledgeProposer {
    const kb: KnowledgeBase
    const ranker: LinUCBRanker

    /** The bandit has learned exactly what the knowledge base holds. */
    ghost predicate InStep()
      reads this, kb, ranker
    {
      ranker.Valid() && ranker.log == SamplesOf(ranker.curves, kb.records)
    }

    /** Warm-started, the bandit is in step with any knowledge base; cold, with an empty one. */
    constructor (kb: KnowledgeBase, alpha: real, curves: Curves, warmStart: bool)
      ensures this.kb == kb && fresh(ranker) && ranker.Valid()
      ensures ranker.alpha == alpha && ranker.ridge == 1.0 && ranker.curves == curves
      ensures warmStart || kb.records == [] ==> InStep()
    {
      this.kb := kb;
      ranker := new LinUCBRanker(alpha, 1.0, curves);
      new;
      if warmStart {
        var n := LoadFromKB(ranker, kb);
      }
    }

    /** Stores an outcome and teaches it to the bandit. */
    method RecordOutcome(problemType: string, fingerprint: Vec, td: TaskDescriptor, program: Program,
                         valScore: Reading, incumbentBefore: Option<Reading>, costSeconds: real, ok: bool)
      requires InStep()
      modifies kb, ranker
      ensures InStep()
      ensures kb.records == old(kb.records) +
        [Stored(problemType, fingerprint, td, program, valScore, incumbentBefore, costSeconds, ok)]
      ensures Gained(kb.records[|kb.records| - 1], valScore, incumbentBefore, ok)
    {
      var score := if ok then valScore else Finite(0.0);
      var gain := if ok && incumbentBefore.Some? then Minus(score, incumbentBefore.value)
                  else if ok then score else Finite(0.0);
      ghost var before := kb.records;
      var rec := kb.Record(problemType, fingerprint, td, RecipeOf(program), gain, score, costSeconds, program.id);
      ranker.Update(td, RecipeOf(program), score);
      assert SamplesOf(ranker.curves, before + [rec]) == SamplesOf(ranker.curves, before) + [SampleOf(ranker.curves, rec)];
    }
  }

  /** A fresh bandit that replays the knowledge base ends in the state of the live one. */
  method FreshReplay(proposer: KnowledgeProposer) returns (replayed: LinUCBRanker)
    requires proposer.InStep() && proposer.ranker.ridge == 1.0
    ensures fresh(replayed) && replayed.Valid()
    ensures replayed.a == proposer.ranker.a && replayed.b == proposer.ranker.b
    ensures replayed.nUpdates == proposer.ranker.nUpdates == |proposer.kb.records|
  {
    replayed := new LinUCBRanker(proposer.ranker.alpha, 1.0, proposer.ranker.curves);
    var n := LoadFromKB(replayed, proposer.kb);
    ghost var live := proposer.ranker;
    assert replayed.log == live.log;
    assert Stats(replayed.a, replayed.b, replayed.nUpdates) == Stats(live.a, live.b, live.nUpdates);
  }

  /** What the bandit holds does not depend on the order of the records. */
  lemma BanditIsItsLog(c: Curves, ridge: real, records: seq<KBRecord>, shuffled: seq<KBRecord>)
    requires multiset(records) == multiset(shuffled)
    ensures Learn(ridge, CONTEXT_DIM, SamplesOf(c, records)) == Learn(ridge, CONTEXT_DIM, SamplesOf(c, shuffled))
  {
    SamplesPermute(c, records, shuffled);
    OrderOfSamples(ridge, CONTEXT_DIM, SamplesOf(c, records), SamplesOf(c, shuffled));
  }

  lemma SamplesPermute(c: Curves, records: seq<KBRecord>, shuffled: seq<KBRecord>)
    requires multiset(records) == multiset(shuffled)
    ensures multiset(SamplesOf(c, records)) == multiset(SamplesOf(c, shuffled))
  {
    var sample := (rec: KBRecord) => SampleOf(c, rec);
    assert SamplesOf(c, records) == Map(sample, records) && SamplesOf(c, shuffled) == Map(sample, shuffled);
    MapPermutes(sample, records, shuffled);
  }
}
