/** The rung schedule of the concurrent portfolio: a geometric ladder of training
    fractions, and how many arms each rung lets through. */
module Ladder {
  import opened Reals

  datatype Config = Config(eta: real, minFrac: real, minRungArms: int)

  datatype Rung = Rung(rung: nat, budget: real, survivors: int)

  function Eta(cfg: Config): (r: real)
    ensures r >= 2.0
  {
    if cfg.eta > 2.0 then cfg.eta else 2.0
  }

  function MinFrac(cfg: Config): (r: real)
    ensures 0.001 <= r <= 1.0
  {
    var x := if cfg.minFrac > 0.001 then cfg.minFrac else 0.001;
    if x < 1.0 then x else 1.0
  }

  /** `first * ratio^k`. */
  function Geo(first: real, ratio: real, k: nat): real
    decreases k, 0
  {
    if k == 0 then first else NextGeo(first, ratio, k - 1)
  }

  // The two steps are functions of their own so that the prover sees a product or a quotient
  // only where a proof mentions them.
  function NextGeo(first: real, ratio: real, k: nat): real
    decreases k, 1
  {
    ratio * Geo(first, ratio, k)
  }

  lemma GeoStep(first: real, ratio: real, k: nat)
    ensures Geo(first, ratio, k + 1) == ratio * Geo(first, ratio, k)
  {
    assert NextGeo(first, ratio, k) == ratio * Geo(first, ratio, k);
  }

  /** The training fraction of rung `r` before it is capped. */
  function Fraction(cfg: Config, r: nat): real {
    Geo(MinFrac(cfg), Eta(cfg), r)
  }

  /** Survivors of a rung that `s` arms entered: the top `1/eta`, at least one. */
  function Shrink(s: int, eta: real): int
    requires eta >= 2.0
  {
    var c := Ceil(s as real / eta);
    if c < 1 then 1 else c
  }

  /** Arms left after `k` halvings of `n` arms. */
  function Left(n: nat, eta: real, k: nat): int
    requires eta >= 2.0
    decreases k, 0
  {
    if k == 0 then n else NextLeft(n, eta, k - 1)
  }

  function NextLeft(n: nat, eta: real, k: nat): int
    requires eta >= 2.0
    decreases k, 1
  {
    Shrink(Left(n, eta, k), eta)
  }

  lemma LeftIsShrunk(n: nat, eta: real, k: nat)
    requires eta >= 2.0
    ensures Left(n, eta, k + 1) == Shrink(Left(n, eta, k), eta)
  {
    assert NextLeft(n, eta, k) == Shrink(Left(n, eta, k), eta);
  }

  /** Number of terms of `x, x*eta, x*eta^2, ...` that stay at or below 1: the floor
      of `log(1/x)/log(eta)`, plus one. */
  function Steps(x: real, eta: real): nat
    requires eta >= 2.0 && 0.0 < x <= 1.0
    decreases (1.0 / x).Floor
  {
    if eta * x <= 1.0 then
      HalvesInverse(x, eta);
      1 + Steps(eta * x, eta)
    else 1
  }

  lemma HalvesInverse(x: real, eta: real)
    requires eta >= 2.0 && 0.0 < x && eta * x <= 1.0
    ensures 0.0 < eta * x && 0 <= (1.0 / (eta * x)).Floor < (1.0 / x).Floor
  {
    StrictMono(0.0, x, eta);
    var q := 1.0 / (eta * x);
    InverseOf(eta * x, q);
    Assoc(q, eta, x);
    QuotientUnique(1.0, x, q * eta);
    Doubles(eta, q, q * eta);
    FloorGap(q, 1.0 / x);
  }

  lemma InverseOf(y: real, q: real)
    requires 0.0 < y <= 1.0 && q == 1.0 / y
    ensures q * y == 1.0 && q >= 1.0
  {
    Quotient(1.0, y);
    ReciprocalAtLeastOne(q, y);
  }

  lemma ReciprocalAtLeastOne(q: real, y: real)
    requires 0.0 < y <= 1.0 && q * y == 1.0
    ensures q >= 1.0
  {
    if q < 1.0 { StrictMono(q, 1.0, y); }
  }

  lemma FloorGap(q: real, p: real)
    requires q >= 1.0 && p >= q + q
    ensures 0 <= q.Floor < p.Floor
  {}

  function RungCount(cfg: Config): nat {
    var s := Steps(MinFrac(cfg), Eta(cfg));
    if s < 2 then 2 else s
  }

  /** Whether the first two rungs are so close that the schedule merges them. */
  predicate Merged(cfg: Config) {
    MinFrac(cfg) > 1.0 - 0.000000001
  }

  predicate TooFew(n: nat, cfg: Config) {
    n < (if cfg.minRungArms > 2 then cfg.minRungArms else 2)
  }

  /** Row `r` of the schedule before close rungs are merged. */
  function PlainRung(n: nat, cfg: Config, r: nat): Rung {
    var top := RungCount(cfg) - 1;
    if r >= top then Rung(r, 1.0, Left(n, Eta(cfg), top))
    else Rung(r, Fraction(cfg, r), Left(n, Eta(cfg), r + 1))
  }

  /** The schedule, row by row. */
  ghost predicate LadderFor(n: nat, cfg: Config, ladder: seq<Rung>) {
    if TooFew(n, cfg) then ladder == [Rung(0, 1.0, n)]
    else if Merged(cfg) then ladder == [Rung(0, 1.0, Shrink(n, Eta(cfg)))]
    else
      && |ladder| == RungCount(cfg)
      && forall r :: 0 <= r < |ladder| ==> ladder[r] == PlainRung(n, cfg, r)
  }

  // ------------------------------------------------------------------- the fractions

  lemma {:induction false} GeoShift(x: real, eta: real, k: nat)
    ensures Geo(eta * x, eta, k) == Geo(x, eta, k + 1)
  {
    if k > 0 { GeoShift(x, eta, k - 1); }
  }

  lemma {:induction false} GeoPositive(x: real, eta: real, k: nat)
    requires eta >= 2.0 && x > 0.0
    ensures Geo(x, eta, k) >= x
    ensures Geo(x, eta, k + 1) >= Geo(x, eta, k) + Geo(x, eta, k)
  {
    if k > 0 { GeoPositive(x, eta, k - 1); }
    GeoStep(x, eta, k);
    Doubles(eta, Geo(x, eta, k), Geo(x, eta, k + 1));
  }

  lemma Doubles(eta: real, g: real, next: real)
    requires eta >= 2.0 && g >= 0.0 && next == eta * g
    ensures next >= g + g
  {
    Mono(2.0, eta, g);
  }

  lemma {:induction false} GeoGrows(x: real, eta: real, i: nat, j: nat)
    requires eta >= 2.0 && x > 0.0 && i < j
    ensures 0.0 < Geo(x, eta, i)
    ensures Geo(x, eta, i) + Geo(x, eta, i) <= Geo(x, eta, j)
  {
    GeoPositive(x, eta, j - 1);
    GeoPositive(x, eta, i);
    if i < j - 1 { GeoGrows(x, eta, i, j - 1); }
  }

  lemma {:induction false} StepsBracket(x: real, eta: real, s: nat)
    requires eta >= 2.0 && 0.0 < x <= 1.0 && s == Steps(x, eta)
    ensures s >= 1 && Geo(x, eta, s - 1) <= 1.0 < Geo(x, eta, s)
    decreases s
  {
    if eta * x <= 1.0 {
      StrictMono(0.0, x, eta);
      StepsBracket(eta * x, eta, s - 1);
      GeoShift(x, eta, s - 2);
      GeoShift(x, eta, s - 1);
    } else {
      assert Geo(x, eta, 1) == eta * Geo(x, eta, 0);
    }
  }

  /** Rungs below the top never use all of the data. */
  lemma LowRungs(cfg: Config, r: nat)
    requires r + 1 < RungCount(cfg)
    ensures 0.0 < Fraction(cfg, r) <= 1.0
    ensures !Merged(cfg) ==> Fraction(cfg, r) <= 1.0 - 0.000000001
  {
    var mf, eta, s := MinFrac(cfg), Eta(cfg), Steps(MinFrac(cfg), Eta(cfg));
    GeoPositive(mf, eta, r);
    if s >= 2 {
      StepsBracket(mf, eta, s);
      GeoGrows(mf, eta, r, s - 1);
    }
  }

  lemma MergedHasTwo(cfg: Config)
    requires Merged(cfg)
    ensures RungCount(cfg) == 2
  {
    OneStep(MinFrac(cfg), Eta(cfg));
  }

  lemma OneStep(x: real, eta: real)
    requires eta >= 2.0 && 0.5 < x <= 1.0
    ensures Steps(x, eta) == 1
  {
    Doubles(eta, x, eta * x);
  }

  // -------------------------------------------------------------- building the schedule

  method BuildLadder(n: nat, cfg: Config) returns (ladder: seq<Rung>)
    ensures LadderFor(n, cfg, ladder)
  {
    if TooFew(n, cfg) {
      return [Rung(0, 1.0, n)];
    }
    var rows := BuildRows(n, cfg);
    ladder := MergeRows(n, cfg, rows);
  }

  method BuildRows(n: nat, cfg: Config) returns (rows: seq<Rung>)
    ensures |rows| == RungCount(cfg)
    ensures forall r :: 0 <= r < |rows| ==> rows[r] == PlainRung(n, cfg, r)
  {
    var eta, minFrac, count := Eta(cfg), MinFrac(cfg), RungCount(cfg);
    rows := [];
    var prev: int := n;
    var r := 0;
    while r < count
      invariant 0 <= r <= count == RungCount(cfg) && |rows| == r
      invariant prev == Left(n, eta, if r < count then r else count - 1)
      invariant forall i :: 0 <= i < r ==> rows[i] == PlainRung(n, cfg, i)
    {
      var raw := Geo(minFrac, eta, r);
      var budget := if raw < 1.0 then raw else 1.0;
      var survivors := Shrink(prev, eta);
      if r == count - 1 {
        budget := 1.0;
        survivors := prev;
      } else {
        LowRungs(cfg, r);
      }
      rows := rows + [Rung(r, budget, survivors)];
      prev := survivors;
      r := r + 1;
    }
  }

  predicate Close(a: real, b: real) {
    -0.000000001 < a - b < 0.000000001
  }

  method MergeRows(n: nat, cfg: Config, rows: seq<Rung>) returns (ladder: seq<Rung>)
    requires !TooFew(n, cfg)
    requires |rows| == RungCount(cfg)
    requires forall r :: 0 <= r < |rows| ==> rows[r] == PlainRung(n, cfg, r)
    ensures LadderFor(n, cfg, ladder)
  {
    ladder := [];
    var i := 0;
    while i < |rows|
      invariant 0 <= i <= |rows|
      invariant !Merged(cfg) ==> ladder == rows[..i]
      invariant Merged(cfg) ==> ladder == if i == 0 then [] else [rows[0].(survivors := rows[i - 1].survivors)]
    {
      if i > 0 { Neighbours(n, cfg, i); }
      var row := rows[i];
      if |ladder| > 0 && Close(row.budget, ladder[|ladder| - 1].budget) {
        ladder := ladder[|ladder| - 1 := ladder[|ladder| - 1].(survivors := row.survivors)];
      } else {
        ladder := ladder + [row.(rung := |ladder|)];
      }
      i := i + 1;
    }
    ladder := ladder[|ladder| - 1 := ladder[|ladder| - 1].(budget := 1.0)];
    if Merged(cfg) {
      MergedHasTwo(cfg);
      assert Left(n, Eta(cfg), 1) == Shrink(Left(n, Eta(cfg), 0), Eta(cfg));
    }
  }

  lemma Neighbours(n: nat, cfg: Config, i: nat)
    requires 0 < i < RungCount(cfg)
    ensures Close(PlainRung(n, cfg, i).budget, PlainRung(n, cfg, i - 1).budget) <==> Merged(cfg)
    ensures Merged(cfg) ==> i == 1
  {
    LowRungs(cfg, i - 1);
    if Merged(cfg) {
      MergedHasTwo(cfg);
    } else {
      GeoPositive(MinFrac(cfg), Eta(cfg), i - 1);
      GeoGrows(MinFrac(cfg), Eta(cfg), i - 1, i);
    }
  }

  // ----------------------------------------------------------- what the schedule promises

  /** Budgets climb strictly to exactly the full training set. */
  lemma LadderClimbs(n: nat, cfg: Config, ladder: seq<Rung>)
    requires LadderFor(n, cfg, ladder)
    ensures |ladder| >= 1 && ladder[|ladder| - 1].budget == 1.0
    ensures forall i, j :: 0 <= i < j < |ladder| ==> 0.0 < ladder[i].budget < ladder[j].budget
    ensures forall i :: 0 <= i < |ladder| ==> ladder[i].rung == i
  {
    forall i, j | 0 <= i < j < |ladder| ensures 0.0 < ladder[i].budget < ladder[j].budget {
      LowRungs(cfg, i);
      GeoGrows(MinFrac(cfg), Eta(cfg), i, j);
    }
  }

  /** `z` is the least number of arms, at least one, that is `1 / eta` of `s`. */
  predicate LeastShare(z: int, eta: real, s: int) {
    z >= 1 && z as real * eta >= s as real && (z == 1 || (z - 1) as real * eta < s as real)
  }

  lemma ShrinkIsLeast(s: int, eta: real)
    requires eta >= 2.0
    ensures LeastShare(Shrink(s, eta), eta, s)
  {
    var c := Ceil(s as real / eta);
    CeilBounds(s as real / eta);
    QuotientAtMost(s as real, eta, c as real);
    QuotientAtMost(s as real, eta, (c - 1) as real);
    if c < 1 { QuotientAtMost(s as real, eta, 1.0); }
  }

  /** The rows of a schedule of several rungs, each from the one before: fractions multiply by
      `eta` from `first` on as long as one more factor stays within the full data, the last is
      the full data, and every rung but the last lets the least share of its arms through. */
  ghost predicate Rows(n: nat, eta: real, first: real, ladder: seq<Rung>) {
    var top := |ladder| - 1;
    && top >= 1 && ladder[0].budget == first && ladder[top].budget == 1.0
    && (forall r {:trigger NextBudget(eta, ladder, r)} :: 0 <= r < top - 1 ==> NextBudget(eta, ladder, r))
    && LastStep(eta, ladder[top - 1].budget, top)
    && LeastShare(ladder[0].survivors, eta, n)
    && (forall r {:trigger NextShare(eta, ladder, r)} :: 0 <= r < top - 1 ==> NextShare(eta, ladder, r))
    && ladder[top].survivors == ladder[top - 1].survivors
  }

  ghost predicate NextBudget(eta: real, ladder: seq<Rung>, r: nat)
    requires r + 1 < |ladder|
  {
    ladder[r + 1].budget == eta * ladder[r].budget
  }

  ghost predicate NextShare(eta: real, ladder: seq<Rung>, r: nat)
    requires r + 1 < |ladder|
  {
    LeastShare(ladder[r + 1].survivors, eta, ladder[r].survivors)
  }

  /** Below the top there is room for one more factor and not for two, unless there was none
      for the first. */
  ghost predicate LastStep(eta: real, b: real, top: int) {
    eta * (eta * b) > 1.0 && (top > 1 ==> eta * b <= 1.0)
  }

  /** The schedule of any configuration, with its parameters spelled out. */
  lemma RowsAre(n: nat, cfg: Config, ladder: seq<Rung>, eta: real, first: real)
    requires LadderFor(n, cfg, ladder)
    requires eta == (if cfg.eta < 2.0 then 2.0 else cfg.eta)
    requires first == (if cfg.minFrac < 0.001 then 0.001 else if cfg.minFrac > 1.0 then 1.0 else cfg.minFrac)
    ensures n < 2 || n < cfg.minRungArms ==> ladder == [Rung(0, 1.0, n)]
    ensures n >= 2 && n >= cfg.minRungArms && first <= 1.0 - 0.000000001 ==> Rows(n, eta, first, ladder)
    ensures n >= 2 && n >= cfg.minRungArms && first > 1.0 - 0.000000001 ==>
      |ladder| == 1 && ladder[0].budget == 1.0 && LeastShare(ladder[0].survivors, eta, n)
  {
    ShrinkIsLeast(n, eta);
    if !TooFew(n, cfg) && !Merged(cfg) { SeveralRows(n, cfg, ladder, eta, first); }
  }

  lemma SeveralRows(n: nat, cfg: Config, ladder: seq<Rung>, eta: real, first: real)
    requires LadderFor(n, cfg, ladder) && !TooFew(n, cfg) && !Merged(cfg) && eta == Eta(cfg) && first == MinFrac(cfg)
    ensures Rows(n, eta, first, ladder)
  {
    var top := |ladder| - 1;
    forall r | 0 <= r <= top ensures ladder[r] == PlainRung(n, cfg, r) {}
    forall r | 0 <= r < top - 1 ensures NextBudget(eta, ladder, r) && NextShare(eta, ladder, r) {
      BudgetRow(eta, first, ladder, r);
      ShareRow(n, eta, ladder, r);
    }
    LastRows(n, cfg, ladder, eta, first);
  }

  lemma BudgetRow(eta: real, first: real, ladder: seq<Rung>, r: nat)
    requires r + 2 < |ladder| && ladder[r].budget == Geo(first, eta, r) && ladder[r + 1].budget == Geo(first, eta, r + 1)
    ensures NextBudget(eta, ladder, r)
  {
    GeoStep(first, eta, r);
  }

  lemma ShareRow(n: nat, eta: real, ladder: seq<Rung>, r: nat)
    requires eta >= 2.0 && r + 2 < |ladder|
    requires ladder[r].survivors == Left(n, eta, r + 1) && ladder[r + 1].survivors == Left(n, eta, r + 2)
    ensures NextShare(eta, ladder, r)
  {
    LeftIsShrunk(n, eta, r + 1);
    ShrinkIsLeast(Left(n, eta, r + 1), eta);
  }

  lemma LastRows(n: nat, cfg: Config, ladder: seq<Rung>, eta: real, first: real)
    requires LadderFor(n, cfg, ladder) && !TooFew(n, cfg) && !Merged(cfg) && eta == Eta(cfg) && first == MinFrac(cfg)
    ensures LeastShare(ladder[0].survivors, eta, n) && LastStep(eta, ladder[|ladder| - 2].budget, |ladder| - 1)
  {
    var top := |ladder| - 1;
    var p, q := Geo(first, eta, top), Geo(first, eta, top + 1);
    LeftIsShrunk(n, eta, 0);
    ShrinkIsLeast(n, eta);
    TopStep(cfg, top, p, q);
    LastFactors(first, eta, top - 1, Geo(first, eta, top - 1), p, q);
    LastStepIs(eta, ladder[top - 1].budget, top, p, q);
  }

  lemma LastStepIs(eta: real, b: real, top: int, p: real, q: real)
    requires p == eta * b && q == eta * p && q > 1.0 && (top > 1 ==> p <= 1.0)
    ensures LastStep(eta, b, top)
  {
    calc {
      eta * (eta * b);
      eta * p;
      q;
    }
  }

  lemma TopStep(cfg: Config, top: int, p: real, q: real)
    requires top == RungCount(cfg) - 1 && p == Geo(MinFrac(cfg), Eta(cfg), top) && q == Geo(MinFrac(cfg), Eta(cfg), top + 1)
    ensures q > 1.0 && (top > 1 ==> p <= 1.0)
  {
    StepsBracket(MinFrac(cfg), Eta(cfg), Steps(MinFrac(cfg), Eta(cfg)));
    GeoPositive(MinFrac(cfg), Eta(cfg), top);
  }

  lemma LastFactors(x: real, eta: real, k: nat, b: real, p: real, q: real)
    requires b == Geo(x, eta, k) && p == Geo(x, eta, k + 1) && q == Geo(x, eta, k + 2)
    ensures p == eta * b && q == eta * p
  {
    GeoStep(x, eta, k);
    GeoStep(x, eta, k + 1);
  }

  lemma CeilBounds(x: real)
    ensures x <= Ceil(x) as real < x + 1.0
  {}

  lemma CeilLeast(x: real, z: int)
    ensures Ceil(x) <= z <==> x <= z as real
  {}

  lemma ShrinkBounds(s: int, eta: real)
    requires eta >= 2.0 && s >= 1
    ensures 1 <= Shrink(s, eta) <= s
    ensures Shrink(s, eta) == Ceil(s as real / eta)
    ensures Shrink(s, eta) as real * eta <= s as real + eta
  {
    var x := s as real / eta;
    Quotient(s as real, eta);
    CeilBounds(x);
    Mono(2.0, eta, x);
    Mono(Ceil(x) as real, x + 1.0, eta);
    Distribute(x, 1.0, eta);
  }

  lemma {:induction false} LeftBounds(n: nat, eta: real, i: nat, j: nat)
    requires eta >= 2.0 && n >= 1 && i <= j
    ensures 1 <= Left(n, eta, j) <= Left(n, eta, i)
    decreases j
  {
    if i < j {
      LeftBounds(n, eta, i, j - 1);
      ShrinkBounds(Left(n, eta, j - 1), eta);
    } else if j > 0 {
      LeftBounds(n, eta, j - 1, j - 1);
      ShrinkBounds(Left(n, eta, j - 1), eta);
    }
  }

  /** Survivor counts never grow and stay between one and the number of arms. */
  lemma LadderNarrows(n: nat, cfg: Config, ladder: seq<Rung>)
    requires LadderFor(n, cfg, ladder) && n >= 1
    ensures forall i, j :: 0 <= i <= j < |ladder| ==> 1 <= ladder[j].survivors <= ladder[i].survivors <= n
  {
    var top := RungCount(cfg) - 1;
    ShrinkBounds(n, Eta(cfg));
    forall i, j | 0 <= i <= j < |ladder|
      ensures 1 <= ladder[j].survivors <= ladder[i].survivors <= n
    {
      LeftBounds(n, Eta(cfg), 0, if i < top then i + 1 else top);
      LeftBounds(n, Eta(cfg), if i < top then i + 1 else top, if j < top then j + 1 else top);
    }
  }

  // ------------------------------------------------------ the header's closed form

  /** The header's formula for the arms left after `k` halvings: `ceil(n / eta^k)`. */
  ghost predicate AgreesWithHeader(n: nat, eta: real, k: nat)
    requires eta >= 2.0
  {
    Geo(1.0, eta, k) > 0.0 && Left(n, eta, k) == Ceil(n as real / Geo(1.0, eta, k))
  }

  /** For a whole number `eta`, halving rung by rung reaches the header's formula. */
  lemma {:induction false} ClosedForm(n: nat, eta: real, k: nat)
    requires eta >= 2.0 && eta == eta.Floor as real && n >= 1
    ensures AgreesWithHeader(n, eta, k)
  {
    if k > 0 {
      ClosedForm(n, eta, k - 1);
      HeaderStep(n, eta, k, Geo(1.0, eta, k - 1), Geo(1.0, eta, k), Left(n, eta, k - 1));
    } else {
      QuotientUnique(n as real, Geo(1.0, eta, 0), n as real);
    }
  }

  lemma HeaderStep(n: nat, eta: real, k: nat, p: real, q: real, left: int)
    requires eta >= 2.0 && eta == eta.Floor as real && n >= 1 && k > 0
    requires p == Geo(1.0, eta, k - 1) && q == Geo(1.0, eta, k) && left == Left(n, eta, k - 1)
    requires p > 0.0 && left == Ceil(n as real / p)
    ensures AgreesWithHeader(n, eta, k)
  {
    var next := Left(n, eta, k);
    NextRung(n, eta, k, p, q, left, next);
    NextCeil(n as real, p, eta, q, left, next);
    HeaderValue(n, eta, k, q, next);
  }

  lemma NextRung(n: nat, eta: real, k: nat, p: real, q: real, left: int, next: int)
    requires eta >= 2.0 && n >= 1 && k > 0
    requires p == Geo(1.0, eta, k - 1) && q == Geo(1.0, eta, k) && left == Left(n, eta, k - 1) && next == Left(n, eta, k)
    ensures q == eta * p && q > 0.0 && next == Ceil(left as real / eta)
  {
    GeoStep(1.0, eta, k - 1);
    GeoPositive(1.0, eta, k);
    LeftBounds(n, eta, k - 1, k - 1);
    LeftIsShrunk(n, eta, k - 1);
    ShrinkBounds(left, eta);
  }

  lemma HeaderValue(n: nat, eta: real, k: nat, q: real, next: int)
    requires eta >= 2.0 && q == Geo(1.0, eta, k) > 0.0 && next == Left(n, eta, k) == Ceil(n as real / q)
    ensures AgreesWithHeader(n, eta, k)
  {}

  lemma NextCeil(n: real, p: real, eta: real, q: real, left: int, next: int)
    requires p > 0.0 && q > 0.0 && eta >= 2.0 && eta == eta.Floor as real && q == eta * p
    requires left == Ceil(n / p) && next == Ceil(left as real / eta)
    ensures next == Ceil(n / q)
  {
    NestedCeil(n / p, eta);
    TwoQuotients(n, p, eta, q);
  }

  lemma TwoQuotients(n: real, p: real, eta: real, q: real)
    requires p > 0.0 && eta >= 2.0 && q == eta * p && q > 0.0
    ensures (n / p) / eta == n / q
  {
    var x := n / p;
    Quotient(n, p);
    Quotient(x, eta);
    Assoc(x / eta, eta, p);
    QuotientUnique(n, q, x / eta);
  }

  lemma NestedCeil(x: real, eta: real)
    requires eta >= 2.0 && eta == eta.Floor as real
    ensures Ceil(Ceil(x) as real / eta) == Ceil(x / eta)
  {
    SameUpperBounds(x, eta, Ceil(x / eta));
    SameUpperBounds(x, eta, Ceil(Ceil(x) as real / eta));
  }

  lemma SameUpperBounds(x: real, eta: real, z: int)
    requires eta >= 2.0 && eta == eta.Floor as real
    ensures Ceil(Ceil(x) as real / eta) <= z <==> Ceil(x / eta) <= z
  {
    CeilLeast(x / eta, z);
    QuotientAtMost(x, eta, z as real);
    WholeProduct(z, eta);
    CeilLeast(x, z * eta.Floor);
    QuotientAtMost(Ceil(x) as real, eta, z as real);
    CeilLeast(Ceil(x) as real / eta, z);
  }

  lemma WholeProduct(z: int, eta: real)
    requires eta == eta.Floor as real
    ensures (z * eta.Floor) as real == z as real * eta
  {}

  /** The header's closed form holds for all arm counts and rungs exactly when `eta`
      is a whole number: for any other `eta` it already misses at the second rung. */
  lemma ClosedFormExactlyForWholeEta(eta: real)
    requires eta >= 2.0
    ensures (forall n: nat, k: nat :: n >= 1 ==> AgreesWithHeader(n, eta, k)) <==> eta == eta.Floor as real
  {
    if eta == eta.Floor as real {
      forall n: nat, k: nat | n >= 1 ensures AgreesWithHeader(n, eta, k) { ClosedForm(n, eta, k); }
    } else {
      var z, y := HighFraction(eta, Frac(eta), 1, 1.0, Frac(eta));
      HeaderMisses(eta, z, y, (y * eta).Floor);
      assert !AgreesWithHeader((y * eta).Floor, eta, 2);
    }
  }

  function Frac(x: real): (r: real)
    ensures 0.0 <= r < 1.0
  {
    x - x.Floor as real
  }

  /** Some multiple of a number that is not whole has fractional part at least 1/2. */
  lemma {:induction false} HighFraction(eta: real, f: real, z: nat, zr: real, m: real)
    returns (w: nat, y: real)
    requires f == Frac(eta) > 0.0 && z >= 1 && zr == z as real
    requires m == f * zr < 1.0
    ensures w >= 1 && y == w as real * eta && Frac(y) >= 0.5
    decreases (1.0 / f).Floor - z
  {
    Mono(1.0, zr, f);
    if m >= 0.5 {
      w, y := z, z as real * eta;
      FracOfMultiple(eta, z, f, m, y);
    } else {
      var next := zr + 1.0;
      NextMultiple(f, zr, m, next, f * next);
      w, y := HighFraction(eta, f, z + 1, next, f * next);
    }
  }

  lemma NextMultiple(f: real, z: real, m: real, next: real, m': real)
    requires 0.0 < f <= m < 0.5 && m == f * z && next == z + 1.0 && m' == f * next
    ensures m' < 1.0 && next <= 1.0 / f
  {
    Increment(f, z, next);
    Inverse(f, next);
  }

  lemma Increment(f: real, z: real, next: real)
    requires next == z + 1.0
    ensures f * next == f * z + f
  {
    Distribute(z, 1.0, f);
  }

  lemma Inverse(f: real, next: real)
    requires 0.0 < f && f * next <= 1.0
    ensures next <= 1.0 / f
  {
    Quotient(1.0, f);
    Cancel(next, 1.0 / f, f);
  }

  lemma FracOfMultiple(eta: real, z: nat, f: real, m: real, y: real)
    requires f == Frac(eta) && m == f * z as real && 0.0 <= m < 1.0 && y == z as real * eta
    ensures Frac(y) == m
  {
    var whole := z * eta.Floor;
    Distribute(eta.Floor as real, f, z as real);
    assert whole as real == z as real * eta.Floor as real;
    SameFactor(eta, eta.Floor as real + f, z as real);
    assert y == whole as real + m;
    assert y.Floor == whole;
  }

  lemma HeaderMisses(eta: real, z: nat, y: real, n: int)
    requires eta >= 2.0 && z >= 1 && y == z as real * eta && Frac(y) >= 0.5
    requires n == (y * eta).Floor
    ensures n >= 1 && !AgreesWithHeader(n, eta, 2)
  {
    LargeEnough(eta, z as real, y, y * eta);
    FirstHalving(n, eta, y);
    SecondHalving(n, eta, z, y);
    GeoPositive(1.0, eta, 2);
    Square(eta, Geo(1.0, eta, 2));
    AtMostZ(n as real, Geo(1.0, eta, 2), z, eta, y);
  }

  lemma LargeEnough(eta: real, z: real, y: real, x: real)
    requires eta >= 2.0 && z >= 1.0 && y == z * eta && x == y * eta
    ensures y >= 2.0 && x >= 4.0
  {
    Mono(1.0, z, eta);
    Mono(2.0, y, eta);
  }

  lemma Square(eta: real, square: real)
    requires square == Geo(1.0, eta, 2)
    ensures square == eta * eta
  {
    assert Geo(1.0, eta, 1) == eta * Geo(1.0, eta, 0) == eta;
    assert Geo(1.0, eta, 2) == eta * Geo(1.0, eta, 1);
  }

  /** In closed form at most `z` arms are left. */
  lemma AtMostZ(n: real, square: real, z: nat, eta: real, y: real)
    requires square > 0.0 && square == eta * eta && y == z as real * eta && n <= y * eta
    ensures Ceil(n / square) <= z
  {
    Regroup(y, z as real, eta, eta);
    Assoc(z as real, eta, eta);
    QuotientAtMost(n, square, z as real);
    CeilLeast(n / square, z);
  }

  lemma FirstHalving(n: nat, eta: real, y: real)
    requires eta >= 2.0 && y >= 2.0 && Frac(y) >= 0.5 && n == (y * eta).Floor
    ensures Left(n, eta, 1) as real > y
  {
    AboveWhole(n as real, eta, y, y.Floor as real, Frac(y));
    QuotientAtMost(n as real, eta, y.Floor as real);
    CeilLeast(n as real / eta, y.Floor);
    assert Left(n, eta, 0) == n && Left(n, eta, 1) == Shrink(n, eta);
  }

  lemma AboveWhole(n: real, eta: real, y: real, whole: real, f: real)
    requires eta >= 2.0 && y == whole + f && f >= 0.5 && n > y * eta - 1.0
    ensures n > whole * eta
  {
    Mono(0.5, f, eta);
    Distribute(whole, f, eta);
    SameFactor(y, whole + f, eta);
  }

  lemma SecondHalving(n: nat, eta: real, z: nat, y: real)
    requires eta >= 2.0 && y == z as real * eta && z >= 1 && Left(n, eta, 1) as real > y
    ensures Left(n, eta, 2) > z
  {
    var m := Left(n, eta, 1);
    QuotientAtMost(m as real, eta, z as real);
    CeilLeast(m as real / eta, z);
    assert Left(n, eta, 2) == Shrink(m, eta);
  }

  // ----------------------------------------------------------------------- total work

  /** Arms that enter rung `r`. */
  function Entering(n: nat, ladder: seq<Rung>, r: nat): int
    requires r < |ladder|
  {
    if r == 0 then n else ladder[r - 1].survivors
  }

  /** Full-data fits spent on the first `k` rungs when nothing is pruned. */
  function Work(n: nat, ladder: seq<Rung>, k: nat): real
    requires k <= |ladder|
  {
    if k == 0 then 0.0
    else Work(n, ladder, k - 1) + ladder[k - 1].budget * Entering(n, ladder, k - 1) as real
  }

  /** Full-data fits spent on rung `k`. */
  function Cost(n: nat, cfg: Config, k: nat): real {
    Fraction(cfg, k) * Left(n, Eta(cfg), k) as real
  }

  lemma CostIs(n: nat, cfg: Config, k: nat, g: real, s: real)
    requires g == Fraction(cfg, k) && s == Left(n, Eta(cfg), k) as real
    ensures Cost(n, cfg, k) == g * s
  {}

  lemma LeftStep(n: nat, eta: real, k: nat, s: real, t: real)
    requires n >= 1 && eta >= 2.0 && s == Left(n, eta, k) as real && t == Left(n, eta, k + 1) as real
    ensures t * eta <= s + eta
  {
    LeftBounds(n, eta, k, k);
    ShrinkBounds(Left(n, eta, k), eta);
  }

  lemma FractionStep(cfg: Config, k: nat, eta: real, g: real, next: real)
    requires eta == Eta(cfg) && g == Fraction(cfg, k) && next == Fraction(cfg, k + 1)
    ensures g > 0.0 && next == eta * g
  {
    GeoPositive(MinFrac(cfg), Eta(cfg), k);
  }

  lemma HalvedCost(s: real, t: real, eta: real, g: real, next: real)
    requires g > 0.0 && eta >= 2.0 && t * eta <= s + eta && next == eta * g
    ensures next * t <= g * s + next && next >= 2.0 * g
  {
    Mono(2.0, eta, g);
    Regroup(next, eta, g, t);
    Mono(t * eta, s + eta, g);
    Distribute(s, eta, g);
  }

  lemma CostStep(n: nat, cfg: Config, k: nat)
    requires n >= 1
    ensures Cost(n, cfg, k + 1) <= Cost(n, cfg, k) + Fraction(cfg, k + 1)
    ensures Fraction(cfg, k + 1) >= 2.0 * Fraction(cfg, k)
  {
    var eta, g, next := Eta(cfg), Fraction(cfg, k), Fraction(cfg, k + 1);
    var s, t := Left(n, eta, k) as real, Left(n, eta, k + 1) as real;
    LeftStep(n, eta, k, s, t);
    FractionStep(cfg, k, eta, g, next);
    HalvedCost(s, t, eta, g, next);
    CostIs(n, cfg, k, g, s);
    CostIs(n, cfg, k + 1, next, t);
  }

  /** One rung costs at most the first rung's share plus two fits at its fraction. */
  lemma {:induction false} RungCost(n: nat, cfg: Config, k: nat)
    requires n >= 1
    ensures Cost(n, cfg, k) <= Cost(n, cfg, 0) + 2.0 * Fraction(cfg, k)
  {
    GeoPositive(MinFrac(cfg), Eta(cfg), k);
    if k > 0 {
      RungCost(n, cfg, k - 1);
      CostStep(n, cfg, k - 1);
    }
  }

  lemma WorkStep(n: nat, ladder: seq<Rung>, k: nat, g: real, t: real)
    requires 1 <= k <= |ladder| && g == ladder[k - 1].budget && t == Entering(n, ladder, k - 1) as real
    ensures Work(n, ladder, k) == Work(n, ladder, k - 1) + g * t
  {}

  lemma RungWork(n: nat, cfg: Config, ladder: seq<Rung>, k: nat)
    requires LadderFor(n, cfg, ladder) && 2 <= |ladder| && 1 <= k < |ladder|
    ensures Work(n, ladder, k) == Work(n, ladder, k - 1) + Cost(n, cfg, k - 1)
  {
    var g, s := Fraction(cfg, k - 1), Left(n, Eta(cfg), k - 1) as real;
    WorkStep(n, ladder, k, g, s);
    CostIs(n, cfg, k - 1, g, s);
  }

  lemma {:induction false} LowWork(n: nat, cfg: Config, ladder: seq<Rung>, k: nat)
    requires LadderFor(n, cfg, ladder) && 2 <= |ladder| && n >= 1 && k < |ladder|
    ensures Work(n, ladder, k) <= Repeat(Cost(n, cfg, 0), k) + 2.0 * (Fraction(cfg, k) - Fraction(cfg, 0))
  {
    if k > 0 {
      LowWork(n, cfg, ladder, k - 1);
      RungCost(n, cfg, k - 1);
      CostStep(n, cfg, k - 1);
      RungWork(n, cfg, ladder, k);
    }
  }

  lemma LowTotal(n: nat, cfg: Config, ladder: seq<Rung>)
    requires LadderFor(n, cfg, ladder) && 2 <= |ladder| && n >= 1
    ensures Work(n, ladder, |ladder| - 1) <= Repeat(Cost(n, cfg, 0), |ladder| - 1) + 2.0
  {
    var s := Steps(MinFrac(cfg), Eta(cfg));
    if s >= 2 {
      LowWork(n, cfg, ladder, |ladder| - 1);
      StepsBracket(MinFrac(cfg), Eta(cfg), s);
    } else {
      RungWork(n, cfg, ladder, 1);
      assert Repeat(Cost(n, cfg, 0), 1) == Cost(n, cfg, 0) + Repeat(Cost(n, cfg, 0), 0);
    }
  }

  /** One more step past the last rung would train on more than all the data. */
  lemma TopReached(cfg: Config)
    ensures Fraction(cfg, RungCount(cfg)) > 1.0
  {
    var s := Steps(MinFrac(cfg), Eta(cfg));
    StepsBracket(MinFrac(cfg), Eta(cfg), s);
    if s < 2 { GeoGrows(MinFrac(cfg), Eta(cfg), s, 2); }
  }

  lemma FinalRung(share: real, eta: real, g: real, s: real)
    requires share >= 0.0 && g > 0.0 && g * s <= share + 2.0 * g && 1.0 < eta * g
    ensures s <= eta * share + 2.0
  {
    Mono(1.0, eta * g, share);
    Assoc(eta, share, g);
    Distribute(s, 2.0, g);
    Cancel(s - 2.0, eta * share, g);
  }

  lemma FinalWork(n: nat, cfg: Config, ladder: seq<Rung>, eta: real, share: real)
    requires LadderFor(n, cfg, ladder) && 2 <= |ladder| && n >= 1
    requires eta == Eta(cfg) && share == Cost(n, cfg, 0) && share >= 0.0
    ensures Work(n, ladder, |ladder|) <= Work(n, ladder, |ladder| - 1) + eta * share + 2.0
  {
    var top := |ladder| - 1;
    var g, s := Fraction(cfg, top), Left(n, eta, top) as real;
    RungCost(n, cfg, top);
    CostIs(n, cfg, top, g, s);
    TopReached(cfg);
    FractionStep(cfg, top, eta, g, Fraction(cfg, |ladder|));
    FinalRung(share, eta, g, s);
    WorkStep(n, ladder, |ladder|, 1.0, s);
  }

  lemma FirstCost(n: nat, cfg: Config, share: real)
    requires share == MinFrac(cfg) * n as real
    ensures Cost(n, cfg, 0) == share && share >= 0.0
  {
    Mono(0.0, n as real, MinFrac(cfg));
    CostIs(n, cfg, 0, MinFrac(cfg), n as real);
  }

  lemma TotalWork(n: nat, cfg: Config, ladder: seq<Rung>, eta: real, share: real)
    requires LadderFor(n, cfg, ladder) && 2 <= |ladder|
    requires eta == Eta(cfg) && share == MinFrac(cfg) * n as real
    ensures Work(n, ladder, |ladder|) <= Repeat(share, |ladder| - 1) + eta * share + 4.0
  {
    FirstCost(n, cfg, share);
    LowTotal(n, cfg, ladder);
    FinalWork(n, cfg, ladder, eta, share);
  }

  lemma AddUp(top: nat, eta: real, share: real)
    ensures Repeat(share, top) + eta * share == (top as real + eta) * share
  {
    RepeatIsProduct(share, top);
    Distribute(top as real, eta, share);
  }

  /** A whole run of a ladder with several rungs costs at most
      `n * minFrac * (R - 1 + eta) + 4` full-data fits, against `n` for the serial loop. */
  lemma WorkBound(n: nat, cfg: Config, ladder: seq<Rung>, eta: real, share: real)
    requires LadderFor(n, cfg, ladder) && 2 <= |ladder|
    requires eta == Eta(cfg) && share == MinFrac(cfg) * n as real
    ensures Work(n, ladder, |ladder|) <= ((|ladder| - 1) as real + eta) * share + 4.0
  {
    TotalWork(n, cfg, ladder, eta, share);
    AddUp(|ladder| - 1, eta, share);
  }
}
