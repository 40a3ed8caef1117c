/** The order an untrained bandit gives.  It is documented as the input order; it is the
    input order exactly when context lengths never increase along the input, which the
    catalogue of seed recipes itself does not meet. */
module ColdRank {
  import opened Reals
  import opened LinAlg
  import opened Ranking
  import opened Context
  import opened Labels
  import opened Bandit
  import opened Ranker
  import opened Wrappers

  /** The squared length of a proposal's context. */
  function Length(c: Curves, td: TaskDescriptor, p: Program): real {
    var phi := Phi(c, td, RecipeOf(p));
    Dot(phi, phi)
  }

  lemma ZeroForm(w: Mat, n: nat, phi: Vec)
    requires IsMat(w, n) && |phi| == n
    ensures Dot(MatVec(w, Zero(n)), phi) == 0.0
  {
    MapsZero(w, n);
    DotZero(phi);
    DotComm(phi, Zero(n));
  }

  lemma ColdCovariance(ridge: real, c: real)
    requires ridge > 0.0 && c == 1.0 / ridge
    ensures Covariance(ridge, CONTEXT_DIM, []) == Diagonal(CONTEXT_DIM, c)
  {}

  /** With nothing learned, the bound is `alpha sqrt(|phi|^2 / ridge)`. */
  lemma ColdBound(alpha: real, ridge: real, root: real -> real, phi: Vec, len: real, c: real, v: real)
    requires ridge > 0.0 && |phi| == CONTEXT_DIM && len == Dot(phi, phi) && c == 1.0 / ridge && v == c * len
    ensures Bound(alpha, ridge, root, [], phi) == Optimistic(alpha, root, 0.0, v)
  {
    ColdCovariance(ridge, c);
    ColdVariance(c, phi, len, v);
    ZeroForm(Diagonal(CONTEXT_DIM, c), CONTEXT_DIM, phi);
  }

  lemma ColdVariance(c: real, phi: Vec, len: real, v: real)
    requires |phi| == CONTEXT_DIM && len == Dot(phi, phi) && v == c * len
    ensures Quad(Diagonal(CONTEXT_DIM, c), phi) == v
  {
    DiagonalForm(CONTEXT_DIM, c, phi, phi, len);
  }

  lemma RootGrows(root: real -> real, x: real, y: real, rx: real, ry: real)
    requires IsRoot(root) && x >= 0.0 && y >= 0.0 && rx == root(x) && ry == root(y)
    ensures rx <= ry <==> x <= y
  {
    if rx <= ry { Squares(rx, ry, x, y, ry - rx, ry + rx); }
    if ry < rx { Squares(ry, rx, y, x, rx - ry, rx + ry); }
  }

  lemma Squares(rx: real, ry: real, x: real, y: real, less: real, sum: real)
    requires 0.0 <= rx <= ry && rx * rx == x && ry * ry == y && less == ry - rx && sum == ry + rx
    ensures x <= y && (rx < ry ==> x < y)
  {
    assert y - x == less * sum;
    NonNegative(less, sum, y - x);
    if less > 0.0 { PositiveProduct(less, sum, y - x); }
  }

  lemma ColdOrder(alpha: real, root: real -> real, c: real, len: real, other: real, v: real, w: real)
    requires alpha > 0.0 && c > 0.0 && IsRoot(root) && len >= 0.0 && other >= 0.0 && v == c * len && w == c * other
    ensures Optimistic(alpha, root, 0.0, v) <= Optimistic(alpha, root, 0.0, w) <==> len <= other
  {
    ScaledOrder(c, len, other, v, w);
    RootGrows(root, v, w, root(v), root(w));
    ScaledOrder(alpha, root(v), root(w), alpha * root(v), alpha * root(w));
  }

  lemma ScaledOrder(c: real, a: real, b: real, p: real, q: real)
    requires c > 0.0 && a >= 0.0 && b >= 0.0 && p == c * a && q == c * b
    ensures p >= 0.0 && q >= 0.0 && (p <= q <==> a <= b)
  {
    NonNegative(c, a, p);
    NonNegative(c, b, q);
    Cancel(a, b, c);
  }

  lemma ColdComparison(alpha: real, ridge: real, root: real -> real, c: Curves, td: TaskDescriptor, p: Program, q: Program)
    requires alpha > 0.0 && ridge > 0.0 && IsRoot(root)
    ensures Bound(alpha, ridge, root, [], Phi(c, td, RecipeOf(p))) <= Bound(alpha, ridge, root, [], Phi(c, td, RecipeOf(q)))
       <==> Length(c, td, p) <= Length(c, td, q)
  {
    Quotient(1.0, ridge);
    CompareContexts(alpha, ridge, root, Phi(c, td, RecipeOf(p)), Phi(c, td, RecipeOf(q)), 1.0 / ridge);
  }

  lemma CompareContexts(alpha: real, ridge: real, root: real -> real, phi: Vec, psi: Vec, c: real)
    requires alpha > 0.0 && ridge > 0.0 && c > 0.0 && c == 1.0 / ridge && IsRoot(root) && |phi| == |psi| == CONTEXT_DIM
    ensures Bound(alpha, ridge, root, [], phi) <= Bound(alpha, ridge, root, [], psi) <==> Dot(phi, phi) <= Dot(psi, psi)
  {
    var len, other := Dot(phi, phi), Dot(psi, psi);
    DotSelf(phi);
    DotSelf(psi);
    ColdBound(alpha, ridge, root, phi, len, c, c * len);
    ColdBound(alpha, ridge, root, psi, other, c, c * other);
    ColdOrder(alpha, root, c, len, other, c * len, c * other);
  }

  /** An untrained bandit that explores keeps the input order exactly when context lengths
      never increase along it. */
  lemma ColdRankKeepsOrder(alpha: real, ridge: real, root: real -> real, c: Curves, td: TaskDescriptor, proposals: seq<Program>)
    requires alpha > 0.0 && ridge > 0.0 && IsRoot(root)
    ensures var keyed := Bounds(alpha, ridge, root, c, [], td, proposals);
      SortDesc(keyed) == keyed <==>
      forall i, j :: 0 <= i < j < |proposals| ==> Length(c, td, proposals[i]) >= Length(c, td, proposals[j])
  {
    var keyed := Bounds(alpha, ridge, root, c, [], td, proposals);
    SortKeepsExactlySorted(keyed);
    forall i, j | 0 <= i < j < |proposals|
      ensures keyed[i].key >= keyed[j].key <==> Length(c, td, proposals[i]) >= Length(c, td, proposals[j])
    {
      ColdComparison(alpha, ridge, root, c, td, proposals[j], proposals[i]);
    }
  }

  /** One that does not explore always keeps it. */
  lemma NoExplorationKeepsOrder(ridge: real, root: real -> real, c: Curves, td: TaskDescriptor, proposals: seq<Program>)
    requires ridge > 0.0
    ensures Items(SortDesc(Bounds(0.0, ridge, root, c, [], td, proposals))) == proposals
  {
    var keyed := Bounds(0.0, ridge, root, c, [], td, proposals);
    forall i | 0 <= i < |proposals| ensures keyed[i].key == 0.0 {
      var phi := Phi(c, td, RecipeOf(proposals[i]));
      var c := 1.0 / ridge;
      ColdBound(0.0, ridge, root, phi, Dot(phi, phi), c, c * Dot(phi, phi));
    }
    SortedStays(keyed);
  }

  // ---------------------------------------------------------------- the seed catalogue

  function Seed(id: nat, base: string, scaled: bool): Program {
    var r := Recipe(base, if scaled then Some(true) else None, None, None);
    Program(id, Label(r), "seed", Some(r))
  }

  /** The seed recipes for classification, in catalogue order. */
  const SEEDS := [Seed(0, "hist_gbm", false), Seed(1, "rf", false), Seed(2, "logreg", true), Seed(3, "svc_rbf", true)]

  /** What a scaling step adds to the squared length of a context. */
  function ScalingExtra(c: Curves, td: TaskDescriptor): (e: real)
    ensures e >= 1.0
  {
    SquareSign(c.tanh(td.difficulty));
    1.0 + c.tanh(td.difficulty) * c.tanh(td.difficulty)
  }

  lemma SeedLength(c: Curves, td: TaskDescriptor, p: Program, base: string, scaled: bool)
    requires base in BASE_VOCAB && p.recipe == Some(Recipe(base, if scaled then Some(true) else None, None, None))
    ensures Length(c, td, p) ==
            Dot(TaskVec(c, td), TaskVec(c, td)) + 2.0 + (if scaled then ScalingExtra(c, td) else 0.0)
  {
    var rd := RecipeOf(p);
    SeedRecipe(p, base, scaled);
    OneHot(rd);
    EnhancerLength(rd, scaled);
    PhiLength(c, td, rd, Bit(scaled), Interaction(c, td, rd));
    InteractionIs(c, td, rd, scaled);
  }

  lemma SeedRecipe(p: Program, base: string, scaled: bool)
    requires p.recipe == Some(Recipe(base, if scaled then Some(true) else None, None, None))
    ensures RecipeOf(p) == Shaped(p.recipe.value) && EnhancerVec(RecipeOf(p)) == [Bit(scaled), 0.0, 0.0]
  {}

  lemma EnhancerLength(rd: RecipeDict, scaled: bool)
    requires EnhancerVec(rd) == [Bit(scaled), 0.0, 0.0]
    ensures Dot(EnhancerVec(rd), EnhancerVec(rd)) == Bit(scaled)
  {
    DotTriple(Bit(scaled), 0.0, 0.0);
  }

  lemma InteractionIs(c: Curves, td: TaskDescriptor, rd: RecipeDict, scaled: bool)
    requires EnhancerVec(rd) == [Bit(scaled), 0.0, 0.0]
    ensures Interaction(c, td, rd) == (if scaled then c.tanh(td.difficulty) else 0.0)
  {}

  lemma OneHot(rd: RecipeDict)
    requires rd.Shaped? && rd.recipe.base in BASE_VOCAB
    ensures Dot(BaseVec(rd), BaseVec(rd)) == 1.0
  {
    var i := IndexOf(BASE_VOCAB, rd.recipe.base);
    DotAxis(BaseVec(rd), i, 1.0);
  }

  lemma SortTwoLevels<T>(w: Keyed<T>, x: Keyed<T>, y: Keyed<T>, z: Keyed<T>)
    requires w.key == x.key < y.key == z.key
    ensures SortDesc([w, x, y, z]) == [y, z, w, x]
  {
    assert SortDesc([z]) == [z];
    assert SortDesc([y, z]) == [y, z];
    assert Insert(x, [z]) == [z, x];
    assert SortDesc([x, y, z]) == [y, z, x];
    assert Insert(w, [z, x]) == [z, w, x];
    assert [w, x, y, z][1..] == [x, y, z];
  }

  /** For every task, an untrained bandit moves the scaled seeds in front. */
  lemma SeedsAreReordered(alpha: real, ridge: real, root: real -> real, c: Curves, td: TaskDescriptor)
    requires alpha > 0.0 && ridge > 0.0 && IsRoot(root)
    ensures Items(SortDesc(Bounds(alpha, ridge, root, c, [], td, SEEDS))) == [SEEDS[2], SEEDS[3], SEEDS[0], SEEDS[1]]
  {
    SeedLength(c, td, SEEDS[0], "hist_gbm", false);
    SeedLength(c, td, SEEDS[1], "rf", false);
    SeedLength(c, td, SEEDS[2], "logreg", true);
    SeedLength(c, td, SEEDS[3], "svc_rbf", true);
    TwoLevels(alpha, ridge, root, c, td, SEEDS[0], SEEDS[1], SEEDS[2], SEEDS[3]);
  }

  lemma TwoLevels(alpha: real, ridge: real, root: real -> real, c: Curves, td: TaskDescriptor,
                  p: Program, q: Program, r: Program, s: Program)
    requires alpha > 0.0 && ridge > 0.0 && IsRoot(root)
    requires Length(c, td, p) == Length(c, td, q) < Length(c, td, r) == Length(c, td, s)
    ensures Items(SortDesc(Bounds(alpha, ridge, root, c, [], td, [p, q, r, s]))) == [r, s, p, q]
  {
    ColdComparison(alpha, ridge, root, c, td, p, q);
    ColdComparison(alpha, ridge, root, c, td, q, p);
    ColdComparison(alpha, ridge, root, c, td, r, s);
    ColdComparison(alpha, ridge, root, c, td, s, r);
    ColdComparison(alpha, ridge, root, c, td, r, p);
    var keyed := Bounds(alpha, ridge, root, c, [], td, [p, q, r, s]);
    SortTwoLevels(keyed[0], keyed[1], keyed[2], keyed[3]);
    assert keyed == [keyed[0], keyed[1], keyed[2], keyed[3]];
  }
}
