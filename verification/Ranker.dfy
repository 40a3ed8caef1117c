/** The bandit as an object: updates fold into its statistics, and proposals are ordered by
    upper confidence bound. */
module Ranker {
  import opened Reals
  import opened LinAlg
  import opened Ranking
  import opened Context
  import opened Labels
  import opened Bandit
  import opened Wrappers

  datatype Program = Program(id: nat, text: string, source: string, recipe: Option<Recipe>)

  /** The recipe of a proposal, or its name and author when it has none. */
  function RecipeOf(p: Program): RecipeDict {
    match p.recipe
    case Some(r) => Shaped(r)
    case None => Raw(p.text, p.source)
  }

  ghost predicate IsRoot(root: real -> real) {
    forall x {:trigger root(x)} :: x >= 0.0 ==> root(x) >= 0.0 && root(x) * root(x) == x
  }

  function Ucb(alpha: real, root: real -> real, theta: Vec, aInv: Mat, phi: Vec): real
    requires IsMat(aInv, |phi|) && |theta| == |phi|
  {
    var v := Quad(aInv, phi);
    Optimistic(alpha, root, Dot(theta, phi), if v > 0.0 then v else 0.0)
  }

  /** Predicted reward plus `alpha` predictive deviations. */
  function Optimistic(alpha: real, root: real -> real, mean: real, variance: real): real {
    mean + alpha * root(variance)
  }

  class LinUCBRanker {
    const alpha: real
    const ridge: real
    const curves: Curves
    var a: Mat
    var b: Vec
    var nUpdates: nat
    /** What went in, in order. */
    ghost var log: seq<Sample>

    ghost predicate Valid()
      reads this
    {
      Fits(log, CONTEXT_DIM) && Stats(a, b, nUpdates) == Learn(ridge, CONTEXT_DIM, log)
    }

    constructor (alpha: real, ridge: real, curves: Curves)
      ensures Valid() && log == []
      ensures this.alpha == alpha && this.ridge == ridge && this.curves == curves
    {
      this.alpha, this.ridge, this.curves := alpha, ridge, curves;
      a, b, nUpdates := Diagonal(CONTEXT_DIM, ridge), Zero(CONTEXT_DIM), 0;
      log := [];
    }

    /** Folds one realized outcome into `(A, b)`. */
    method Update(td: TaskDescriptor, rd: RecipeDict, reward: Reading)
      requires Valid()
      modifies this
      ensures Valid() && log == old(log) + [Sample(Phi(curves, td, rd), Clip(reward))]
    {
      var phi := Phi(curves, td, rd);
      var r := Clip(reward);
      LearnMore(ridge, CONTEXT_DIM, log, Sample(phi, r));
      a := AddOuter(a, phi, 1.0);
      b := Add(b, Scale(r, phi));
      nUpdates := nUpdates + 1;
      log := log + [Sample(phi, r)];
    }

    /** Orders proposals by descending bound; equal bounds keep their order.  The inverse and
        the solution of `A theta == b` come from outside; any correct ones give the same
        order. */
    method Rank(proposals: seq<Program>, td: TaskDescriptor, aInv: Mat, theta: Vec, root: real -> real)
      returns (ranked: seq<Program>)
      requires Valid() && ridge > 0.0
      requires Inverse(a, aInv, CONTEXT_DIM) && |theta| == CONTEXT_DIM && MatVec(a, theta) == b
      requires IsRoot(root)
      ensures Scored(alpha, curves, td, theta, aInv, proposals, Bounds(alpha, ridge, root, curves, log, td, proposals))
      ensures ranked == Items(SortDesc(Bounds(alpha, ridge, root, curves, log, td, proposals)))
    {
      BoundsAreScores(alpha, ridge, root, curves, log, td, proposals, aInv, theta);
      if proposals == [] {
        return [];
      }
      var scored: seq<Keyed<Program>> := [];
      for i := 0 to |proposals|
        invariant scored == Bounds(alpha, ridge, root, curves, log, td, proposals[..i])
      {
        var phi := Phi(curves, td, RecipeOf(proposals[i]));
        ghost var deviation := BoundIs(alpha, ridge, root, log, aInv, theta, phi);
        BoundsMore(alpha, ridge, root, curves, log, td, proposals[..i], proposals[i]);
        assert proposals[..i + 1] == proposals[..i] + [proposals[i]];
        scored := scored + [Keyed(proposals[i], Ucb(alpha, root, theta, aInv, phi))];
      }
      assert proposals[..|proposals|] == proposals;
      ranked := Items(SortDesc(scored));
    }
  }

  // ---------------------------------------------------- what the ranking is a function of

  /** The upper confidence bound of a context after a log. */
  ghost function Bound(alpha: real, ridge: real, root: real -> real, log: seq<Sample>, phi: Vec): real
    requires Fits(log, CONTEXT_DIM) && |phi| == CONTEXT_DIM
  {
    var w := Covariance(ridge, CONTEXT_DIM, log);
    Optimistic(alpha, root, Dot(MatVec(w, Learn(ridge, CONTEXT_DIM, log).b), phi), Quad(w, phi))
  }

  ghost function Bounds(alpha: real, ridge: real, root: real -> real, curves: Curves, log: seq<Sample>,
                        td: TaskDescriptor, proposals: seq<Program>): (s: seq<Keyed<Program>>)
    requires Fits(log, CONTEXT_DIM)
    ensures |s| == |proposals|
  {
    seq(|proposals|, i requires 0 <= i < |proposals| =>
      Keyed(proposals[i], Bound(alpha, ridge, root, log, Phi(curves, td, RecipeOf(proposals[i])))))
  }

  lemma BoundsMore(alpha: real, ridge: real, root: real -> real, curves: Curves, log: seq<Sample>,
                   td: TaskDescriptor, proposals: seq<Program>, p: Program)
    requires Fits(log, CONTEXT_DIM)
    ensures Bounds(alpha, ridge, root, curves, log, td, proposals + [p])
         == Bounds(alpha, ridge, root, curves, log, td, proposals)
            + [Keyed(p, Bound(alpha, ridge, root, log, Phi(curves, td, RecipeOf(p))))]
  {}

  /** `s` is a predictive deviation: a root of the variance. */
  ghost predicate Deviates(s: real, aInv: Mat, phi: Vec)
    requires IsMat(aInv, |phi|)
  {
    s >= 0.0 && s * s == Quad(aInv, phi)
  }

  /** The bound of a context is the predicted reward plus `alpha` predictive deviations,
      whatever solution and whatever inverse they are read off. */
  lemma BoundIs(alpha: real, ridge: real, root: real -> real, log: seq<Sample>, aInv: Mat, theta: Vec, phi: Vec) returns (s: real)
    requires ridge > 0.0 && Fits(log, CONTEXT_DIM) && |phi| == CONTEXT_DIM == |theta| && IsRoot(root)
    requires Inverse(Learn(ridge, CONTEXT_DIM, log).a, aInv, CONTEXT_DIM)
    requires MatVec(Learn(ridge, CONTEXT_DIM, log).a, theta) == Learn(ridge, CONTEXT_DIM, log).b
    ensures Ucb(alpha, root, theta, aInv, phi) == Bound(alpha, ridge, root, log, phi)
    ensures Deviates(s, aInv, phi) && Bound(alpha, ridge, root, log, phi) == Dot(theta, phi) + alpha * s
  {
    var w := Covariance(ridge, CONTEXT_DIM, log);
    AlwaysHealthy(ridge, CONTEXT_DIM, log);
    assert Undoes(w, Learn(ridge, CONTEXT_DIM, log).a, theta);
    VarianceIs(ridge, CONTEXT_DIM, log, aInv, phi);
    VariancePositive(ridge, CONTEXT_DIM, log, phi);
    s := root(Quad(aInv, phi));
  }

  /** Every key is the predicted reward of its context plus `alpha` deviations. */
  ghost predicate Scored(alpha: real, curves: Curves, td: TaskDescriptor, theta: Vec, aInv: Mat,
                         proposals: seq<Program>, keyed: seq<Keyed<Program>>)
    requires IsMat(aInv, CONTEXT_DIM) && |theta| == CONTEXT_DIM
  {
    && |keyed| == |proposals|
    && forall i :: 0 <= i < |keyed| ==> keyed[i].item == proposals[i] && KeyIs(alpha, curves, td, theta, aInv, keyed[i])
  }

  ghost predicate KeyIs(alpha: real, curves: Curves, td: TaskDescriptor, theta: Vec, aInv: Mat, e: Keyed<Program>)
    requires IsMat(aInv, CONTEXT_DIM) && |theta| == CONTEXT_DIM
  {
    var phi := Phi(curves, td, RecipeOf(e.item));
    exists s :: Deviates(s, aInv, phi) && e.key == Dot(theta, phi) + alpha * s
  }

  lemma BoundsAreScores(alpha: real, ridge: real, root: real -> real, curves: Curves, log: seq<Sample>, td: TaskDescriptor,
                        proposals: seq<Program>, aInv: Mat, theta: Vec)
    requires ridge > 0.0 && Fits(log, CONTEXT_DIM) && |theta| == CONTEXT_DIM && IsRoot(root)
    requires Inverse(Learn(ridge, CONTEXT_DIM, log).a, aInv, CONTEXT_DIM)
    requires MatVec(Learn(ridge, CONTEXT_DIM, log).a, theta) == Learn(ridge, CONTEXT_DIM, log).b
    ensures Scored(alpha, curves, td, theta, aInv, proposals, Bounds(alpha, ridge, root, curves, log, td, proposals))
  {
    var keyed := Bounds(alpha, ridge, root, curves, log, td, proposals);
    forall i | 0 <= i < |keyed| ensures KeyIs(alpha, curves, td, theta, aInv, keyed[i]) {
      var s := BoundIs(alpha, ridge, root, log, aInv, theta, Phi(curves, td, RecipeOf(proposals[i])));
    }
  }

  lemma LargerRoot(s: real, t: real)
    requires 0.0 <= s && 0.0 <= t
    ensures s <= t <==> s * s <= t * t
  {
    if s <= t {
      Mono(s, t, s);
      Mono(s, t, t);
    } else {
      PositiveProduct(s - t, s + t, (s - t) * (s + t));
    }
  }

  /** Of two keys in descending order: with equal variances the first has no smaller predicted
      reward, and with equal predictions no smaller variance. */
  lemma KeysDecide(alpha: real, mean: real, s: real, v: real, mean': real, s': real, v': real)
    requires s >= 0.0 && s * s == v && s' >= 0.0 && s' * s' == v' && mean + alpha * s >= mean' + alpha * s'
    ensures v == v' ==> mean >= mean'
    ensures alpha > 0.0 && mean == mean' ==> v >= v'
  {
    LargerRoot(s, s');
    LargerRoot(s', s);
    if alpha > 0.0 && s < s' { StrictMono(s, s', alpha); }
  }

  /** Exploiting and exploring: of two equally uncertain proposals the one with the larger
      predicted reward stands first, and of two with the same prediction, for a positive
      `alpha`, the less certain one. */
  lemma HigherBoundFirst(alpha: real, curves: Curves, td: TaskDescriptor, theta: Vec, aInv: Mat, proposals: seq<Program>,
                         keyed: seq<Keyed<Program>>, i: nat, j: nat, phi: Vec, psi: Vec)
    requires IsMat(aInv, CONTEXT_DIM) && |theta| == CONTEXT_DIM
    requires Scored(alpha, curves, td, theta, aInv, proposals, keyed) && i < j < |SortDesc(keyed)|
    requires phi == Phi(curves, td, RecipeOf(SortDesc(keyed)[i].item)) && psi == Phi(curves, td, RecipeOf(SortDesc(keyed)[j].item))
    ensures Quad(aInv, phi) == Quad(aInv, psi) ==> Dot(theta, phi) >= Dot(theta, psi)
    ensures alpha > 0.0 && Dot(theta, phi) == Dot(theta, psi) ==> Quad(aInv, phi) >= Quad(aInv, psi)
  {
    SortIsDesc(keyed);
    var s := DeviationOf(alpha, curves, td, theta, aInv, proposals, keyed, i, phi);
    var t := DeviationOf(alpha, curves, td, theta, aInv, proposals, keyed, j, psi);
    KeysDecide(alpha, Dot(theta, phi), s, Quad(aInv, phi), Dot(theta, psi), t, Quad(aInv, psi));
  }

  lemma KeyDeviation(alpha: real, curves: Curves, td: TaskDescriptor, theta: Vec, aInv: Mat, e: Keyed<Program>, phi: Vec)
    returns (s: real)
    requires IsMat(aInv, CONTEXT_DIM) && |theta| == CONTEXT_DIM
    requires KeyIs(alpha, curves, td, theta, aInv, e) && phi == Phi(curves, td, RecipeOf(e.item))
    ensures Deviates(s, aInv, phi) && e.key == Dot(theta, phi) + alpha * s
  {
    s :| Deviates(s, aInv, phi) && e.key == Dot(theta, phi) + alpha * s;
  }

  lemma DeviationOf(alpha: real, curves: Curves, td: TaskDescriptor, theta: Vec, aInv: Mat, proposals: seq<Program>,
                    keyed: seq<Keyed<Program>>, i: nat, phi: Vec) returns (s: real)
    requires IsMat(aInv, CONTEXT_DIM) && |theta| == CONTEXT_DIM
    requires Scored(alpha, curves, td, theta, aInv, proposals, keyed) && i < |SortDesc(keyed)|
    requires phi == Phi(curves, td, RecipeOf(SortDesc(keyed)[i].item))
    ensures Deviates(s, aInv, phi) && SortDesc(keyed)[i].key == Dot(theta, phi) + alpha * s
  {
    SortPermutes(keyed);
    var k := SortMember(keyed, i);
    s := KeyDeviation(alpha, curves, td, theta, aInv, keyed[k], phi);
  }
}
