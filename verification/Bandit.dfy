/** Ridge-regression statistics of the LinUCB ranker. */
module Bandit {
  import opened Reals
  import opened LinAlg
  import opened Wrappers

  /** One (context, reward) pair of the log that the statistics are taken over. */
  datatype Sample = Sample(phi: Vec, reward: real)

  /** The running statistics: `A`, `b` and how many samples went in. */
  datatype Stats = Stats(a: Mat, b: Vec, n: nat)

  function Distance(x: real, y: real): real {
    if x < y then y - x else x - y
  }

  /** The reward that is learnt: the nearest number in [0, 1], and 0 for no number. */
  function Clip(r: Reading): (x: real)
    ensures 0.0 <= x <= 1.0
    ensures !r.Finite? ==> x == 0.0
    ensures r.Finite? ==> forall y :: 0.0 <= y <= 1.0 ==> Distance(x, r.value) <= Distance(y, r.value)
  {
    match r
    case Finite(v) => if v < 0.0 then 0.0 else if v > 1.0 then 1.0 else v
    case _ => 0.0
  }

  ghost predicate Fits(log: seq<Sample>, dim: nat) {
    forall i :: 0 <= i < |log| ==> |log[i].phi| == dim
  }

  function Start(ridge: real, dim: nat): Stats {
    Stats(Diagonal(dim, ridge), Zero(dim), 0)
  }

  /** One rank-one update. */
  function Fold(s: Stats, x: Sample): (t: Stats)
    requires IsMat(s.a, |x.phi|) && |s.b| == |x.phi|
    ensures IsMat(t.a, |x.phi|) && |t.b| == |x.phi|
  {
    Stats(AddOuter(s.a, x.phi, 1.0), Add(s.b, Scale(x.reward, x.phi)), s.n + 1)
  }

  /** The statistics of a whole log. */
  ghost function Learn(ridge: real, dim: nat, log: seq<Sample>): (s: Stats)
    requires Fits(log, dim)
    ensures IsMat(s.a, dim) && |s.b| == dim && s.n == |log|
  {
    if log == [] then Start(ridge, dim)
    else Fold(Learn(ridge, dim, log[..|log| - 1]), log[|log| - 1])
  }

  lemma LearnMore(ridge: real, dim: nat, log: seq<Sample>, x: Sample)
    requires Fits(log, dim) && |x.phi| == dim
    ensures Fits(log + [x], dim) && Learn(ridge, dim, log + [x]) == Fold(Learn(ridge, dim, log), x)
  {
    assert (log + [x])[..|log|] == log;
  }

  // ------------------------------------------------------------------ inverse and variance

  /** `-1 / (1 + v)`. */
  function Gain(v: real): real {
    if 1.0 + v == 0.0 then 0.0 else -1.0 / (1.0 + v)
  }

  lemma GainIs(v: real, q: real)
    requires v >= 0.0 && q == Gain(v)
    ensures q + q * v == -1.0 && q < 0.0
  {
    Quotient(-1.0, 1.0 + v);
    Distribute(1.0, v, q);
    NegativeQuotient(1.0 + v, q);
  }

  lemma NegativeQuotient(y: real, q: real)
    requires y > 0.0 && q * y == -1.0
    ensures q < 0.0
  {
    if q >= 0.0 { Mono(0.0, q, y); }
  }

  /** The inverse of `A`, carried along by Sherman-Morrison from `I / ridge`. */
  ghost function Covariance(ridge: real, dim: nat, log: seq<Sample>): (w: Mat)
    requires Fits(log, dim)
    ensures IsMat(w, dim)
  {
    if log == [] then Diagonal(dim, if ridge == 0.0 then 0.0 else 1.0 / ridge)
    else Narrowed(Covariance(ridge, dim, log[..|log| - 1]), log[|log| - 1].phi)
  }

  ghost function Narrowed(w: Mat, phi: Vec): (r: Mat)
    requires IsMat(w, |phi|)
    ensures IsMat(r, |phi|)
  {
    Downdate(w, phi, Gain(Quad(w, phi)))
  }

  /** `A` is symmetric positive definite, and `Covariance` is its inverse, also symmetric
      positive definite. */
  ghost predicate Healthy(a: Mat, w: Mat, dim: nat) {
    && SelfAdjoint(a, dim) && PositiveDefinite(a, dim)
    && Inverse(a, w, dim) && SelfAdjoint(w, dim) && PositiveDefinite(w, dim)
  }

  lemma HealthyStart(ridge: real, dim: nat)
    requires ridge > 0.0
    ensures Healthy(Diagonal(dim, ridge), Diagonal(dim, 1.0 / ridge), dim)
  {
    Quotient(1.0, ridge);
    DiagonalPositive(dim, ridge);
    DiagonalPositive(dim, 1.0 / ridge);
    DiagonalInverse(dim, ridge, 1.0 / ridge);
  }

  lemma HealthyStep(a: Mat, w: Mat, phi: Vec)
    requires Healthy(a, w, |phi|)
    ensures Healthy(AddOuter(a, phi, 1.0), Narrowed(w, phi), |phi|)
  {
    var n, v := |phi|, Quad(w, phi);
    InversePositive(a, w, n);
    GainIs(v, Gain(v));
    ShermanMorrison(a, w, phi, Gain(v), v, AddOuter(a, phi, 1.0), Narrowed(w, phi));
    AddOuterSelfAdjoint(a, phi, 1.0, n);
    AddOuterPositive(a, phi, n);
    InverseSelfAdjoint(AddOuter(a, phi, 1.0), Narrowed(w, phi), n);
    InversePositive(AddOuter(a, phi, 1.0), Narrowed(w, phi), n);
  }

  /** After any run of updates `A` is symmetric positive definite and its inverse is
      `Covariance`. */
  lemma {:induction false} AlwaysHealthy(ridge: real, dim: nat, log: seq<Sample>)
    requires ridge > 0.0 && Fits(log, dim)
    ensures Healthy(Learn(ridge, dim, log).a, Covariance(ridge, dim, log), dim)
  {
    if log == [] {
      HealthyStart(ridge, dim);
    } else {
      var init := log[..|log| - 1];
      AlwaysHealthy(ridge, dim, init);
      HealthyStep(Learn(ridge, dim, init).a, Covariance(ridge, dim, init), log[|log| - 1].phi);
    }
  }

  /** The variance `psi^T A^-1 psi` of a context after a log. */
  ghost function Variance(ridge: real, dim: nat, log: seq<Sample>, psi: Vec): real
    requires Fits(log, dim) && |psi| == dim
  {
    Quad(Covariance(ridge, dim, log), psi)
  }

  lemma CovarianceMore(ridge: real, dim: nat, log: seq<Sample>, x: Sample)
    requires Fits(log, dim) && |x.phi| == dim
    ensures Fits(log + [x], dim) && Covariance(ridge, dim, log + [x]) == Narrowed(Covariance(ridge, dim, log), x.phi)
  {
    assert (log + [x])[..|log|] == log;
  }

  /** Any inverse of `A` gives the same variance, so it does not matter how it is computed. */
  lemma VarianceIs(ridge: real, dim: nat, log: seq<Sample>, aInv: Mat, psi: Vec)
    requires ridge > 0.0 && Fits(log, dim) && |psi| == dim
    requires Inverse(Learn(ridge, dim, log).a, aInv, dim)
    ensures Quad(aInv, psi) == Variance(ridge, dim, log, psi)
  {
    AlwaysHealthy(ridge, dim, log);
    InverseUnique(Learn(ridge, dim, log).a, aInv, Covariance(ridge, dim, log), dim, psi);
  }

  lemma VariancePositive(ridge: real, dim: nat, log: seq<Sample>, psi: Vec)
    requires ridge > 0.0 && Fits(log, dim) && |psi| == dim
    ensures Variance(ridge, dim, log, psi) >= 0.0
    ensures psi != Zero(dim) ==> Variance(ridge, dim, log, psi) > 0.0
  {
    AlwaysHealthy(ridge, dim, log);
    InversePositive(Learn(ridge, dim, log).a, Covariance(ridge, dim, log), dim);
  }

  lemma NotMore(q: real, s: real, k: real)
    requires q < 0.0 && k == q * s
    ensures k * s <= 0.0
  {
    var sq := s * s;
    StepSign(s, 0.0, sq);
    Assoc(q, s, s);
    Mono(q, 0.0, sq);
  }

  lemma NarrowedShrinks(w: Mat, phi: Vec, psi: Vec)
    requires |phi| == |psi| && SelfAdjoint(w, |phi|) && Quad(w, phi) >= 0.0
    ensures Quad(Narrowed(w, phi), psi) <= Quad(w, psi)
  {
    var q, s := Gain(Quad(w, phi)), Dot(phi, MatVec(w, psi));
    assert Adjoint(w, phi, psi);
    GainIs(Quad(w, phi), q);
    DowndateForm(w, phi, q, psi, s, q * s);
    NotMore(q, s, q * s);
  }

  /** Exploration never grows: one more sample does not increase the variance of any
      context. */
  lemma VarianceShrinks(ridge: real, dim: nat, log: seq<Sample>, x: Sample, psi: Vec)
    requires ridge > 0.0 && Fits(log, dim) && |x.phi| == |psi| == dim
    ensures Fits(log + [x], dim) && Variance(ridge, dim, log + [x], psi) <= Variance(ridge, dim, log, psi)
  {
    AlwaysHealthy(ridge, dim, log);
    VariancePositive(ridge, dim, log, x.phi);
    CovarianceMore(ridge, dim, log, x);
    NarrowedShrinks(Covariance(ridge, dim, log), x.phi, psi);
  }

  /** Nor does any longer run. */
  lemma {:induction false} VarianceShrinksOverRuns(ridge: real, dim: nat, log: seq<Sample>, more: seq<Sample>, psi: Vec)
    requires ridge > 0.0 && Fits(log + more, dim) && |psi| == dim
    ensures Fits(log, dim) && Variance(ridge, dim, log + more, psi) <= Variance(ridge, dim, log, psi)
  {
    assert forall i :: 0 <= i < |log| ==> log[i] == (log + more)[i];
    if more == [] {
      assert log + more == log;
    } else {
      var init, x := log + more[..|more| - 1], more[|more| - 1];
      assert log + more == init + [x];
      assert forall i :: 0 <= i < |init| ==> init[i] == (log + more)[i];
      assert x == (log + more)[|init|];
      VarianceShrinksOverRuns(ridge, dim, log, more[..|more| - 1], psi);
      VarianceShrinks(ridge, dim, init, x, psi);
    }
  }

  lemma OwnTerm(v: real, q: real, k: real)
    requires v >= 0.0 && q + q * v == -1.0 && k == q * v
    ensures v + k * v == v / (1.0 + v)
  {
    assert k * v == k * (1.0 + v) - k;
    assert k * (1.0 + v) == (q + q * v) * v;
    assert (v + k * v) * (1.0 + v) == v * (1.0 + v) + (q + q * v) * (v * v);
    QuotientUnique(v, 1.0 + v, v + k * v);
  }

  lemma NarrowedOwn(w: Mat, phi: Vec, v: real)
    requires SelfAdjoint(w, |phi|) && v == Quad(w, phi) && v >= 0.0
    ensures Quad(Narrowed(w, phi), phi) == v / (1.0 + v)
  {
    var q := Gain(v);
    assert Adjoint(w, phi, phi);
    GainIs(v, q);
    DowndateForm(w, phi, q, phi, v, q * v);
    OwnTerm(v, q, q * v);
  }

  /** Trying a context takes its own variance `v` to exactly `v / (1 + v)`. */
  lemma OwnVariance(ridge: real, dim: nat, log: seq<Sample>, x: Sample, v: real)
    requires ridge > 0.0 && Fits(log, dim) && |x.phi| == dim && v == Variance(ridge, dim, log, x.phi)
    ensures v >= 0.0 && Fits(log + [x], dim)
    ensures Variance(ridge, dim, log + [x], x.phi) == v / (1.0 + v)
  {
    AlwaysHealthy(ridge, dim, log);
    VariancePositive(ridge, dim, log, x.phi);
    CovarianceMore(ridge, dim, log, x);
    NarrowedOwn(Covariance(ridge, dim, log), x.phi, v);
  }

  /** What the fitted reward says of a context. */
  ghost predicate Solves(ridge: real, dim: nat, log: seq<Sample>, theta: Vec)
    requires Fits(log, dim)
  {
    |theta| == dim && MatVec(Learn(ridge, dim, log).a, theta) == Learn(ridge, dim, log).b
  }

  /** The prediction for a context, seen through `u`, which `a` maps to that context. */
  lemma SeenThrough(a: Mat, u: Vec, phi: Vec, theta: Vec)
    requires |u| == |phi| == |theta| && SelfAdjoint(a, |phi|) && MatVec(a, u) == phi
    ensures Dot(u, MatVec(a, theta)) == Dot(theta, phi)
  {
    assert Adjoint(a, u, theta);
  }

  lemma SeenAfter(a: Mat, u: Vec, phi: Vec, theta: Vec, m: real, v: real, mv: real)
    requires |u| == |phi| == |theta| && SelfAdjoint(a, |phi|) && MatVec(a, u) == phi
    requires m == Dot(theta, phi) && v == Dot(u, phi) && mv == m * v
    ensures Dot(u, MatVec(AddOuter(a, phi, 1.0), theta)) == m + mv
  {
    SeenThrough(a, u, phi, theta);
    DotComm(theta, phi);
    AddOuterVec(a, phi, 1.0, theta, m, m);
    DotCombine(u, MatVec(a, theta), m, phi, v);
  }

  lemma SeenWithReward(a: Mat, u: Vec, phi: Vec, theta: Vec, r: real, v: real, gain: real)
    requires |u| == |phi| == |theta| && SelfAdjoint(a, |phi|) && MatVec(a, u) == phi
    requires v == Dot(u, phi) && gain == r * v
    ensures Dot(u, Add(MatVec(a, theta), Scale(r, phi))) == Dot(theta, phi) + gain
  {
    SeenThrough(a, u, phi, theta);
    DotCombine(u, MatVec(a, theta), r, phi, v);
  }

  /** The predictions before and after, when the sample adds `gain == r v`. */
  lemma MeanMoves(a: Mat, u: Vec, phi: Vec, r: real, theta: Vec, theta': Vec, m': real, v: real, mv: real, gain: real)
    requires |u| == |phi| == |theta| == |theta'| && SelfAdjoint(a, |u|) && MatVec(a, u) == phi
    requires MatVec(AddOuter(a, phi, 1.0), theta') == Add(MatVec(a, theta), Scale(r, phi))
    requires m' == Dot(theta', phi) && v == Dot(u, phi) && mv == m' * v && gain == r * v
    ensures m' + mv == Dot(theta, phi) + gain
  {
    SeenAfter(a, u, phi, theta', m', v, mv);
    SeenWithReward(a, u, phi, theta, r, v, gain);
  }

  /** What `A` maps to a context; along it the context has its variance. */
  lemma Preimage(ridge: real, dim: nat, log: seq<Sample>, phi: Vec) returns (u: Vec)
    requires ridge > 0.0 && Fits(log, dim) && |phi| == dim
    ensures |u| == dim && SelfAdjoint(Learn(ridge, dim, log).a, dim) && MatVec(Learn(ridge, dim, log).a, u) == phi
    ensures Dot(u, phi) == Variance(ridge, dim, log, phi)
  {
    var w := Covariance(ridge, dim, log);
    AlwaysHealthy(ridge, dim, log);
    u := MatVec(w, phi);
    assert Undoes(Learn(ridge, dim, log).a, w, phi);
    DotComm(u, phi);
  }

  lemma MeanBalance(ridge: real, dim: nat, log: seq<Sample>, x: Sample, theta: Vec, theta': Vec, m': real, v: real, mv: real, gain: real)
    requires ridge > 0.0 && Fits(log, dim) && |x.phi| == dim && v == Variance(ridge, dim, log, x.phi)
    requires Fits(log + [x], dim) && Solves(ridge, dim, log, theta) && Solves(ridge, dim, log + [x], theta')
    requires m' == Dot(theta', x.phi) && mv == m' * v && gain == x.reward * v
    ensures m' + mv == Dot(theta, x.phi) + gain
  {
    LearnMore(ridge, dim, log, x);
    var u := Preimage(ridge, dim, log, x.phi);
    MeanMoves(Learn(ridge, dim, log).a, u, x.phi, x.reward, theta, theta', m', v, mv, gain);
  }

  lemma Unsplit(m': real, m: real, gain: real, v: real, mv: real)
    requires v >= 0.0 && mv == m' * v && m' + mv == m + gain
    ensures m' == (m + gain) / (1.0 + v)
  {
    QuotientUnique(m + gain, 1.0 + v, m');
  }

  /** And takes its own predicted reward `m`, by whatever solution it was read off, to exactly
      `(m + r v) / (1 + v)`, where `r` is the reward seen. */
  lemma OwnMean(ridge: real, dim: nat, log: seq<Sample>, x: Sample, theta: Vec, theta': Vec, v: real)
    requires ridge > 0.0 && Fits(log, dim) && |x.phi| == dim && v == Variance(ridge, dim, log, x.phi)
    requires Fits(log + [x], dim) && Solves(ridge, dim, log, theta) && Solves(ridge, dim, log + [x], theta')
    ensures v >= 0.0 && Dot(theta', x.phi) == (Dot(theta, x.phi) + x.reward * v) / (1.0 + v)
  {
    VariancePositive(ridge, dim, log, x.phi);
    var m', gain := Dot(theta', x.phi), x.reward * v;
    MeanBalance(ridge, dim, log, x, theta, theta', m', v, m' * v, gain);
    Unsplit(m', Dot(theta, x.phi), gain, v, m' * v);
  }

  /** With `d == 1 + k v` and `u == v / d`: one more step leads to `v / (d + v)`. */
  lemma HarmonicStep(v: real, d: real, u: real)
    requires v >= 0.0 && d >= 1.0 && u == v / d
    ensures u >= 0.0 && u / (1.0 + u) == v / (d + v)
  {
    Quotient(v, d);
    var z := v / (d + v);
    Quotient(v, d + v);
    HarmonicProduct(v, d, u, z);
    QuotientUnique(u, 1.0 + u, z);
  }

  lemma HarmonicProduct(v: real, d: real, u: real, z: real)
    requires d >= 1.0 && u * d == v && z * (d + v) == v
    ensures z * (1.0 + u) == u
  {
    assert (z * (1.0 + u)) * d == z * (d + u * d);
    Cancel(z * (1.0 + u), u, d);
  }

  lemma OneCountLess(v: real, k: nat, d: real)
    requires v >= 0.0 && k >= 1 && d == 1.0 + k as real * v
    ensures d - v == 1.0 + (k - 1) as real * v && d - v >= 1.0
  {
    Mono(0.0, (k - 1) as real, v);
    Distribute((k - 1) as real, 1.0, v);
  }

  lemma CopiesMore(log: seq<Sample>, x: Sample, k: nat)
    requires k >= 1
    ensures log + Copies(x, k) == log + Copies(x, k - 1) + [x]
  {}

  /** Trying one context `k` times takes its variance to `v / d`, `d == 1 + k v`. */
  lemma {:induction false} RepeatedVariance(ridge: real, dim: nat, log: seq<Sample>, x: Sample, k: nat, v: real, d: real)
    requires ridge > 0.0 && Fits(log, dim) && |x.phi| == dim && v == Variance(ridge, dim, log, x.phi)
    requires d == 1.0 + k as real * v
    ensures v >= 0.0 && d > 0.0 && Fits(log + Copies(x, k), dim)
    ensures Variance(ridge, dim, log + Copies(x, k), x.phi) == v / d
  {
    VariancePositive(ridge, dim, log, x.phi);
    if k == 0 {
      assert log + Copies(x, 0) == log;
    } else {
      OneCountLess(v, k, d);
      RepeatedVariance(ridge, dim, log, x, k - 1, v, d - v);
      CopiesMore(log, x, k);
      OneMoreCopy(ridge, dim, log + Copies(x, k - 1), x, v, d - v);
    }
  }

  lemma OneMoreCopy(ridge: real, dim: nat, log: seq<Sample>, x: Sample, v: real, d: real)
    requires ridge > 0.0 && Fits(log, dim) && |x.phi| == dim && v >= 0.0 && d >= 1.0
    requires Variance(ridge, dim, log, x.phi) == v / d
    ensures Fits(log + [x], dim) && Variance(ridge, dim, log + [x], x.phi) == v / (d + v)
  {
    var u := v / d;
    HarmonicStep(v, d, u);
    OwnVariance(ridge, dim, log, x, u);
  }

  // -------------------------------------------------------- entries, and order of samples

  function Total(log: seq<Sample>, f: Sample -> real): real {
    if log == [] then 0.0 else Total(log[..|log| - 1], f) + f(log[|log| - 1])
  }

  lemma {:induction false} TotalWithout(log: seq<Sample>, f: Sample -> real, k: nat)
    requires k < |log|
    ensures Total(log, f) == Total(log[..k] + log[k + 1..], f) + f(log[k])
  {
    var last := |log| - 1;
    if k == last {
      assert log[..k] + log[k + 1..] == log[..last];
    } else {
      var rest := log[..k] + log[k + 1..];
      TotalWithout(log[..last], f, k);
      assert rest[..|rest| - 1] == log[..last][..k] + log[..last][k + 1..];
    }
  }

  lemma {:induction false} TotalPermuted(log: seq<Sample>, other: seq<Sample>, f: Sample -> real)
    requires multiset(log) == multiset(other)
    ensures Total(log, f) == Total(other, f)
  {
    if log == [] {
      assert |multiset(other)| == 0;
    } else {
      var last := |log| - 1;
      var k := Elsewhere(log, last, other);
      SameWithout(log, last, other, k);
      TotalWithout(log, f, last);
      TotalWithout(other, f, k);
      TotalPermuted(log[..last] + log[last + 1..], other[..k] + other[k + 1..], f);
    }
  }

  function Coordinate(v: Vec, i: nat): real {
    if i < |v| then v[i] else 0.0
  }

  function Square(i: nat, j: nat): Sample -> real {
    (x: Sample) => Coordinate(x.phi, i) * Coordinate(x.phi, j)
  }

  function Reward(i: nat): Sample -> real {
    (x: Sample) => x.reward * Coordinate(x.phi, i)
  }

  lemma FoldEntries(s: Stats, x: Sample, i: nat, j: nat)
    requires IsMat(s.a, |x.phi|) && |s.b| == |x.phi| && i < |x.phi| && j < |x.phi|
    ensures Fold(s, x).a[i][j] == s.a[i][j] + Square(i, j)(x)
    ensures Fold(s, x).b[i] == s.b[i] + Reward(i)(x)
  {
    ScaleAt(x.phi[i], x.phi, j);
    ScaleAt(1.0, Scale(x.phi[i], x.phi), j);
    ScaleAt(x.reward, x.phi, i);
    assert AddOuter(s.a, x.phi, 1.0)[i] == OuterRow(s.a[i], x.phi, 1.0, x.phi[i]);
  }

  /** Entry by entry, `A == ridge * I + sum phi phi^T` and `b == sum reward * phi`. */
  lemma {:induction false} Entries(ridge: real, dim: nat, log: seq<Sample>, i: nat, j: nat)
    requires Fits(log, dim) && i < dim && j < dim
    ensures Learn(ridge, dim, log).a[i][j] == (if i == j then ridge else 0.0) + Total(log, Square(i, j))
    ensures Learn(ridge, dim, log).b[i] == Total(log, Reward(i))
  {
    if log != [] {
      var init, x := log[..|log| - 1], log[|log| - 1];
      Entries(ridge, dim, init, i, j);
      FoldEntries(Learn(ridge, dim, init), x, i, j);
    }
  }

  /** The order of the samples does not matter. */
  lemma OrderOfSamples(ridge: real, dim: nat, log: seq<Sample>, other: seq<Sample>)
    requires Fits(log, dim) && Fits(other, dim) && multiset(log) == multiset(other)
    ensures Learn(ridge, dim, log) == Learn(ridge, dim, other)
  {
    var s, t := Learn(ridge, dim, log), Learn(ridge, dim, other);
    assert |multiset(log)| == |multiset(other)|;
    forall i | 0 <= i < dim ensures s.a[i] == t.a[i] && s.b[i] == t.b[i] {
      forall j | 0 <= j < dim ensures s.a[i][j] == t.a[i][j] && s.b[i] == t.b[i] {
        Entries(ridge, dim, log, i, j);
        Entries(ridge, dim, other, i, j);
        TotalPermuted(log, other, Square(i, j));
        TotalPermuted(log, other, Reward(i));
      }
      assert s.a[i][i] == t.a[i][i] && s.b[i] == t.b[i];
    }
  }
}
