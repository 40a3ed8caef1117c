/** Vectors and square matrices over exact reals, as far as a ridge-regression bandit needs
    them: bilinearity, rank-one updates, positive definiteness and inverses.  A vector is a
    sequence and a matrix the sequence of its rows; nothing is assumed about dimensions
    beyond what a contract says. */
module LinAlg {
  import opened Reals

  type Vec = seq<real>
  type Mat = seq<Vec>

  ghost predicate IsMat(m: Mat, n: nat) {
    |m| == n && forall i :: 0 <= i < n ==> |m[i]| == n
  }

  /** The dot product.  It is spread over three functions so that the prover unfolds it
      only where a proof mentions `DotStep`; everywhere else it is just a number. */
  function Dot(u: Vec, v: Vec): real
    requires |u| == |v|
    decreases |u|, 2
  {
    if u == [] then 0.0 else DotMore(u, v)
  }

  function DotMore(u: Vec, v: Vec): real
    requires |u| == |v| > 0
    decreases |u|, 1
  {
    DotStep(u, v)
  }

  function DotStep(u: Vec, v: Vec): real
    requires |u| == |v| > 0
    decreases |u|, 0
  {
    u[0] * v[0] + Dot(u[1..], v[1..])
  }

  function Add(u: Vec, v: Vec): (w: Vec)
    requires |u| == |v|
    ensures |w| == |u| && forall i {:trigger w[i]} :: 0 <= i < |u| ==> w[i] == u[i] + v[i]
  {
    seq(|u|, i requires 0 <= i < |u| => u[i] + v[i])
  }

  /** `c v`, spread out for the same reason; `ScaleAt` gives its coordinates. */
  function Scale(c: real, v: Vec): (w: Vec)
    ensures |w| == |v|
    decreases |v|, 2
  {
    if v == [] then [] else ScaleMore(c, v)
  }

  function ScaleMore(c: real, v: Vec): (w: Vec)
    requires v != []
    ensures |w| == |v|
    decreases |v|, 1
  {
    ScaleStep(c, v)
  }

  function ScaleStep(c: real, v: Vec): (w: Vec)
    requires v != []
    ensures |w| == |v|
    decreases |v|, 0
  {
    [c * v[0]] + Scale(c, v[1..])
  }

  lemma {:induction false} ScaleAt(c: real, v: Vec, i: nat)
    requires i < |v|
    ensures Scale(c, v)[i] == c * v[i]
  {
    assert Scale(c, v) == ScaleStep(c, v);
    if i > 0 { ScaleAt(c, v[1..], i - 1); }
  }

  function Zero(n: nat): (w: Vec)
    ensures |w| == n && forall i :: 0 <= i < n ==> w[i] == 0.0
  {
    seq(n, i => 0.0)
  }

  function MatVec(m: Mat, x: Vec): (y: Vec)
    requires IsMat(m, |x|)
    ensures |y| == |x| && forall i {:trigger y[i]} :: 0 <= i < |x| ==> y[i] == Dot(m[i], x)
  {
    seq(|x|, i requires 0 <= i < |x| => Dot(m[i], x))
  }

  /** `m + c * phi phi^T`. */
  function AddOuter(m: Mat, phi: Vec, c: real): (r: Mat)
    requires IsMat(m, |phi|)
    ensures IsMat(r, |phi|)
    ensures forall i {:trigger r[i]} :: 0 <= i < |phi| ==> r[i] == OuterRow(m[i], phi, c, phi[i])
  {
    seq(|phi|, i requires 0 <= i < |phi| => OuterRow(m[i], phi, c, phi[i]))
  }

  function OuterRow(row: Vec, phi: Vec, c: real, p: real): (r: Vec)
    requires |row| == |phi|
    ensures |r| == |row|
  {
    Add(row, Scale(c, Scale(p, phi)))
  }

  /** `x` times the unit vector of coordinate `i`. */
  function AxisVec(n: nat, i: nat, x: real): (v: Vec)
    ensures |v| == n && forall j :: 0 <= j < n ==> v[j] == (if j == i then x else 0.0)
  {
    seq(n, j => if j == i then x else 0.0)
  }

  /** `x * I`. */
  function Diagonal(n: nat, x: real): (m: Mat)
    ensures IsMat(m, n)
    ensures forall i :: 0 <= i < n ==> m[i] == AxisVec(n, i, x)
  {
    seq(n, i requires 0 <= i => AxisVec(n, i, x))
  }

  // ------------------------------------------------------------------------ dot products

  lemma {:induction false} DotComm(u: Vec, v: Vec)
    requires |u| == |v|
    ensures Dot(u, v) == Dot(v, u)
  {
    if u != [] {
      DotComm(u[1..], v[1..]);
      assert DotStep(u, v) == DotStep(v, u);
    }
  }

  lemma SplitProduct(a: real, b: real, c: real, s: real)
    requires s == b + c
    ensures a * s == a * b + a * c
  {}

  lemma MovedFactor(a: real, b: real, c: real, s: real)
    requires s == c * b
    ensures a * s == c * (a * b)
  {}

  lemma {:induction false} DotAdd(u: Vec, v: Vec, w: Vec)
    requires |u| == |v| == |w|
    ensures Dot(u, Add(v, w)) == Dot(u, v) + Dot(u, w)
  {
    if u != [] {
      DotAdd(u[1..], v[1..], w[1..]);
      assert Add(v, w)[1..] == Add(v[1..], w[1..]);
      SplitProduct(u[0], v[0], w[0], Add(v, w)[0]);
      assert DotStep(u, Add(v, w)) == DotStep(u, v) + DotStep(u, w);
    }
  }

  lemma {:induction false} DotScale(u: Vec, v: Vec, c: real, e: real)
    requires |u| == |v| && e == Dot(u, v)
    ensures Dot(u, Scale(c, v)) == c * e
  {
    if u != [] {
      DotScale(u[1..], v[1..], c, Dot(u[1..], v[1..]));
      var w := ScaleStep(c, v);
      assert Scale(c, v) == ScaleStep(c, v);
      assert w[1..] == Scale(c, v[1..]);
      assert Dot(u, w) == DotStep(u, w);
      assert e == DotStep(u, v);
      ScaledStep(c, u[0], v[0], w[0], Dot(u[1..], v[1..]), e);
    }
  }

  lemma ScaledStep(c: real, u: real, v: real, cv: real, rest: real, e: real)
    requires cv == c * v && e == u * v + rest
    ensures u * cv + c * rest == c * e
  {}

  /** `u . (v + c w)`. */
  lemma DotCombine(u: Vec, v: Vec, c: real, w: Vec, e: real)
    requires |u| == |v| == |w| && e == Dot(u, w)
    ensures Dot(u, Add(v, Scale(c, w))) == Dot(u, v) + c * e
    ensures Dot(Add(v, Scale(c, w)), u) == Dot(u, v) + c * e
  {
    DotAdd(u, v, Scale(c, w));
    DotScale(u, w, c, e);
    DotComm(u, Add(v, Scale(c, w)));
  }

  lemma {:induction false} DotSelf(u: Vec)
    ensures Dot(u, u) >= 0.0
    ensures u != Zero(|u|) ==> Dot(u, u) > 0.0
  {
    if u != [] {
      var t, a := u[1..], u[0];
      DotSelf(t);
      assert Dot(u, u) == DotStep(u, u) == a * a + Dot(t, t);
      StepSign(a, Dot(t, t), Dot(u, u));
      if a == 0.0 && t == Zero(|t|) {
        assert u == [a] + t == Zero(|u|);
      }
    }
  }

  lemma PositiveSquare(a: real, sq: real)
    requires a > 0.0 && sq == a * a
    ensures sq > 0.0
  {
    PositiveProduct(a, a, sq);
  }

  lemma NegativeSquare(a: real, sq: real)
    requires a < 0.0 && sq == a * a
    ensures sq > 0.0
  {
    var b := -a;
    assert sq == b * b;
    PositiveSquare(b, sq);
  }

  lemma StepSign(a: real, rest: real, total: real)
    requires rest >= 0.0 && total == a * a + rest
    ensures total >= 0.0
    ensures a != 0.0 || rest > 0.0 ==> total > 0.0
  {
    if a > 0.0 { PositiveSquare(a, a * a); } else if a < 0.0 { NegativeSquare(a, a * a); }
  }

  lemma SquareSign(x: real)
    ensures x * x >= 0.0
    ensures x != 0.0 ==> x * x > 0.0
  {}

  lemma {:induction false} DotZero(u: Vec)
    ensures Dot(u, Zero(|u|)) == 0.0
  {
    if u != [] {
      DotZero(u[1..]);
      assert Zero(|u|)[1..] == Zero(|u| - 1);
      assert Dot(u, Zero(|u|)) == DotStep(u, Zero(|u|));
    }
  }

  lemma {:induction false} DotAxis(u: Vec, i: nat, x: real)
    requires i < |u|
    ensures Dot(AxisVec(|u|, i, x), u) == x * u[i]
  {
    var a := AxisVec(|u|, i, x);
    assert Dot(a, u) == DotStep(a, u);
    if i == 0 {
      assert a[1..] == Zero(|u| - 1);
      DotZero(u[1..]);
      DotComm(u[1..], a[1..]);
    } else {
      DotAxis(u[1..], i - 1, x);
      assert a[1..] == AxisVec(|u| - 1, i - 1, x);
    }
  }

  // ---------------------------------------------------------------- matrices as operators

  lemma MatVecCombine(m: Mat, x: Vec, c: real, y: Vec)
    requires |x| == |y| && IsMat(m, |x|)
    ensures MatVec(m, Add(x, Scale(c, y))) == Add(MatVec(m, x), Scale(c, MatVec(m, y)))
  {
    forall i | 0 <= i < |x|
      ensures MatVec(m, Add(x, Scale(c, y)))[i] == Add(MatVec(m, x), Scale(c, MatVec(m, y)))[i]
    {
      DotCombine(m[i], x, c, y, MatVec(m, y)[i]);
      ScaleAt(c, MatVec(m, y), i);
    }
  }

  lemma OuterRowDot(row: Vec, phi: Vec, c: real, p: real, x: Vec, d: real, k: real)
    requires |row| == |phi| == |x| && d == Dot(phi, x) && k == c * d
    ensures Dot(OuterRow(row, phi, c, p), x) == Dot(row, x) + k * p
  {
    DotComm(row, x);
    DotComm(phi, x);
    DotScale(x, phi, p, d);
    DotCombine(x, row, c, Scale(p, phi), p * d);
    SwapFactors(c, p, d, k);
  }

  lemma SwapFactors(c: real, p: real, d: real, k: real)
    requires k == c * d
    ensures c * (p * d) == k * p
  {}

  ghost predicate RowsGain(m: Mat, phi: Vec, c: real, x: Vec, k: real)
    requires |x| == |phi| && IsMat(m, |x|)
  {
    forall i {:trigger phi[i]} :: 0 <= i < |x| ==> Dot(OuterRow(m[i], phi, c, phi[i]), x) == Dot(m[i], x) + Scale(k, phi)[i]
  }

  lemma GainOfRows(m: Mat, phi: Vec, c: real, x: Vec, d: real, k: real)
    requires |x| == |phi| && IsMat(m, |x|) && d == Dot(phi, x) && k == c * d
    ensures RowsGain(m, phi, c, x, k)
  {
    forall i | 0 <= i < |x|
      ensures Dot(OuterRow(m[i], phi, c, phi[i]), x) == Dot(m[i], x) + Scale(k, phi)[i]
    {
      ScaleAt(k, phi, i);
      OuterRowDot(m[i], phi, c, phi[i], x, d, k);
    }
  }

  lemma FromRows(m: Mat, phi: Vec, c: real, x: Vec, k: real)
    requires |x| == |phi| && IsMat(m, |x|) && RowsGain(m, phi, c, x, k)
    ensures MatVec(AddOuter(m, phi, c), x) == Add(MatVec(m, x), Scale(k, phi))
  {
    var left, right := MatVec(AddOuter(m, phi, c), x), Add(MatVec(m, x), Scale(k, phi));
    forall i | 0 <= i < |x| ensures left[i] == right[i] {
      assert left[i] == Dot(OuterRow(m[i], phi, c, phi[i]), x);
    }
  }

  /** `(m + c phi phi^T) x  ==  m x + k phi` for `k == c d` and `d == phi . x`. */
  lemma AddOuterVec(m: Mat, phi: Vec, c: real, x: Vec, d: real, k: real)
    requires |x| == |phi| && IsMat(m, |x|) && d == Dot(phi, x) && k == c * d
    ensures MatVec(AddOuter(m, phi, c), x) == Add(MatVec(m, x), Scale(k, phi))
  {
    GainOfRows(m, phi, c, x, d, k);
    FromRows(m, phi, c, x, k);
  }

  lemma DiagonalVec(n: nat, c: real, x: Vec)
    requires |x| == n
    ensures MatVec(Diagonal(n, c), x) == Scale(c, x)
  {
    forall i | 0 <= i < n ensures MatVec(Diagonal(n, c), x)[i] == Scale(c, x)[i] {
      DotAxis(x, i, c);
      ScaleAt(c, x, i);
    }
  }

  // -------------------------------------------------- symmetric, positive definite, inverse

  /** `x . m y == m x . y` for all `x`, `y`. */
  ghost predicate SelfAdjoint(m: Mat, n: nat) {
    IsMat(m, n) && forall x: Vec, y: Vec {:trigger Adjoint(m, x, y)} :: |x| == n && |y| == n ==> Adjoint(m, x, y)
  }

  ghost predicate Adjoint(m: Mat, x: Vec, y: Vec)
    requires |x| == |y| && IsMat(m, |x|)
  {
    Dot(x, MatVec(m, y)) == Dot(y, MatVec(m, x))
  }

  ghost predicate PositiveDefinite(m: Mat, n: nat) {
    IsMat(m, n) && forall x: Vec {:trigger Quad(m, x)} :: |x| == n && x != Zero(n) ==> Quad(m, x) > 0.0
  }

  /** `x . m x`: for an inverse covariance this is the variance along `x`. */
  function Quad(m: Mat, x: Vec): real
    requires IsMat(m, |x|)
  {
    Dot(x, MatVec(m, x))
  }

  /** `w` undoes `m` on either side. */
  ghost predicate Inverse(m: Mat, w: Mat, n: nat) {
    && IsMat(m, n) && IsMat(w, n)
    && forall x: Vec {:trigger Undoes(m, w, x)} {:trigger Undoes(w, m, x)} :: |x| == n ==> Undoes(m, w, x) && Undoes(w, m, x)
  }

  ghost predicate Undoes(m: Mat, w: Mat, x: Vec)
    requires IsMat(m, |x|) && IsMat(w, |x|)
  {
    MatVec(m, MatVec(w, x)) == x
  }

  /** The bilinear form of an updated matrix: it gains `c (phi . y) (phi . x)`. */
  lemma AddOuterForm(m: Mat, phi: Vec, c: real, x: Vec, y: Vec, d: real, k: real, e: real)
    requires |x| == |y| == |phi| && IsMat(m, |x|) && d == Dot(phi, y) && k == c * d && e == Dot(phi, x)
    ensures Dot(x, MatVec(AddOuter(m, phi, c), y)) == Dot(x, MatVec(m, y)) + k * e
  {
    AddOuterVec(m, phi, c, y, d, k);
    DotComm(phi, x);
    DotCombine(x, MatVec(m, y), k, phi, e);
  }

  lemma AddOuterSelfAdjoint(m: Mat, phi: Vec, c: real, n: nat)
    requires SelfAdjoint(m, n) && |phi| == n
    ensures SelfAdjoint(AddOuter(m, phi, c), n)
  {
    forall x: Vec, y: Vec | |x| == n && |y| == n
      ensures Adjoint(AddOuter(m, phi, c), x, y)
    {
      assert Adjoint(m, x, y);
      AddOuterSymmetric(m, phi, c, x, y, Dot(phi, x), Dot(phi, y));
    }
  }

  lemma AddOuterSymmetric(m: Mat, phi: Vec, c: real, x: Vec, y: Vec, dx: real, dy: real)
    requires |x| == |y| == |phi| && IsMat(m, |x|) && dx == Dot(phi, x) && dy == Dot(phi, y)
    requires Adjoint(m, x, y)
    ensures Adjoint(AddOuter(m, phi, c), x, y)
  {
    var kx, ky := c * dx, c * dy;
    AddOuterForm(m, phi, c, x, y, dy, ky, dx);
    AddOuterForm(m, phi, c, y, x, dx, kx, dy);
    SymmetricTerm(c, dx, dy, kx, ky);
  }

  lemma SymmetricTerm(c: real, dx: real, dy: real, kx: real, ky: real)
    requires kx == c * dx && ky == c * dy
    ensures ky * dx == kx * dy
  {}

  lemma AddSquare(m: Mat, phi: Vec, x: Vec, d: real)
    requires |x| == |phi| && IsMat(m, |x|) && d == Dot(phi, x)
    ensures Quad(AddOuter(m, phi, 1.0), x) == Quad(m, x) + d * d
    ensures d * d >= 0.0
  {
    AddOuterForm(m, phi, 1.0, x, x, d, d, d);
    SquareSign(d);
  }

  lemma AddOuterPositive(m: Mat, phi: Vec, n: nat)
    requires PositiveDefinite(m, n) && |phi| == n
    ensures PositiveDefinite(AddOuter(m, phi, 1.0), n)
  {
    forall x: Vec | |x| == n && x != Zero(n) ensures Quad(AddOuter(m, phi, 1.0), x) > 0.0 {
      AddSquare(m, phi, x, Dot(phi, x));
    }
  }

  lemma DiagonalPositive(n: nat, c: real)
    requires c > 0.0
    ensures SelfAdjoint(Diagonal(n, c), n) && PositiveDefinite(Diagonal(n, c), n)
  {
    forall x: Vec, y: Vec | |x| == n && |y| == n ensures Adjoint(Diagonal(n, c), x, y) {
      DotComm(x, y);
      DiagonalForm(n, c, x, y, Dot(x, y));
      DiagonalForm(n, c, y, x, Dot(x, y));
    }
    forall x: Vec | |x| == n && x != Zero(n) ensures Quad(Diagonal(n, c), x) > 0.0 {
      DiagonalForm(n, c, x, x, Dot(x, x));
      DotSelf(x);
      StrictMono(0.0, c, Dot(x, x));
    }
  }

  lemma DiagonalForm(n: nat, c: real, x: Vec, y: Vec, e: real)
    requires |x| == |y| == n && e == Dot(x, y)
    ensures Dot(x, MatVec(Diagonal(n, c), y)) == c * e
  {
    DiagonalVec(n, c, y);
    DotScale(x, y, c, e);
  }

  lemma ScaleBack(x: Vec, c: real, d: real)
    requires c * d == 1.0
    ensures Scale(c, Scale(d, x)) == x
  {
    forall i | 0 <= i < |x| ensures Scale(c, Scale(d, x))[i] == x[i] {
      ScaleAt(d, x, i);
      ScaleAt(c, Scale(d, x), i);
      ProductOne(c, d, x[i], Scale(d, x)[i]);
    }
  }

  lemma ProductOne(c: real, d: real, x: real, y: real)
    requires c * d == 1.0 && y == d * x
    ensures c * y == x
  {
    Assoc(c, d, x);
  }

  lemma DiagonalInverse(n: nat, c: real, d: real)
    requires c * d == 1.0
    ensures Inverse(Diagonal(n, c), Diagonal(n, d), n)
  {
    forall x: Vec | |x| == n
      ensures Undoes(Diagonal(n, c), Diagonal(n, d), x) && Undoes(Diagonal(n, d), Diagonal(n, c), x)
    {
      DiagonalVec(n, c, x);
      DiagonalVec(n, d, x);
      DiagonalVec(n, d, Scale(c, x));
      DiagonalVec(n, c, Scale(d, x));
      ScaleBack(x, c, d);
      ScaleBack(x, d, c);
    }
  }

  /** The inverse of a positive definite matrix is positive definite, so variances are never
      negative. */
  lemma InversePositive(m: Mat, w: Mat, n: nat)
    requires Inverse(m, w, n) && PositiveDefinite(m, n)
    ensures PositiveDefinite(w, n)
    ensures forall x: Vec {:trigger Quad(w, x)} :: |x| == n ==> Quad(w, x) >= 0.0
  {
    forall x: Vec | |x| == n
      ensures x != Zero(n) ==> Quad(w, x) > 0.0
      ensures Quad(w, x) >= 0.0
    {
      assert Undoes(m, w, x);
      InverseForm(m, w, n, x, MatVec(w, x));
    }
  }

  lemma InverseForm(m: Mat, w: Mat, n: nat, x: Vec, y: Vec)
    requires PositiveDefinite(m, n) && IsMat(w, n) && |x| == n
    requires y == MatVec(w, x) && MatVec(m, y) == x
    ensures x != Zero(n) ==> Quad(w, x) > 0.0
    ensures Quad(w, x) >= 0.0
  {
    DotComm(x, y);
    assert Quad(w, x) == Quad(m, y);
    MapsZero(m, n);
    if y == Zero(n) { DotZero(x); }
  }

  lemma MapsZero(m: Mat, n: nat)
    requires IsMat(m, n)
    ensures MatVec(m, Zero(n)) == Zero(n)
  {
    forall i | 0 <= i < n ensures MatVec(m, Zero(n))[i] == 0.0 { DotZero(m[i]); }
  }

  /** An inverse is unique as an operator. */
  lemma InverseUnique(m: Mat, w: Mat, w': Mat, n: nat, x: Vec)
    requires Inverse(m, w, n) && Inverse(m, w', n) && |x| == n
    ensures MatVec(w, x) == MatVec(w', x)
  {
    assert Undoes(m, w', x) && Undoes(w, m, MatVec(w', x));
  }

  lemma InverseSelfAdjoint(m: Mat, w: Mat, n: nat)
    requires Inverse(m, w, n) && SelfAdjoint(m, n)
    ensures SelfAdjoint(w, n)
  {
    forall x: Vec, y: Vec | |x| == n && |y| == n ensures Adjoint(w, x, y) {
      assert Undoes(m, w, x) && Undoes(m, w, y);
      MovedAcross(m, n, x, y, MatVec(w, x), MatVec(w, y));
    }
  }

  lemma MovedAcross(m: Mat, n: nat, x: Vec, y: Vec, x': Vec, y': Vec)
    requires |x| == |y| == |x'| == |y'| == n && SelfAdjoint(m, n)
    requires MatVec(m, x') == x && MatVec(m, y') == y
    ensures Dot(x, y') == Dot(y, x')
  {
    assert Adjoint(m, x', y');
    DotComm(x', y);
    DotComm(y', x);
  }

  // --------------------------------------------------------------------- Sherman-Morrison

  /** The inverse of `m + phi phi^T`, from the inverse `w` of `m`, when `q` is the negated
      reciprocal of one plus the variance along `phi`. */
  function Downdate(w: Mat, phi: Vec, q: real): (r: Mat)
    requires IsMat(w, |phi|)
    ensures IsMat(r, |phi|)
  {
    AddOuter(w, MatVec(w, phi), q)
  }

  /** `downdate(w, phi) x  ==  w x + k (w phi)` for `k == q s` and `s == phi . w x`. */
  lemma DowndateVec(w: Mat, phi: Vec, q: real, x: Vec, s: real, k: real)
    requires IsMat(w, |x|) && |phi| == |x| && Adjoint(w, phi, x)
    requires s == Dot(phi, MatVec(w, x)) && k == q * s
    ensures MatVec(Downdate(w, phi, q), x) == Add(MatVec(w, x), Scale(k, MatVec(w, phi)))
  {
    var wphi := MatVec(w, phi);
    DotComm(wphi, x);
    AddOuterVec(w, wphi, q, x, s, k);
  }

  /** The cancellation behind Sherman-Morrison, with `q (1 + v) == -1`. */
  lemma Cancelled(q: real, v: real, s: real, k: real)
    requires q + q * v == -1.0 && k == q * s
    ensures k + (s + k * v) == 0.0
    ensures s + q * (s + s * v) == 0.0
  {
    assert (q + q * v) * s == -s;
    assert (q * v) * s == k * v;
    assert q * (s * v) == k * v;
  }

  lemma Together(x: Vec, phi: Vec, a: real, b: real)
    requires |x| == |phi| && a + b == 0.0
    ensures Add(Add(x, Scale(a, phi)), Scale(b, phi)) == x
  {
    forall i | 0 <= i < |x| ensures Add(Add(x, Scale(a, phi)), Scale(b, phi))[i] == x[i] {
      ScaleAt(a, phi, i);
      ScaleAt(b, phi, i);
      Opposite(a, b, phi[i]);
    }
  }

  lemma Opposite(a: real, b: real, p: real)
    requires a + b == 0.0
    ensures a * p + b * p == 0.0
  {
    assert b == -a;
  }

  lemma UpdateOfSum(m: Mat, phi: Vec, wx: Vec, wphi: Vec, x: Vec, k: real, v: real, d: real)
    requires |phi| == |wx| == |wphi| == |x| && IsMat(m, |x|)
    requires MatVec(m, wx) == x && MatVec(m, wphi) == phi && v == Dot(phi, wphi) && d == Dot(phi, wx) + k * v
    ensures MatVec(AddOuter(m, phi, 1.0), Add(wx, Scale(k, wphi))) == Add(Add(x, Scale(k, phi)), Scale(d, phi))
  {
    DotCombine(phi, wx, k, wphi, v);
    AddOuterVec(m, phi, 1.0, Add(wx, Scale(k, wphi)), d, d);
    MatVecCombine(m, wx, k, wphi);
  }

  lemma UpdateUndowndates(m: Mat, w: Mat, phi: Vec, q: real, x: Vec, s: real, v: real, k: real, d: real)
    requires |phi| == |x| && IsMat(m, |x|) && IsMat(w, |x|) && Adjoint(w, phi, x)
    requires Undoes(m, w, x) && Undoes(m, w, phi)
    requires s == Dot(phi, MatVec(w, x)) && v == Dot(phi, MatVec(w, phi))
    requires k == q * s && d == s + k * v && k + d == 0.0
    ensures Undoes(AddOuter(m, phi, 1.0), Downdate(w, phi, q), x)
  {
    DowndateVec(w, phi, q, x, s, k);
    UpdateOfSum(m, phi, MatVec(w, x), MatVec(w, phi), x, k, v, d);
    Together(x, phi, k, d);
  }

  lemma ImageOfUpdate(m: Mat, w: Mat, phi: Vec, x: Vec, d: real, y: Vec, v: real, e: real)
    requires |phi| == |x| == |y| && IsMat(m, |x|) && IsMat(w, |x|) && Undoes(w, m, x)
    requires d == Dot(phi, x) && v == Dot(phi, MatVec(w, phi)) && e == d + d * v
    requires y == MatVec(AddOuter(m, phi, 1.0), x)
    ensures MatVec(w, y) == Add(x, Scale(d, MatVec(w, phi))) && Dot(phi, MatVec(w, y)) == e
  {
    AddOuterVec(m, phi, 1.0, x, d, d);
    MatVecCombine(w, MatVec(m, x), d, phi);
    DotCombine(phi, x, d, MatVec(w, phi), v);
  }

  lemma DowndateUnupdates(m: Mat, w: Mat, phi: Vec, q: real, x: Vec, y: Vec, d: real, v: real, e: real, k: real)
    requires |phi| == |x| == |y| && IsMat(m, |x|) && IsMat(w, |x|)
    requires Undoes(w, m, x) && Adjoint(w, phi, y)
    requires d == Dot(phi, x) && v == Dot(phi, MatVec(w, phi)) && e == d + d * v
    requires k == q * e && d + k == 0.0
    requires y == MatVec(AddOuter(m, phi, 1.0), x)
    ensures Undoes(Downdate(w, phi, q), AddOuter(m, phi, 1.0), x)
  {
    ImageOfUpdate(m, w, phi, x, d, y, v, e);
    DowndateVec(w, phi, q, y, e, k);
    Together(x, MatVec(w, phi), d, k);
  }

  lemma Factors(q: real, v: real, s: real) returns (k: real, d: real)
    requires q + q * v == -1.0
    ensures k == q * s && d == s + k * v && k + d == 0.0
  {
    k := q * s;
    d := s + k * v;
    Cancelled(q, v, s, k);
  }

  lemma DowndateThenUpdate(m: Mat, w: Mat, phi: Vec, q: real, x: Vec, s: real, v: real)
    requires |phi| == |x| && IsMat(m, |x|) && IsMat(w, |x|) && Adjoint(w, phi, x)
    requires Undoes(m, w, x) && Undoes(m, w, phi)
    requires s == Dot(phi, MatVec(w, x)) && v == Dot(phi, MatVec(w, phi)) && q + q * v == -1.0
    ensures Undoes(AddOuter(m, phi, 1.0), Downdate(w, phi, q), x)
  {
    var k, d := Factors(q, v, s);
    UpdateUndowndates(m, w, phi, q, x, s, v, k, d);
  }

  lemma OtherFactors(q: real, v: real, d: real) returns (e: real, k: real)
    requires q + q * v == -1.0
    ensures e == d + d * v && k == q * e && d + k == 0.0
  {
    e := d + d * v;
    k := q * e;
    Cancelled(q, v, d, q * d);
  }

  lemma UpdateThenDowndate(m: Mat, w: Mat, phi: Vec, q: real, x: Vec, y: Vec, d: real, v: real)
    requires |phi| == |x| == |y| && IsMat(m, |x|) && IsMat(w, |x|)
    requires Undoes(w, m, x) && Adjoint(w, phi, y) && y == MatVec(AddOuter(m, phi, 1.0), x)
    requires d == Dot(phi, x) && v == Dot(phi, MatVec(w, phi)) && q + q * v == -1.0
    ensures Undoes(Downdate(w, phi, q), AddOuter(m, phi, 1.0), x)
  {
    var e, k := OtherFactors(q, v, d);
    DowndateUnupdates(m, w, phi, q, x, y, d, v, e, k);
  }

  lemma UndoneBothWays(m: Mat, w: Mat, phi: Vec, q: real, x: Vec, y: Vec, v: real)
    requires |phi| == |x| == |y| && IsMat(m, |x|) && IsMat(w, |x|)
    requires Undoes(m, w, x) && Undoes(m, w, phi) && Undoes(w, m, x)
    requires y == MatVec(AddOuter(m, phi, 1.0), x) && Adjoint(w, phi, x) && Adjoint(w, phi, y)
    requires v == Quad(w, phi) && q + q * v == -1.0
    ensures Undoes(AddOuter(m, phi, 1.0), Downdate(w, phi, q), x)
    ensures Undoes(Downdate(w, phi, q), AddOuter(m, phi, 1.0), x)
  {
    DowndateThenUpdate(m, w, phi, q, x, Dot(phi, MatVec(w, x)), v);
    UpdateThenDowndate(m, w, phi, q, x, y, Dot(phi, x), v);
  }

  lemma UndoneAt(m: Mat, w: Mat, phi: Vec, q: real, v: real, m': Mat, w': Mat, x: Vec)
    requires Inverse(m, w, |phi|) && SelfAdjoint(w, |phi|) && |x| == |phi|
    requires v == Quad(w, phi) && q + q * v == -1.0
    requires m' == AddOuter(m, phi, 1.0) && w' == Downdate(w, phi, q)
    ensures Undoes(m', w', x) && Undoes(w', m', x)
  {
    var y := MatVec(m', x);
    assert Adjoint(w, phi, x) && Adjoint(w, phi, y);
    assert Undoes(m, w, x) && Undoes(m, w, phi) && Undoes(w, m, x);
    UndoneBothWays(m, w, phi, q, x, y, v);
  }

  /** Sherman-Morrison: the downdated inverse is the inverse of the updated matrix. */
  lemma ShermanMorrison(m: Mat, w: Mat, phi: Vec, q: real, v: real, m': Mat, w': Mat)
    requires Inverse(m, w, |phi|) && SelfAdjoint(w, |phi|)
    requires v == Quad(w, phi) && q + q * v == -1.0
    requires m' == AddOuter(m, phi, 1.0) && w' == Downdate(w, phi, q)
    ensures Inverse(m', w', |phi|)
  {
    forall x: Vec | |x| == |phi| ensures Undoes(m', w', x) && Undoes(w', m', x) {
      UndoneAt(m, w, phi, q, v, m', w', x);
    }
  }

  /** What a downdate does to the variance along `x`: it changes by `q (phi . w x)^2`. */
  lemma DowndateForm(w: Mat, phi: Vec, q: real, x: Vec, s: real, k: real)
    requires IsMat(w, |x|) && |phi| == |x| && Adjoint(w, phi, x)
    requires s == Dot(phi, MatVec(w, x)) && k == q * s
    ensures Quad(Downdate(w, phi, q), x) == Quad(w, x) + k * s
  {
    DowndateVec(w, phi, q, x, s, k);
    assert Dot(x, MatVec(w, phi)) == s;
    DotCombine(x, MatVec(w, x), k, MatVec(w, phi), s);
  }
}
