/** Rounding and bounding of numbers, and single steps of nonlinear real arithmetic.  Each
    step is proved once, as a lemma over plain numbers, so that the proofs that use it only
    ever see linear arithmetic. */
module Reals {

  /** A number that came from outside; floats may be infinite or not a number. */
  datatype Reading = Finite(value: real) | Infinite(positive: bool) | NotANumber

  function Ceil(x: real): int {
    -((-x).Floor)
  }

  function Max(a: real, b: real): real {
    if a > b then a else b
  }

  function Min(a: real, b: real): real {
    if a < b then a else b
  }

  function AtLeastOne(n: int): int {
    if n > 1 then n else 1
  }

  lemma PositiveProduct(a: real, b: real, p: real)
    requires a > 0.0 && b > 0.0 && p == a * b
    ensures p > 0.0
  {}

  lemma NonNegative(a: real, b: real, p: real)
    requires a >= 0.0 && b >= 0.0 && p == a * b
    ensures p >= 0.0
  {}

  lemma Mono(a: real, b: real, c: real)
    requires a <= b && 0.0 <= c
    ensures a * c <= b * c
  {
    assert (b - a) * c >= 0.0;
  }

  lemma StrictMono(a: real, b: real, c: real)
    requires a < b && 0.0 < c
    ensures a * c < b * c
  {
    assert (b - a) * c > 0.0;
  }

  lemma Cancel(a: real, b: real, c: real)
    requires 0.0 < c
    ensures a * c <= b * c <==> a <= b
    ensures a * c == b * c <==> a == b
  {
    if a < b { StrictMono(a, b, c); }
    if b < a { StrictMono(b, a, c); }
  }

  lemma Assoc(a: real, b: real, c: real)
    ensures (a * b) * c == a * (b * c)
    ensures (a * b) * c == (a * c) * b
  {}

  lemma Regroup(next: real, eta: real, g: real, t: real)
    requires next == eta * g
    ensures next * t == (t * eta) * g
  {}

  lemma SameFactor(a: real, b: real, c: real)
    requires a == b
    ensures a * c == b * c
  {}

  lemma Distribute(a: real, b: real, c: real)
    ensures (a + b) * c == a * c + b * c
    ensures (a - b) * c == a * c - b * c
  {}

  lemma Quotient(x: real, y: real)
    requires 0.0 < y
    ensures (x / y) * y == x
    ensures x >= 0.0 ==> x / y >= 0.0
    ensures x > 0.0 ==> x / y > 0.0
  {
    Cancel(0.0, x / y, y);
    Cancel(x / y, 0.0, y);
  }

  lemma QuotientAtMost(x: real, y: real, z: real)
    requires 0.0 < y
    ensures x / y <= z <==> x <= z * y
  {
    Quotient(x, y);
    Cancel(x / y, z, y);
  }

  lemma QuotientUnique(x: real, y: real, q: real)
    requires 0.0 < y && q * y == x
    ensures x / y == q
  {
    Quotient(x, y);
    Cancel(x / y, q, y);
  }

  /** `k` times `x`, added up. */
  function Repeat(x: real, k: nat): real {
    if k == 0 then 0.0 else x + Repeat(x, k - 1)
  }

  lemma {:induction false} RepeatIsProduct(x: real, k: nat)
    ensures Repeat(x, k) == k as real * x
  {
    if k > 0 {
      RepeatIsProduct(x, k - 1);
      Distribute((k - 1) as real, 1.0, x);
    }
  }

  lemma {:induction false} RepeatMore(x: real, j: nat, k: nat)
    requires j <= k && x >= 0.0
    ensures 0.0 <= Repeat(x, j) <= Repeat(x, k)
  {
    if j < k { RepeatMore(x, j, k - 1); }
    if j > 0 { RepeatMore(x, j - 1, j - 1); }
  }
}
