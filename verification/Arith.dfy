/** The few facts about products, quotients and sums of reals, and set sizes, that other proofs lean on. */
module Arith {

  /** A product as a term of its own, for proofs that must not multiply it out. */
  function Mul(a: real, b: real): real { a * b }

  function Power(x: real, n: nat): real {
    if n == 0 then 1.0 else Mul(x, Power(x, n - 1))
  }

  function Sign(x: real): int { if x > 0.0 then 1 else if x < 0.0 then -1 else 0 }

  function Total(s: seq<real>): real {
    if s == [] then 0.0 else Total(s[..|s| - 1]) + s[|s| - 1]
  }

  lemma SubsetIsSmaller<T>(a: set<T>, b: set<T>)
    requires a <= b
    ensures |a| <= |b|
  {
    assert b == a + (b - a);
  }

  lemma ProductNonNegative(a: real, b: real)
    requires a >= 0.0 && b >= 0.0
    ensures a * b >= 0.0
  {}

  lemma ProductPositive(a: real, b: real)
    requires a > 0.0 && b > 0.0
    ensures a * b > 0.0
  {}

  lemma ProductSign(a: real, b: real)
    requires b > 0.0
    ensures a * b >= 0.0 <==> a >= 0.0
    ensures a * b > 0.0 <==> a > 0.0
  {
    if a > 0.0 { ProductPositive(a, b); }
    if a < 0.0 { ProductPositive(-a, b); }
  }

  lemma ScaleLe(a: real, b: real, c: real)
    requires a <= b && c >= 0.0
    ensures a * c <= b * c
  {}

  lemma CancelLe(a: real, b: real, c: real)
    requires a * c <= b * c && c > 0.0
    ensures a <= b
  {}

  lemma QuotientTimes(a: real, b: real)
    requires b != 0.0
    ensures a / b * b == a
  {}

  lemma Distribute(a: real, b: real, c: real)
    ensures (a + b) * c == a * c + b * c
    ensures (a - b) * c == a * c - b * c
    ensures c * (a + b) == c * a + c * b
    ensures c * (a - b) == c * a - c * b
  {}
}
