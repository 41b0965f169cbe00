/** Fractional differencing: the weights of (1 - L)^d and the fixed-width filter built from them. */
module FractionalDifference {
  import opened Types
  import opened Arith

  function NextWeight(d: real, k: nat, previous: real): real
    requires k > 0
  {
    -previous * (d - k as real + 1.0) / (k as real)
  }

  /** Coefficient `k` of (1 - L)^d. */
  function W(d: real, k: nat): real {
    if k == 0 then 1.0 else NextWeight(d, k, W(d, k - 1))
  }

  /** The `size` leading weights; `w = [1.0]` keeps one even when `size` is 0. */
  function Weights(d: real, size: nat): seq<real> {
    seq(if size == 0 then 1 else size, k requires 0 <= k => W(d, k))
  }

  /** The weight loop. */
  method FracWeights(d: real, size: nat) returns (w: seq<real>)
    ensures w == Weights(d, size)
  {
    hide NextWeight;
    w := [1.0];
    var k := 1;
    while k < size
      invariant |w| == k && (k <= size || k == 1)
      invariant forall j :: 0 <= j < k ==> w[j] == W(d, j)
    {
      w := w + [NextWeight(d, k, w[|w| - 1])];
      k := k + 1;
    }
  }

  // ---------------------------------------------------------------- algebra of the weights

  lemma Recurrence(d: real, k: nat)
    requires k > 0
    ensures Mul(k as real, W(d, k)) == Mul(k as real - 1.0 - d, W(d, k - 1))
  {
    QuotientTimes(-W(d, k - 1) * (d - k as real + 1.0), k as real);
    var v := W(d, k - 1);
    assert -v * (d - k as real + 1.0) == (k as real - 1.0 - d) * v;
  }

  /** First `m` terms of the product series: w_0(a) w_k(b) + ... + w_{m-1}(a) w_{k-m+1}(b). */
  function Product(a: real, b: real, k: nat, m: nat): real
    requires m <= k + 1
  {
    if m == 0 then 0.0 else Product(a, b, k, m - 1) + Mul(W(a, m - 1), W(b, k - m + 1))
  }

  lemma TwoSided(k: real, j: real, a: real, b: real, aj: real, ap: real, bj: real, bp: real)
    requires Mul(j, aj) == Mul(j - 1.0 - a, ap) && Mul(k - j, bj) == Mul(k - j - 1.0 - b, bp)
    ensures Mul(k, Mul(aj, bj)) == Mul(j - 1.0 - a, Mul(ap, bj)) + Mul(k - j - 1.0 - b, Mul(aj, bp))
  {
    assert k * (aj * bj) == j * aj * bj + (k - j) * bj * aj;
    assert j * aj * bj == (j - 1.0 - a) * ap * bj;
    assert (k - j) * bj * aj == (k - j - 1.0 - b) * bp * aj;
  }

  /** One term of the product series of index k in terms of two of index k - 1. */
  lemma TermSplits(a: real, b: real, k: nat, j: nat)
    requires 0 < j < k
    ensures Mul(k as real, Mul(W(a, j), W(b, k - j)))
            == Mul(j as real - 1.0 - a, Mul(W(a, j - 1), W(b, k - j)))
               + Mul(k as real - j as real - 1.0 - b, Mul(W(a, j), W(b, k - j - 1)))
  {
    hide *;
    Recurrence(a, j);
    Recurrence(b, k - j);
    TwoSided(k as real, j as real, a, b, W(a, j), W(a, j - 1), W(b, k - j), W(b, k - j - 1));
  }

  lemma Telescope(k: real, s: real, t: real, p: real, last: real, c0: real, c1: real, c2: real, next: real, r: real)
    requires Mul(k, s) == Mul(r, p) + Mul(c0, last) && Mul(k, t) == Mul(c1, last) + Mul(c2, next) && c0 + c1 == r
    ensures Mul(k, s + t) == Mul(r, p + last) + Mul(c2, next)
  {
    assert k * (s + t) == k * s + k * t;
    assert c0 * last + c1 * last == r * last;
    assert r * (p + last) == r * p + r * last;
  }

  /** Telescoping: k times the first `m` terms of index k against the first `m - 1` of index k - 1. */
  lemma {:induction false} PartialProduct(a: real, b: real, k: nat, m: nat)
    requires 1 <= m <= k
    ensures Mul(k as real, Product(a, b, k, m))
            == Mul(k as real - 1.0 - (a + b), Product(a, b, k - 1, m - 1))
               + Mul(k as real - m as real - b, Mul(W(a, m - 1), W(b, k - m)))
  {
    if m == 1 {
      FirstProduct(a, b, k);
    } else {
      PartialProduct(a, b, k, m - 1);
      TermSplits(a, b, k, m - 1);
      PartialStep(a, b, k, m);
    }
  }

  lemma FirstProduct(a: real, b: real, k: nat)
    requires 1 <= k
    ensures Mul(k as real, Product(a, b, k, 1))
            == Mul(k as real - 1.0 - (a + b), Product(a, b, k - 1, 0))
               + Mul(k as real - 1.0 - b, Mul(W(a, 0), W(b, k - 1)))
  {
    hide W;
    Recurrence(b, k);
    WZero(a);
    assert Product(a, b, k, 1) == W(b, k);
    assert Mul(W(a, 0), W(b, k - 1)) == W(b, k - 1);
  }

  lemma WZero(a: real)
    ensures W(a, 0) == 1.0
  {}

  lemma PartialStep(a: real, b: real, k: nat, m: nat)
    requires 2 <= m <= k
    requires Mul(k as real, Product(a, b, k, m - 1))
             == Mul(k as real - 1.0 - (a + b), Product(a, b, k - 1, m - 2))
                + Mul(k as real - (m - 1) as real - b, Mul(W(a, m - 2), W(b, k - m + 1)))
    requires Mul(k as real, Mul(W(a, m - 1), W(b, k - m + 1)))
             == Mul((m - 1) as real - 1.0 - a, Mul(W(a, m - 2), W(b, k - m + 1)))
                + Mul(k as real - (m - 1) as real - 1.0 - b, Mul(W(a, m - 1), W(b, k - m)))
    ensures Mul(k as real, Product(a, b, k, m))
            == Mul(k as real - 1.0 - (a + b), Product(a, b, k - 1, m - 1))
               + Mul(k as real - m as real - b, Mul(W(a, m - 1), W(b, k - m)))
  {
    hide W, Mul;
    Telescope(k as real, Product(a, b, k, m - 1), Mul(W(a, m - 1), W(b, k - m + 1)), Product(a, b, k - 1, m - 2),
            Mul(W(a, m - 2), W(b, k - m + 1)), k as real - (m - 1) as real - b, (m - 1) as real - 1.0 - a,
            k as real - m as real - b, Mul(W(a, m - 1), W(b, k - m)), k as real - 1.0 - (a + b));
  }

  /** The product series obeys the recurrence of order a + b. */
  lemma {:induction false} ProductRecurrence(a: real, b: real, k: nat)
    requires k > 0
    ensures Mul(k as real, Product(a, b, k, k + 1)) == Mul(k as real - 1.0 - (a + b), Product(a, b, k - 1, k))
  {
    hide W;
    PartialProduct(a, b, k, k);
    Recurrence(a, k);
    WZero(b);
    LastTerm(k as real, a, b, W(a, k), W(a, k - 1), Product(a, b, k, k), Product(a, b, k - 1, k - 1));
    assert Mul(W(a, k), W(b, 0)) == W(a, k);
    assert Mul(W(a, k - 1), W(b, 0)) == W(a, k - 1);
  }

  lemma LastTerm(k: real, a: real, b: real, ak: real, ap: real, s: real, p: real)
    requires Mul(k, s) == Mul(k - 1.0 - (a + b), p) + Mul(-b, ap) && Mul(k, ak) == Mul(k - 1.0 - a, ap)
    ensures Mul(k, s + ak) == Mul(k - 1.0 - (a + b), p + ap)
  {
    assert k * (s + ak) == k * s + k * ak;
    assert (k - 1.0 - (a + b)) * (p + ap) == (k - 1.0 - (a + b)) * p + (k - 1.0 - a) * ap + (-b) * ap;
  }

  lemma SameQuotient(k: real, x: real, y: real)
    requires k > 0.0 && Mul(k, x) == Mul(k, y)
    ensures x == y
  {
    CancelLe(x, y, k);
    CancelLe(y, x, k);
  }

  lemma EmptyOrder(a: real, b: real)
    ensures Product(a, b, 0, 1) == W(a + b, 0)
  {
    assert Product(a, b, 0, 1) == Product(a, b, 0, 0) + Mul(W(a, 0), W(b, 0));
  }

  /** Orders add: convolving the weights of orders a and b gives the weights of order a + b. */
  lemma {:induction false} OrdersAdd(a: real, b: real, k: nat)
    ensures Product(a, b, k, k + 1) == W(a + b, k)
  {
    hide *;
    if k == 0 {
      EmptyOrder(a, b);
    } else {
      OrdersAdd(a, b, k - 1);
      ProductRecurrence(a, b, k);
      Recurrence(a + b, k);
      SameQuotient(k as real, Product(a, b, k, k + 1), W(a + b, k));
    }
  }

  /** Differencing of order d followed by order -d is the identity. */
  lemma OppositeOrdersCancel(d: real, k: nat)
    ensures Product(d, -d, k, k + 1) == if k == 0 then 1.0 else 0.0
  {
    OrdersAdd(d, -d, k);
    OrderZero(k);
  }

  lemma {:induction false} OrderZero(k: nat)
    ensures W(0.0, k) == if k == 0 then 1.0 else 0.0
  {
    if k > 1 { OrderZero(k - 1); }
  }

  lemma {:induction false} OrderMinusOne(k: nat)
    ensures W(-1.0, k) == 1.0
  {
    if k > 0 {
      OrderMinusOne(k - 1);
      QuotientTimes(k as real, k as real);
    }
  }

  function WeightSum(d: real, n: nat): real {
    if n == 0 then W(d, 0) else WeightSum(d, n - 1) + W(d, n)
  }

  lemma {:induction false} ProductWithOnes(d: real, k: nat, m: nat)
    requires m <= k
    ensures Product(d, -1.0, k, m + 1) == WeightSum(d, m)
  {
    hide W;
    OrderMinusOne(k - m);
    assert Mul(W(d, m), W(-1.0, k - m)) == W(d, m);
    if m > 0 { ProductWithOnes(d, k, m - 1); }
  }

  /** The weights up to n sum to one weight of the next lower order. */
  lemma {:induction false} PartialSum(d: real, n: nat)
    ensures WeightSum(d, n) == W(d - 1.0, n)
  {
    ProductWithOnes(d, n, n);
    OrdersAdd(d, -1.0, n);
  }

  lemma Shrinks(v: real, num: real, den: real, next: real)
    requires den > 0.0 && num > 0.0 && Mul(den, next) == Mul(num, v)
    ensures v > 0.0 ==> next > 0.0 && (num < den ==> next < v)
    ensures v < 0.0 ==> next < 0.0
  {
    if v > 0.0 {
      ProductPositive(v, num);
      ProductSign(next, den);
      if num < den {
        ProductPositive(v, den - num);
        ProductSign(v - next, den);
      }
    }
    if v < 0.0 {
      ProductPositive(-v, num);
      ProductSign(-next, den);
    }
  }

  lemma {:induction false} NegativeOrder(e: real, k: nat)
    requires -1.0 < e < 0.0
    ensures W(e, k) > 0.0 && (k > 0 ==> W(e, k) < W(e, k - 1))
  {
    hide *;
    WZero(e);
    if k > 0 {
      NegativeOrder(e, k - 1);
      Recurrence(e, k);
      Shrinks(W(e, k - 1), k as real - 1.0 - e, k as real, W(e, k));
    }
  }

  lemma WOne(d: real)
    ensures W(d, 1) == -d
  {
    assert W(d, 0) == 1.0;
  }

  /** For 0 < d < 1 every weight after the first is negative. */
  lemma {:induction false} TailIsNegative(d: real, k: nat)
    requires 0.0 < d < 1.0 && k >= 1
    ensures W(d, k) < 0.0
  {
    hide *;
    WOne(d);
    if k > 1 {
      TailIsNegative(d, k - 1);
      Recurrence(d, k);
      Shrinks(W(d, k - 1), k as real - 1.0 - d, k as real, W(d, k));
    }
  }

  /** For 0 < d < 1 the partial sums stay positive and strictly decrease: a longer window never
      forgets the level completely, and always forgets more of it. */
  lemma {:induction false} PartialSumsStayPositive(d: real, n: nat)
    requires 0.0 < d < 1.0
    ensures WeightSum(d, n) > 0.0 && (n > 0 ==> WeightSum(d, n) < WeightSum(d, n - 1))
  {
    PartialSum(d, n);
    NegativeOrder(d - 1.0, n);
    if n > 0 { PartialSum(d, n - 1); }
  }

  // ---------------------------------------------------------------- the fixed-width filter

  /** w_0 x_t + ... + w_{m-1} x_{t-m+1}. */
  function Dot(w: seq<real>, x: seq<real>, t: nat, m: nat): real
    requires m <= |w| && m <= t + 1 && t < |x|
  {
    if m == 0 then 0.0 else Dot(w, x, t, m - 1) + Mul(w[m - 1], x[t - m + 1])
  }

  /** Value `t` of the full convolution of `x` and `w`: every weight that meets a value. */
  function Convolved(w: seq<real>, x: seq<real>, t: nat): real
    requires t < |x|
  {
    Dot(w, x, t, if |w| <= t + 1 then |w| else t + 1)
  }

  /** Length of the slice `[: window - 1]` of `n` values; a negative stop counts from the end. */
  function Masked(n: nat, window: nat): nat {
    if window == 0 then (if n == 0 then 0 else n - 1) else if window - 1 <= n then window - 1 else n
  }

  /** `None` is the convolution's refusal of an empty series; inside, `None` is a masked warm-up value. */
  function Fracdiff(x: seq<real>, d: real, window: nat): Option<seq<Option<real>>> {
    if x == [] then None
    else Some(seq(|x|, t requires 0 <= t < |x| =>
                    if t < Masked(|x|, window) then None else Some(Convolved(Weights(d, window), x, t))))
  }

  lemma {:induction false} DotIsLocal(w: seq<real>, x: seq<real>, a: nat, t: nat, m: nat, y: seq<real>)
    requires m <= |w| && a + m <= t + 1 && a <= t < |x| && y == x[a..t + 1]
    ensures Dot(w, x, t, m) == Dot(w, y, t - a, m)
  {
    if m > 0 { DotIsLocal(w, x, a, t, m - 1, y); }
  }

  /** Past the warm-up a value is the backward dot product of the weights with exactly the last
      `window` inputs; before it there is none. */
  lemma FilterSeesItsWindow(x: seq<real>, d: real, window: nat, t: nat)
    requires window >= 1 && t < |x|
    ensures Fracdiff(x, d, window).Some? && |Fracdiff(x, d, window).value| == |x|
    ensures Fracdiff(x, d, window).value[t]
            == if t + 1 < window then None
               else Some(Dot(Weights(d, window), x[t + 1 - window..t + 1], window - 1, window))
  {
    if t + 1 >= window {
      DotIsLocal(Weights(d, window), x, t + 1 - window, t, window, x[t + 1 - window..t + 1]);
    }
  }

  // ---------------------------------------------------------------- whole-history filters

  /** The filter with a window as long as the history, at time `t`: its first `m` terms. */
  function Terms(d: real, x: seq<real>, t: nat, m: nat): real
    requires m <= t + 1 && t < |x|
  {
    if m == 0 then 0.0 else Terms(d, x, t, m - 1) + Mul(W(d, m - 1), x[t - m + 1])
  }

  function Whole(d: real, x: seq<real>): (y: seq<real>)
    ensures |y| == |x|
  {
    seq(|x|, t requires 0 <= t < |x| => Terms(d, x, t, t + 1))
  }

  lemma {:induction false} TermsAreConvolved(d: real, x: seq<real>, t: nat, m: nat, window: nat)
    requires m <= t + 1 <= |x| && m <= window
    ensures Terms(d, x, t, m) == Dot(Weights(d, window), x, t, m)
  {
    hide NextWeight;
    if m > 0 { TermsAreConvolved(d, x, t, m - 1, window); }
  }

  /** A window at least as long as the history leaves the warm-up mask as the only difference from
      the whole-history filter. */
  lemma LongWindowIsWhole(x: seq<real>, d: real, window: nat, t: nat)
    requires t < |x| <= window
    ensures Convolved(Weights(d, window), x, t) == Whole(d, x)[t]
  {
    TermsAreConvolved(d, x, t, t + 1, window);
  }

  lemma {:induction false} TermsShift(d: real, x: seq<real>, t: nat, m: nat)
    requires m <= t < |x| && 1 <= t
    ensures Terms(d, x, t, m) == Terms(d, x[1..], t - 1, m)
  {
    hide NextWeight;
    if m > 0 { TermsShift(d, x, t, m - 1); }
  }

  /** Splitting off the oldest value. */
  lemma WholeSplits(d: real, x: seq<real>, t: nat)
    requires 1 <= t < |x|
    ensures Whole(d, x)[t] == Whole(d, x[1..])[t - 1] + Mul(W(d, t), x[0])
  {
    hide W;
    TermsShift(d, x, t, t);
  }

  lemma AddTerm(acc: real, p: real, wb: real, wa: real, y: real, x0: real)
    ensures (acc + Mul(x0, p)) + Mul(wb, y + Mul(wa, x0)) == (acc + Mul(wb, y)) + Mul(x0, p + Mul(wb, wa))
  {
    assert wb * (y + wa * x0) == wb * y + x0 * (wb * wa);
    assert x0 * (p + wb * wa) == x0 * p + x0 * (wb * wa);
  }

  /** Filtering a filtered series: the oldest value contributes through the product series. */
  lemma {:induction false} Composed(b: real, a: real, x: seq<real>, t: nat, m: nat)
    requires m <= t && 1 <= t < |x|
    ensures Terms(b, Whole(a, x), t, m) == Terms(b, Whole(a, x[1..]), t - 1, m) + Mul(x[0], Product(b, a, t, m))
  {
    hide W, Mul;
    if m == 0 {
      MulZero(x[0]);
    } else {
      Composed(b, a, x, t, m - 1);
      WholeSplits(a, x, t - m + 1);
      AddTerm(Terms(b, Whole(a, x[1..]), t - 1, m - 1), Product(b, a, t, m - 1), W(b, m - 1), W(a, t - m + 1),
              Whole(a, x[1..])[t - m], x[0]);
    }
  }

  lemma MulZero(v: real)
    ensures Mul(v, 0.0) == 0.0
  {}

  lemma FirstValue(d: real, x: seq<real>)
    requires x != []
    ensures Whole(d, x)[0] == x[0]
  {
    hide NextWeight;
    assert Terms(d, x, 0, 1) == Terms(d, x, 0, 0) + Mul(W(d, 0), x[0]);
  }

  lemma LastFactor(p: real, wb: real, x0: real)
    ensures Mul(x0, p) + Mul(wb, x0) == Mul(x0, p + Mul(wb, 1.0))
  {}

  lemma MulSwaps(a: real, b: real)
    ensures Mul(a, b) == Mul(b, a)
  {}

  /** Whole-history filters compose by adding orders. */
  lemma {:induction false} FiltersCompose(b: real, a: real, x: seq<real>, t: nat)
    requires t < |x|
    ensures Whole(b, Whole(a, x))[t] == Whole(b + a, x)[t]
    decreases t
  {
    hide W, Mul;
    FirstValue(a, x);
    if t == 0 {
      FirstValue(b, Whole(a, x));
      FirstValue(b + a, x);
    } else {
      Composed(b, a, x, t, t);
      FiltersCompose(b, a, x[1..], t - 1);
      WholeSplits(b + a, x, t);
      OrdersAdd(b, a, t);
      WZero(a);
      LastFactor(Product(b, a, t, t), W(b, t), x[0]);
      MulSwaps(x[0], W(b + a, t));
    }
  }

  /** Differencing of order -d undoes differencing of order d, for every series. */
  lemma DifferencingIsInvertible(d: real, x: seq<real>)
    ensures Whole(-d, Whole(d, x)) == x
  {
    hide W;
    forall t | 0 <= t < |x| ensures Whole(-d, Whole(d, x))[t] == x[t] {
      FiltersCompose(-d, d, x, t);
      OnlyNewest(x, t, t + 1);
    }
  }

  lemma {:induction false} OnlyNewest(x: seq<real>, t: nat, m: nat)
    requires 1 <= m <= t + 1 <= |x|
    ensures Terms(0.0, x, t, m) == x[t]
  {
    hide W;
    OrderZero(m - 1);
    if m == 1 {
      assert Terms(0.0, x, t, 1) == Terms(0.0, x, t, 0) + Mul(W(0.0, 0), x[t]);
    } else {
      OnlyNewest(x, t, m - 1);
    }
  }
}
