/** Exponential smoothing as the features use it, and what recomputing it over a bounded buffer costs. */
module Smoothing {
  import opened Types
  import opened Arith

  /** Latest exponentially weighted mean of `s`, seeded with its first value. */
  function Ema(alpha: real, s: seq<real>): real
    requires s != []
  {
    if |s| == 1 then s[0] else Mul(1.0 - alpha, Ema(alpha, s[..|s| - 1])) + Mul(alpha, s[|s| - 1])
  }

  /** Wilder's mean of period `period`: undefined until `period` values have been seen. */
  function Rma(period: nat, s: seq<real>): Option<real>
    requires period >= 1
  {
    if |s| < period then None else Some(Ema(1.0 / period as real, s))
  }

  function SpanAlpha(span: nat): real { 2.0 / (span as real + 1.0) }

  lemma Contract(beta: real, p: real, seed: real, full: real, a: real, b: real, x: real)
    requires a - b == Mul(p, seed - full)
    ensures (Mul(beta, a) + x) - (Mul(beta, b) + x) == Mul(Mul(beta, p), seed - full)
  {
    assert beta * a - beta * b == beta * (a - b);
    assert beta * (p * (seed - full)) == beta * p * (seed - full);
  }

  /** Two smoothings whose inputs agree after a cut differ by exactly the difference at the cut,
      shrunk by (1 - alpha) once for every value after it. */
  lemma {:induction false} SeedFades(alpha: real, buffer: seq<real>, full: seq<real>, cut: nat)
    requires cut < |full| && |buffer| == |full| - cut && buffer[1..] == full[cut + 1..]
    ensures Ema(alpha, buffer) - Ema(alpha, full)
            == Mul(Power(1.0 - alpha, |buffer| - 1), buffer[0] - Ema(alpha, full[..cut + 1]))
  {
    hide Mul;
    if |buffer| == 1 {
      assert full[..cut + 1] == full;
      One(buffer[0] - Ema(alpha, full));
    } else {
      var b, f := buffer[..|buffer| - 1], full[..|full| - 1];
      assert b[1..] == f[cut + 1..] by {
        assert b[1..] == buffer[1..][..|buffer| - 2];
      }
      SeedFades(alpha, b, f, cut);
      assert f[..cut + 1] == full[..cut + 1];
      assert buffer[|buffer| - 1] == buffer[1..][|buffer| - 2] == full[|full| - 1];
      Contract(1.0 - alpha, Power(1.0 - alpha, |b| - 1), buffer[0], Ema(alpha, full[..cut + 1]),
               Ema(alpha, b), Ema(alpha, f), Mul(alpha, buffer[|buffer| - 1]));
    }
  }

  lemma One(x: real)
    ensures Mul(1.0, x) == x
  {}

  predicate Within(s: seq<real>, lo: real, hi: real) {
    forall k :: 0 <= k < |s| ==> lo <= s[k] <= hi
  }

  lemma MulMonotone(c: real, a: real, b: real)
    requires c >= 0.0 && a <= b
    ensures Mul(c, a) <= Mul(c, b)
  {
    ScaleLe(a, b, c);
  }

  lemma Parts(alpha: real, v: real)
    ensures Mul(1.0 - alpha, v) + Mul(alpha, v) == v
  {}

  lemma Blend(alpha: real, a: real, x: real, lo: real, hi: real)
    requires 0.0 <= alpha <= 1.0 && lo <= a <= hi && lo <= x <= hi
    ensures lo <= Mul(1.0 - alpha, a) + Mul(alpha, x) <= hi
  {
    hide Mul;
    MulMonotone(1.0 - alpha, lo, a);
    MulMonotone(1.0 - alpha, a, hi);
    MulMonotone(alpha, lo, x);
    MulMonotone(alpha, x, hi);
    Parts(alpha, lo);
    Parts(alpha, hi);
  }

  /** A smoothing never leaves the range of its inputs. */
  lemma {:induction false} EmaStaysInRange(alpha: real, s: seq<real>, lo: real, hi: real)
    requires s != [] && 0.0 <= alpha <= 1.0 && Within(s, lo, hi)
    ensures lo <= Ema(alpha, s) <= hi
  {
    hide Mul;
    if |s| > 1 {
      EmaStaysInRange(alpha, s[..|s| - 1], lo, hi);
      Blend(alpha, Ema(alpha, s[..|s| - 1]), s[|s| - 1], lo, hi);
    }
  }

  lemma Units(x: real)
    ensures Mul(x, 0.0) == 0.0 && Mul(x, 1.0) == x
  {}

  lemma {:induction false} PowRange(x: real, m: nat)
    requires 0.0 <= x <= 1.0
    ensures 0.0 <= Power(x, m) <= 1.0
  {
    hide Mul;
    if m > 0 {
      PowRange(x, m - 1);
      MulMonotone(x, 0.0, Power(x, m - 1));
      MulMonotone(x, Power(x, m - 1), 1.0);
      Units(x);
    }
  }

  lemma ScaledGap(p: real, gap: real, range: real)
    requires p >= 0.0 && -range <= gap <= range
    ensures Abs(Mul(p, gap)) <= Mul(p, range)
  {
    ScaleLe(gap, range, p);
    ScaleLe(-range, gap, p);
  }

  lemma WithinPrefix(s: seq<real>, lo: real, hi: real, n: nat)
    requires Within(s, lo, hi) && n <= |s|
    ensures Within(s[..n], lo, hi)
  {}

  /** Hence a buffer of m + 1 values is off by at most (1 - alpha)^m times the range of the inputs. */
  lemma BufferError(alpha: real, buffer: seq<real>, full: seq<real>, cut: nat, lo: real, hi: real)
    requires cut < |full| && |buffer| == |full| - cut && buffer[1..] == full[cut + 1..]
    requires 0.0 <= alpha <= 1.0 && Within(full, lo, hi) && lo <= buffer[0] <= hi
    ensures Abs(Ema(alpha, buffer) - Ema(alpha, full)) <= Mul(Power(1.0 - alpha, |buffer| - 1), hi - lo)
  {
    hide Ema, Mul, Power, Within, Abs;
    SeedFades(alpha, buffer, full, cut);
    WithinPrefix(full, lo, hi, cut + 1);
    EmaStaysInRange(alpha, full[..cut + 1], lo, hi);
    PowRange(1.0 - alpha, |buffer| - 1);
    ScaledGap(Power(1.0 - alpha, |buffer| - 1), buffer[0] - Ema(alpha, full[..cut + 1]), hi - lo);
  }

  /** A Wilder mean is defined on the buffer exactly when its period fits, and is then off by no more. */
  lemma WilderBufferError(period: nat, buffer: seq<real>, full: seq<real>, cut: nat, lo: real, hi: real)
    requires period >= 1 && cut < |full| && |buffer| == |full| - cut && buffer[1..] == full[cut + 1..]
    requires Within(full, lo, hi) && lo <= buffer[0] <= hi
    ensures Rma(period, buffer).Some? <==> |buffer| >= period
    ensures |buffer| >= period ==>
              && Rma(period, full).Some?
              && Abs(Rma(period, buffer).value - Rma(period, full).value)
                 <= Mul(Power(1.0 - 1.0 / period as real, |buffer| - 1), hi - lo)
  {
    hide Ema, Power, Within;
    QuotientTimes(1.0, period as real);
    Reciprocal(period as real, 1.0 / period as real);
    BufferError(1.0 / period as real, buffer, full, cut, lo, hi);
  }

  lemma Reciprocal(n: real, r: real)
    requires n >= 1.0 && r * n == 1.0
    ensures 0.0 <= r <= 1.0
  {
    ProductSign(r, n);
    if r > 1.0 { ProductPositive(r - 1.0, n); }
  }
}
