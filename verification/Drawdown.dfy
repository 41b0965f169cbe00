/** Maximum drawdown of an equity curve: the single-pass scan against what it measures. */
module Drawdown {
  import opened Types
  import opened Arith

  function Loss(peak: real, e: real): real
    requires peak > 0.0
  {
    (peak - e) / peak
  }

  function Peak(curve: seq<real>): real
    requires curve != []
  {
    if |curve| == 1 then curve[0] else Max(Peak(curve[..|curve| - 1]), curve[|curve| - 1])
  }

  /** Largest drawdown from a positive running peak. */
  function MaxDrawdown(curve: seq<real>): real {
    if curve == [] then 0.0
    else
      var before := MaxDrawdown(curve[..|curve| - 1]);
      if Peak(curve) > 0.0 then Max(before, Loss(Peak(curve), curve[|curve| - 1])) else before
  }

  /** The scan; no peak yet stands for minus infinity. */
  method ScanDrawdown(equity: seq<real>) returns (maxDd: real)
    ensures maxDd == MaxDrawdown(equity)
  {
    var peak: Option<real> := None;
    maxDd := 0.0;
    var i := 0;
    while i < |equity|
      invariant 0 <= i <= |equity|
      invariant i == 0 <==> peak.None?
      invariant i > 0 ==> peak == Some(Peak(equity[..i]))
      invariant maxDd == MaxDrawdown(equity[..i])
    {
      var e := equity[i];
      assert equity[..i + 1][..i] == equity[..i];
      peak := Some(if peak.None? then e else Max(peak.value, e));
      if peak.value > 0.0 {
        maxDd := Max(maxDd, Loss(peak.value, e));
      }
      i := i + 1;
    }
    assert equity[..i] == equity;
  }

  lemma {:induction false} PeakIsGreatest(curve: seq<real>)
    requires curve != []
    ensures forall k :: 0 <= k < |curve| ==> curve[k] <= Peak(curve)
    ensures exists k :: 0 <= k < |curve| && curve[k] == Peak(curve)
  {
    var n := |curve| - 1;
    if n > 0 {
      PeakIsGreatest(curve[..n]);
      var k :| 0 <= k < n && curve[..n][k] == Peak(curve[..n]);
      assert curve[k] == Peak(curve[..n]);
      assert Peak(curve) == Peak(curve[..n]) || Peak(curve) == curve[n];
      forall j | 0 <= j < |curve| ensures curve[j] <= Peak(curve) {
        if j < n { assert curve[..n][j] <= Peak(curve[..n]); }
      }
    } else {
      assert curve[0] == Peak(curve);
    }
  }

  /** A fall from a higher peak loses a larger share, as long as what is left is not negative. */
  lemma HigherPeakLosesMore(low: real, peak: real, e: real)
    requires 0.0 < low <= peak && e >= 0.0
    ensures Loss(low, e) <= Loss(peak, e)
  {
    var a, b := Loss(low, e), Loss(peak, e);
    QuotientTimes(low - e, low);
    QuotientTimes(peak - e, peak);
    ShareLeft(low, peak, e, a, b);
  }

  lemma ShareLeft(low: real, peak: real, e: real, a: real, b: real)
    requires 0.0 < low <= peak && e >= 0.0 && a * low == low - e && b * peak == peak - e
    ensures a <= b
  {
    Distribute(1.0, a, low);
    Distribute(1.0, b, peak);
    ProductSign(1.0 - b, peak);
    ScaleLe(low, peak, 1.0 - b);
    CancelLe(1.0 - b, 1.0 - a, low);
  }

  /** Of two peaks the higher one shows the larger loss exactly when what is left is not negative. */
  lemma LossesCompare(low: real, peak: real, e: real)
    requires 0.0 < low <= peak
    ensures Loss(low, e) <= Loss(peak, e) <==> e >= 0.0 || low == peak
  {
    if e >= 0.0 {
      HigherPeakLosesMore(low, peak, e);
    } else if low < peak {
      LossesBelowZero(low, peak, e);
    }
  }

  lemma LossesBelowZero(a: real, b: real, c: real)
    requires 0.0 < a < b && c < 0.0
    ensures 1.0 < Loss(b, c) < Loss(a, c)
  {
    QuotientTimes(a - c, a);
    QuotientTimes(b - c, b);
    DeepLoss(a, b, c, Loss(a, c) - 1.0, Loss(b, c) - 1.0);
  }

  lemma DeepLoss(a: real, b: real, c: real, u: real, v: real)
    requires 0.0 < a < b && c < 0.0 && (u + 1.0) * a == a - c && (v + 1.0) * b == b - c
    ensures 0.0 < v < u
  {
    assert (u + 1.0) * a == u * a + a && (v + 1.0) * b == v * b + b;
    assert u * a > 0.0 && v * b == u * a;
    ProductSign(v, b);
    ProductPositive(b - a, v);
    assert (b - a) * v == v * b - v * a;
    assert (u - v) * a == u * a - v * a;
    ProductSign(u - v, a);
  }

  lemma LossAtPeak(p: real)
    requires p > 0.0
    ensures Loss(p, p) == 0.0
  {}

  /** At sample `j`: the loss from the running peak bounds every pair that ends there. */
  ghost predicate PeakBoundsPairsAt(curve: seq<real>, j: nat)
    requires j < |curve|
  {
    Peak(curve[..j + 1]) > 0.0 ==>
      forall i :: 0 <= i <= j && curve[i] > 0.0 ==> Loss(curve[i], curve[j]) <= Loss(Peak(curve[..j + 1]), curve[j])
  }

  /** Sample `j` is not negative, or all positive samples up to it are one and the same value. */
  predicate OnePeakAt(curve: seq<real>, j: nat)
    requires j < |curve|
  {
    curve[j] < 0.0 ==>
      forall h, i :: 0 <= h <= j && 0 <= i <= j && curve[h] > 0.0 && curve[i] > 0.0 ==> curve[h] == curve[i]
  }

  /** No negative sample follows two different positive ones. */
  predicate OnePeakBelowZero(curve: seq<real>) {
    forall j :: 0 <= j < |curve| ==> OnePeakAt(curve, j)
  }

  /** The running peak is the worst starting point of a sample exactly under that condition. */
  lemma PeakBoundsExactly(curve: seq<real>, j: nat)
    requires j < |curve|
    ensures PeakBoundsPairsAt(curve, j) <==> OnePeakAt(curve, j)
  {
    hide Loss, Peak;
    var seen, p := curve[..j + 1], Peak(curve[..j + 1]);
    PeakIsGreatest(seen);
    var top :| 0 <= top < |seen| && seen[top] == p;
    assert curve[top] == p;
    forall i | 0 <= i <= j && curve[i] > 0.0
      ensures curve[i] <= p
      ensures Loss(curve[i], curve[j]) <= Loss(p, curve[j]) <==> curve[j] >= 0.0 || curve[i] == p
    {
      assert seen[i] <= p;
      LossesCompare(curve[i], p, curve[j]);
    }
  }

  /** No pair of samples, the earlier one positive, shows a larger loss. */
  ghost predicate BoundsEveryPair(curve: seq<real>, d: real) {
    forall i, j :: 0 <= i <= j < |curve| && curve[i] > 0.0 ==> Loss(curve[i], curve[j]) <= d
  }

  /** Some pair shows exactly this loss, or there is no positive sample and the loss is zero. */
  ghost predicate AttainedByPair(curve: seq<real>, d: real) {
    || (d == 0.0 && forall k :: 0 <= k < |curve| ==> curve[k] <= 0.0)
    || exists i, j :: 0 <= i <= j < |curve| && curve[i] > 0.0 && Loss(curve[i], curve[j]) == d
  }

  lemma {:induction false} DrawdownBoundsPairs(curve: seq<real>)
    requires OnePeakBelowZero(curve)
    ensures BoundsEveryPair(curve, MaxDrawdown(curve))
  {
    hide Loss;
    if curve != [] {
      var n := |curve| - 1;
      forall j | 0 <= j < n ensures OnePeakAt(curve[..n], j) { assert OnePeakAt(curve, j); }
      DrawdownBoundsPairs(curve[..n]);
      PeakIsGreatest(curve);
      PeakBoundsExactly(curve, n);
      assert curve[..n + 1] == curve && OnePeakAt(curve, n);
      forall i, j | 0 <= i <= j < |curve| && curve[i] > 0.0
        ensures Loss(curve[i], curve[j]) <= MaxDrawdown(curve)
      {
        if j < n { assert Loss(curve[..n][i], curve[..n][j]) <= MaxDrawdown(curve[..n]); }
      }
    }
  }

  /** The result is a loss between two actual samples, on every curve. */
  lemma {:induction false} DrawdownIsAttained(curve: seq<real>)
    ensures AttainedByPair(curve, MaxDrawdown(curve))
  {
    hide Loss;
    if curve != [] {
      var n := |curve| - 1;
      DrawdownIsAttained(curve[..n]);
      PeakIsGreatest(curve);
      var before := MaxDrawdown(curve[..n]);
      if Peak(curve) > 0.0 {
        var k :| 0 <= k < |curve| && curve[k] == Peak(curve);
        AttainedHere(curve, k, before);
      }
    }
  }

  lemma AttainedHere(curve: seq<real>, k: nat, before: real)
    requires k < |curve| && curve[k] == Peak(curve) > 0.0 && AttainedByPair(curve[..|curve| - 1], before)
    requires forall j :: 0 <= j < |curve| ==> curve[j] <= Peak(curve)
    ensures AttainedByPair(curve, Max(before, Loss(Peak(curve), curve[|curve| - 1])))
  {
    hide Loss, Peak;
    var n := |curve| - 1;
    var d := Max(before, Loss(Peak(curve), curve[n]));
    assert Loss(curve[k], curve[n]) == Loss(Peak(curve), curve[n]);
    if d == before {
      if i, j :| 0 <= i <= j < n && curve[..n][i] > 0.0 && Loss(curve[..n][i], curve[..n][j]) == before {
        assert Loss(curve[i], curve[j]) == before;
      } else {
        LossAtPeak(Peak(curve));
        assert Loss(curve[k], curve[k]) == 0.0;
      }
    }
  }

  /** Unless a negative sample follows two different positive ones, on non-negative curves in
      particular, the scan is the maximum of (e_i - e_j) / e_i over i <= j. */
  lemma DrawdownIsPairwise(curve: seq<real>)
    requires OnePeakBelowZero(curve)
    ensures BoundsEveryPair(curve, MaxDrawdown(curve)) && AttainedByPair(curve, MaxDrawdown(curve))
  {
    DrawdownBoundsPairs(curve);
    DrawdownIsAttained(curve);
  }

  /** The condition is exact sample by sample. */
  lemma PeaksSufficeExactly(curve: seq<real>)
    ensures (forall j :: 0 <= j < |curve| ==> PeakBoundsPairsAt(curve, j)) <==> OnePeakBelowZero(curve)
  {
    hide PeakBoundsPairsAt, OnePeakAt;
    forall j | 0 <= j < |curve| ensures PeakBoundsPairsAt(curve, j) <==> OnePeakAt(curve, j) {
      PeakBoundsExactly(curve, j);
    }
  }

  /** After two different positive samples a negative one can lose a larger share than the result says. */
  lemma NegativeEquityBreaksPairs(a: real, b: real, c: real)
    requires 0.0 < a < b && c < 0.0
    ensures MaxDrawdown([a, b, c]) == Loss(b, c) < Loss(a, c)
  {
    hide Loss;
    var two, three := [a, b], [a, b, c];
    assert [a][..0] == [] && two[..1] == [a] && three[..2] == two;
    LossAtPeak(a);
    LossAtPeak(b);
    assert Peak([a]) == a && Peak(two) == b && Peak(three) == b;
    assert MaxDrawdown([a]) == 0.0;
    assert MaxDrawdown(two) == 0.0;
    LossesBelowZero(a, b, c);
  }
}
