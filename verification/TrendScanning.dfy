/** Trend-scanning labels: the sign of the most significant forward linear trend. Significance is
    compared through squared t-statistics, which order windows exactly as |t| does. */
module TrendScanning {
  import opened Types
  import opened Arith

  // ---------------------------------------------------------------- regression on one window

  function Sq(x: real): real { Mul(x, x) }

  /** Sums over the first `m` points. */
  function SumTo(w: seq<real>, m: nat): real
    requires m <= |w|
  {
    if m == 0 then 0.0 else SumTo(w, m - 1) + w[m - 1]
  }

  function SquareSum(d: seq<real>, m: nat): real
    requires m <= |d|
  {
    if m == 0 then 0.0 else SquareSum(d, m - 1) + Sq(d[m - 1])
  }

  function CrossSum(x: seq<real>, d: seq<real>, m: nat): real
    requires m <= |d| == |x|
  {
    if m == 0 then 0.0 else CrossSum(x, d, m - 1) + Mul(x[m - 1], d[m - 1])
  }

  /** Squared distances of the points (x, d) from the line b x. */
  function ErrorSum(x: seq<real>, d: seq<real>, b: real, m: nat): real
    requires m <= |d| == |x|
  {
    if m == 0 then 0.0 else ErrorSum(x, d, b, m - 1) + Sq(d[m - 1] - b * x[m - 1])
  }

  function Centred(len: nat, k: nat): real { k as real - (len as real - 1.0) / 2.0 }

  /** Positions of a window of length `len`, centred. */
  function Xs(len: nat): seq<real> { seq(len, k requires 0 <= k < len => Centred(len, k)) }

  function Above(w: seq<real>, a: real): seq<real> { seq(|w|, k requires 0 <= k < |w| => w[k] - a) }

  function Sxx(len: nat): real { SquareSum(Xs(len), len) }

  function MeanOf(w: seq<real>): real
    requires w != []
  {
    SumTo(w, |w|) / (|w| as real)
  }

  /** Squared error a line of slope `b` through height `a` at the centre leaves on the window. */
  function LineError(w: seq<real>, a: real, b: real): real { ErrorSum(Xs(|w|), Above(w, a), b, |w|) }

  lemma MulPositive(a: real, b: real)
    requires a > 0.0 && b > 0.0
    ensures Mul(a, b) > 0.0
  {}

  lemma MulOpposites(a: real, b: real)
    ensures Mul(-a, -b) == Mul(a, b)
  {}

  lemma SquareSign(x: real)
    ensures Sq(x) >= 0.0 && (x != 0.0 ==> Sq(x) > 0.0)
  {
    if x > 0.0 {
      MulPositive(x, x);
    } else if x < 0.0 {
      MulPositive(-x, -x);
      MulOpposites(x, x);
    } else {
      assert x == 0.0;
    }
  }

  lemma {:induction false} SquareSumPositive(x: seq<real>, m: nat)
    requires 1 <= m <= |x| && x[0] != 0.0
    ensures SquareSum(x, m) > 0.0
  {
    SquareSign(x[m - 1]);
    if m > 1 { SquareSumPositive(x, m - 1); }
  }

  lemma SxxPositive(len: nat)
    requires len >= 2
    ensures Sxx(len) > 0.0
  {
    SquareSumPositive(Xs(len), len);
  }

  function Slope(w: seq<real>): real
    requires |w| >= 2
  {
    SxxPositive(|w|);
    CrossSum(Xs(|w|), w, |w|) / Sxx(|w|)
  }

  /** Squared t-statistic of a slope, from the total squared error `sst` about the mean; the error the
      line leaves is floored as the source floors it. */
  function Statistic(slope: real, sst: real, xx: real, len: nat): real {
    slope * slope * xx * (len as real - 2.0) / Max(sst - slope * slope * xx, EPS)
  }

  function WindowTsq(w: seq<real>): real
    requires |w| >= 3
  {
    Statistic(Slope(w), SquareSum(Above(w, MeanOf(w)), |w|), Sxx(|w|), |w|)
  }

  /** A squared error as a function of the slope `b`. */
  function Quadratic(base: real, b: real, xy: real, xx: real): real {
    base - 2.0 * b * xy + Sq(b) * xx
  }

  lemma AddPoint(f: real, c: real, s: real, b: real, u: real, x: real)
    ensures Quadratic(f, b, c, s) + Sq(u - b * x) == Quadratic(f + Sq(u), b, c + Mul(x, u), s + Sq(x))
  {
    var w := b * x;
    assert Sq(u - w) == u * u - 2.0 * (w * u) + w * w;
    assert w * u == b * (x * u);
    assert w * w == b * b * (x * x);
    assert 2.0 * b * (c + Mul(x, u)) == 2.0 * b * c + 2.0 * b * (x * u);
    assert Sq(b) * (s + Sq(x)) == Sq(b) * s + Sq(b) * Sq(x);
  }

  lemma {:induction false} ErrorIsQuadratic(x: seq<real>, d: seq<real>, b: real, m: nat)
    requires m <= |d| == |x|
    ensures ErrorSum(x, d, b, m) == Quadratic(SquareSum(d, m), b, CrossSum(x, d, m), SquareSum(x, m))
  {
    if m > 0 {
      ErrorIsQuadratic(x, d, b, m - 1);
      AddPoint(SquareSum(d, m - 1), CrossSum(x, d, m - 1), SquareSum(x, m - 1), b, d[m - 1], x[m - 1]);
    }
  }

  /** A parabola is lowest where its derivative vanishes. */
  lemma Parabola(base: real, xy: real, xx: real, at: real, b: real)
    requires xx > 0.0 && at * xx == xy
    ensures Quadratic(base, at, xy, xx) == base - at * at * xx <= Quadratic(base, b, xy, xx)
  {
    assert at * xy == at * at * xx;
    SquareSign(b - at);
    MulNonNegative(Sq(b - at), xx);
    assert Sq(b - at) == Sq(b) - 2.0 * (b * at) + at * at;
    assert Mul(Sq(b - at), xx) == Sq(b) * xx - 2.0 * (b * at) * xx + at * at * xx;
    assert b * at * xx == b * xy;
  }

  lemma MulNonNegative(a: real, b: real)
    requires a >= 0.0 && b >= 0.0
    ensures Mul(a, b) >= 0.0
  {}

  lemma CentredStep(m: real, n: real)
    ensures (m - 1.0) * (m - 1.0 - n) + 2.0 * (m - 1.0 - (n - 1.0) / 2.0) == m * (m - n)
  {}

  lemma {:induction false} CentredSumIs(len: nat, m: nat)
    requires m <= len
    ensures 2.0 * SumTo(Xs(len), m) == (m as real) * (m as real - len as real)
  {
    if m > 0 {
      CentredSumIs(len, m - 1);
      CentredStep(m as real, len as real);
    }
  }

  lemma CrossStep(cross: real, sum: real, x: real, v: real, a: real)
    ensures (cross - a * sum) + Mul(x, v - a) == (cross + Mul(x, v)) - a * (sum + x)
  {}

  lemma {:induction false} CrossAbove(x: seq<real>, w: seq<real>, a: real, m: nat)
    requires m <= |w| == |x|
    ensures CrossSum(x, Above(w, a), m) == CrossSum(x, w, m) - a * SumTo(x, m)
  {
    if m > 0 {
      CrossAbove(x, w, a, m - 1);
      CrossStep(CrossSum(x, w, m - 1), SumTo(x, m - 1), x[m - 1], w[m - 1], a);
    }
  }

  /** Centring makes the height drop out of the cross sum. */
  lemma CentredCross(w: seq<real>, a: real)
    ensures CrossSum(Xs(|w|), Above(w, a), |w|) == CrossSum(Xs(|w|), w, |w|)
  {
    CrossAbove(Xs(|w|), w, a, |w|);
    CentredSumIs(|w|, |w|);
    assert SumTo(Xs(|w|), |w|) == 0.0;
  }

  /** With the slope fixed at zero the mean is the best height. */
  lemma MeanIsBestHeight(w: seq<real>, mean: real, a: real)
    requires w != [] && mean * (|w| as real) == SumTo(w, |w|)
    ensures SquareSum(Above(w, mean), |w|) <= SquareSum(Above(w, a), |w|)
  {
    hide Quadratic;
    HeightError(w, mean);
    HeightError(w, a);
    Parabola(SquareSum(w, |w|), SumTo(w, |w|), |w| as real, mean, a);
  }

  lemma HeightError(w: seq<real>, a: real)
    ensures SquareSum(Above(w, a), |w|) == Quadratic(SquareSum(w, |w|), a, SumTo(w, |w|), |w| as real)
  {
    var ones := seq(|w|, _ => 1.0);
    OnesSums(w, ones, |w|);
    HeightAsSlope(w, ones, a, |w|);
    ErrorIsQuadratic(ones, w, a, |w|);
  }

  lemma {:induction false} OnesSums(w: seq<real>, ones: seq<real>, m: nat)
    requires m <= |w| == |ones| && forall k :: 0 <= k < |ones| ==> ones[k] == 1.0
    ensures CrossSum(ones, w, m) == SumTo(w, m) && SquareSum(ones, m) == m as real
  {
    if m > 0 { OnesSums(w, ones, m - 1); }
  }

  lemma {:induction false} HeightAsSlope(w: seq<real>, ones: seq<real>, a: real, m: nat)
    requires m <= |w| == |ones| && forall k :: 0 <= k < |ones| ==> ones[k] == 1.0
    ensures SquareSum(Above(w, a), m) == ErrorSum(ones, w, a, m)
  {
    if m > 0 {
      HeightAsSlope(w, ones, a, m - 1);
      assert a * ones[m - 1] == a;
    }
  }

  lemma ErrorOfLine(w: seq<real>, a: real, b: real)
    ensures LineError(w, a, b) == Quadratic(SquareSum(Above(w, a), |w|), b, CrossSum(Xs(|w|), w, |w|), Sxx(|w|))
  {
    ErrorIsQuadratic(Xs(|w|), Above(w, a), b, |w|);
    CentredCross(w, a);
  }

  lemma BestLine(w: seq<real>, mean: real, slope: real, a: real, b: real)
    requires w != [] && mean * (|w| as real) == SumTo(w, |w|)
    requires Sxx(|w|) > 0.0 && slope * Sxx(|w|) == CrossSum(Xs(|w|), w, |w|)
    ensures LineError(w, mean, slope) == SquareSum(Above(w, mean), |w|) - slope * slope * Sxx(|w|)
    ensures LineError(w, mean, slope) <= LineError(w, a, b)
  {
    hide Quadratic, LineError, Sxx, SquareSum, CrossSum, SumTo;
    ErrorOfLine(w, mean, slope);
    ErrorOfLine(w, a, b);
    MeanIsBestHeight(w, mean, a);
    Lower(SquareSum(Above(w, mean), |w|), SquareSum(Above(w, a), |w|), CrossSum(Xs(|w|), w, |w|), Sxx(|w|), slope, b);
  }

  lemma Lower(low: real, high: real, xy: real, xx: real, slope: real, b: real)
    requires xx > 0.0 && slope * xx == xy && low <= high
    ensures Quadratic(low, slope, xy, xx) == low - slope * slope * xx
    ensures Quadratic(low, slope, xy, xx) <= Quadratic(high, b, xy, xx)
  {
    Parabola(low, xy, xx, slope, b);
  }

  lemma SlopeTimes(w: seq<real>)
    requires |w| >= 2
    ensures Slope(w) * Sxx(|w|) == CrossSum(Xs(|w|), w, |w|)
  {
    SxxPositive(|w|);
    QuotientTimes(CrossSum(Xs(|w|), w, |w|), Sxx(|w|));
  }

  lemma MeanTimes(w: seq<real>)
    requires w != []
    ensures MeanOf(w) * (|w| as real) == SumTo(w, |w|)
  {
    QuotientTimes(SumTo(w, |w|), |w| as real);
  }

  /** The slope is the least-squares slope: no line at all has a smaller squared error, and the error
      it leaves is the one the t-statistic uses. */
  lemma {:induction false} SlopeIsLeastSquares(w: seq<real>, a: real, b: real)
    requires |w| >= 2
    ensures LineError(w, MeanOf(w), Slope(w)) == SquareSum(Above(w, MeanOf(w)), |w|) - Slope(w) * Slope(w) * Sxx(|w|)
    ensures LineError(w, MeanOf(w), Slope(w)) <= LineError(w, a, b)
  {
    hide *;
    SxxPositive(|w|);
    SlopeTimes(w);
    MeanTimes(w);
    BestLine(w, MeanOf(w), Slope(w), a, b);
  }

  function Tsq(y: seq<real>, i: nat, len: nat): real
    requires 3 <= len && i + len <= |y|
  {
    WindowTsq(y[i..i + len])
  }

  // ---------------------------------------------------------------- scanning the windows

  datatype Scan = Scan(tsq: real, slope: real, len: nat)

  /** The window of length `len` from bar `i` replaces `b` when it fits and is more significant. */
  function Better(b: Scan, y: seq<real>, i: nat, len: nat): Scan
    requires 3 <= len && i < |y|
  {
    if i + len <= |y| && Tsq(y, i, len) > b.tsq then Scan(Tsq(y, i, len), Slope(y[i..i + len]), len) else b
  }

  function Best(y: seq<real>, i: nat, lo: nat, hi: nat): Scan
    requires 3 <= lo && i < |y|
    decreases hi
  {
    if hi < lo then Scan(0.0, 0.0, 0) else Better(Best(y, i, lo, hi - 1), y, i, hi)
  }

  /** The scan keeps the shortest of the most significant windows that fit. */
  lemma {:induction false} BestIsMostSignificant(y: seq<real>, i: nat, lo: nat, hi: nat)
    requires 3 <= lo && i < |y|
    ensures var b := Best(y, i, lo, hi);
            && b.tsq >= 0.0
            && (b.len == 0 ==> b.tsq == 0.0 && b.slope == 0.0)
            && (b.len != 0 ==> lo <= b.len <= hi && i + b.len <= |y| && b.tsq > 0.0
                               && b.tsq == Tsq(y, i, b.len) && b.slope == Slope(y[i..i + b.len]))
            && (forall len :: lo <= len <= hi && i + len <= |y| ==> Tsq(y, i, len) <= b.tsq)
            && (forall len :: lo <= len < b.len && i + len <= |y| ==> Tsq(y, i, len) < b.tsq)
    decreases hi
  {
    if hi >= lo { BestIsMostSignificant(y, i, lo, hi - 1); }
  }

  function Lo(minWindow: nat): nat { if minWindow < 3 then 3 else minWindow }

  function Hi(n: nat, maxWindow: nat): nat { if maxWindow <= n - 1 then maxWindow else if n == 0 then 0 else n - 1 }

  /** Label and window end of bar `i`; below the threshold |t| < tThreshold the label is 0. */
  function TrendLabel(y: seq<real>, i: nat, minWindow: nat, maxWindow: nat, tThreshold: real): (int, int)
    requires i < |y|
  {
    var b := Best(y, i, Lo(minWindow), Hi(|y|, maxWindow));
    var end := i + (if b.len > 0 then b.len else 1);
    (if tThreshold > 0.0 && b.tsq < tThreshold * tThreshold then 0 else Sign(b.slope),
     if end <= |y| - 1 then end else |y| - 1)
  }

  /** One window length: every start it fits is improved where its trend is more significant. */
  method ScanLength(y: seq<real>, len: nat, bestT: array<real>, bestSlope: array<real>, bestLen: array<nat>)
    requires 3 <= len <= |y| && bestT.Length == bestSlope.Length == bestLen.Length == |y| && bestT != bestSlope
    modifies bestT, bestSlope, bestLen
    ensures forall i :: 0 <= i < |y| ==>
              Scan(bestT[i], bestSlope[i], bestLen[i]) == Better(old(Scan(bestT[i], bestSlope[i], bestLen[i])), y, i,
                                                                 len)
  {
    var start := 0;
    while start < |y| - len + 1
      invariant 0 <= start <= |y| - len + 1
      invariant forall i :: 0 <= i < start ==>
                  Scan(bestT[i], bestSlope[i], bestLen[i])
                  == Better(old(Scan(bestT[i], bestSlope[i], bestLen[i])), y, i, len)
      invariant forall i :: start <= i < |y| ==>
                  bestT[i] == old(bestT[i]) && bestSlope[i] == old(bestSlope[i]) && bestLen[i] == old(bestLen[i])
    {
      var t := Tsq(y, start, len);
      if t > bestT[start] {
        bestT[start] := t;
        bestSlope[start] := Slope(y[start..start + len]);
        bestLen[start] := len;
      }
      start := start + 1;
    }
  }

  method ScanLengths(y: seq<real>, lo: nat, hi: nat) returns (bestT: array<real>, bestSlope: array<real>,
                                                              bestLen: array<nat>)
    requires 3 <= lo && (hi < |y| || hi == 0)
    ensures fresh(bestT) && fresh(bestSlope) && fresh(bestLen)
    ensures bestT.Length == bestSlope.Length == bestLen.Length == |y|
    ensures forall i :: 0 <= i < |y| ==> Scan(bestT[i], bestSlope[i], bestLen[i]) == Best(y, i, lo, hi)
  {
    bestT := new real[|y|](_ => 0.0);
    bestSlope := new real[|y|](_ => 0.0);
    bestLen := new nat[|y|](_ => 0);
    var len := lo;
    while len < hi + 1
      invariant lo <= len && (len <= hi + 1 || len == lo)
      invariant fresh(bestT) && fresh(bestSlope) && fresh(bestLen)
      invariant forall i :: 0 <= i < |y| ==> Scan(bestT[i], bestSlope[i], bestLen[i]) == Best(y, i, lo, len - 1)
    {
      ScanLength(y, len, bestT, bestSlope, bestLen);
      len := len + 1;
    }
  }

  method MakeTrendScanningLabels(y: seq<real>, minWindow: nat, maxWindow: nat, tThreshold: real)
    returns (labels: array<int>, t1: array<int>)
    ensures labels.Length == t1.Length == |y|
    ensures forall i :: 0 <= i < |y| ==> (labels[i], t1[i]) == TrendLabel(y, i, minWindow, maxWindow, tThreshold)
  {
    var n := |y|;
    var lo, hi := Lo(minWindow), Hi(n, maxWindow);
    var bestT, bestSlope, bestLen := ScanLengths(y, lo, hi);
    labels := new int[n](_ => 0);
    t1 := new int[n](_ => 0);
    var i := 0;
    while i < n
      invariant 0 <= i <= n
      invariant forall k :: 0 <= k < n ==> Scan(bestT[k], bestSlope[k], bestLen[k]) == Best(y, k, lo, hi)
      invariant forall k :: 0 <= k < i ==> (labels[k], t1[k]) == TrendLabel(y, k, minWindow, maxWindow, tThreshold)
    {
      labels[i] := if tThreshold > 0.0 && bestT[i] < tThreshold * tThreshold then 0 else Sign(bestSlope[i]);
      var end := i + (if bestLen[i] > 0 then bestLen[i] else 1);
      t1[i] := if end <= n - 1 then end else n - 1;
      i := i + 1;
    }
  }

  lemma TrendSpan(y: seq<real>, i: nat, minWindow: nat, maxWindow: nat, tThreshold: real)
    requires i < |y|
    ensures var (verdict, end) := TrendLabel(y, i, minWindow, maxWindow, tThreshold);
            && verdict in {-1, 0, 1} && i <= end <= |y| - 1
  {}

  // ---------------------------------------------------------------- extension stability

  lemma {:induction false} SameBest(y: seq<real>, z: seq<real>, i: nat, lo: nat, hi: nat)
    requires y <= z && 3 <= lo && i < |y| && i + hi <= |y|
    ensures Best(y, i, lo, hi) == Best(z, i, lo, hi)
    decreases hi
  {
    if hi >= lo {
      assert y[i..i + hi] == z[i..i + hi];
      SameBest(y, z, i, lo, hi - 1);
    }
  }

  /** A bar with its longest window strictly inside the series keeps its label and end on any longer series. */
  lemma FullWindowIsStable(y: seq<real>, z: seq<real>, i: nat, minWindow: nat, maxWindow: nat, tThreshold: real)
    requires y <= z && i + maxWindow < |y| && maxWindow >= 1
    ensures TrendLabel(y, i, minWindow, maxWindow, tThreshold) == TrendLabel(z, i, minWindow, maxWindow, tThreshold)
  {
    SameBest(y, z, i, Lo(minWindow), maxWindow);
    BestIsMostSignificant(y, i, Lo(minWindow), maxWindow);
  }
}
