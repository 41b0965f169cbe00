/** What a trend-scanning label says about the prices that follow its bar. */
module TrendDirection {
  import opened Types
  import opened Arith
  import opened TrendScanning

  // ---------------------------------------------------------------- the least-squares line

  /** No line leaves a smaller squared error on the window than the one of slope `b` through height `a` at
      the centre. */
  ghost predicate LeastSquares(w: seq<real>, a: real, b: real) {
    forall a2: real, b2: real :: LineError(w, a, b) <= LineError(w, a2, b2)
  }

  /** Where the line of slope `b` through height `a` at the centre stands at the window's position `k`. */
  function HeightOf(w: seq<real>, a: real, b: real, k: nat): real { a + b * Centred(|w|, k) }

  /** Every least-squares line of the window ends above where it starts. */
  ghost predicate Rises(w: seq<real>)
    requires |w| >= 2
  {
    forall a: real, b: real :: LeastSquares(w, a, b) ==> HeightOf(w, a, b, 0) < HeightOf(w, a, b, |w| - 1)
  }

  ghost predicate Falls(w: seq<real>)
    requires |w| >= 2
  {
    forall a: real, b: real :: LeastSquares(w, a, b) ==> HeightOf(w, a, b, 0) > HeightOf(w, a, b, |w| - 1)
  }

  lemma SlopeIsLeast(w: seq<real>)
    requires |w| >= 2
    ensures LeastSquares(w, MeanOf(w), Slope(w))
  {
    hide LineError, MeanOf, Slope, SquareSum, Sxx;
    forall a: real, b: real ensures LineError(w, MeanOf(w), Slope(w)) <= LineError(w, a, b) {
      SlopeIsLeastSquares(w, a, b);
    }
  }

  /** A parabola is higher elsewhere by the squared distance from its lowest point. */
  lemma ParabolaGap(base: real, xy: real, xx: real, at: real, b: real)
    requires at * xx == xy
    ensures Quadratic(base, b, xy, xx) - Quadratic(base, at, xy, xx) == Mul(Sq(b - at), xx)
  {
    assert at * xy == at * at * xx;
    assert Sq(b - at) == Sq(b) - 2.0 * (b * at) + at * at;
    assert Mul(Sq(b - at), xx) == Sq(b) * xx - 2.0 * (b * at) * xx + at * at * xx;
    assert b * at * xx == b * xy;
  }

  /** There is one least-squares slope. */
  lemma LeastSquaresIsUnique(w: seq<real>, a: real, b: real)
    requires |w| >= 2 && LeastSquares(w, a, b)
    ensures b == Slope(w)
  {
    hide LineError, Quadratic, Sq, Sxx, SquareSum, CrossSum, Slope, Mul;
    var xx, xy, base := Sxx(|w|), CrossSum(Xs(|w|), w, |w|), SquareSum(Above(w, a), |w|);
    assert LineError(w, a, b) <= LineError(w, a, Slope(w));
    ErrorOfLine(w, a, b);
    ErrorOfLine(w, a, Slope(w));
    SxxPositive(|w|);
    SlopeTimes(w);
    ParabolaGap(base, xy, xx, Slope(w), b);
    SquareSign(b - Slope(w));
    if b != Slope(w) { MulPositive(Sq(b - Slope(w)), xx); }
  }

  lemma LineRises(w: seq<real>, a: real, b: real)
    requires |w| >= 2
    ensures HeightOf(w, a, b, |w| - 1) - HeightOf(w, a, b, 0) == b * (|w| as real - 1.0)
  {
    Distribute(Centred(|w|, |w| - 1), Centred(|w|, 0), b);
    assert Centred(|w|, |w| - 1) - Centred(|w|, 0) == |w| as real - 1.0;
  }

  lemma RisesExactly(w: seq<real>)
    requires |w| >= 2
    ensures Rises(w) <==> Slope(w) > 0.0
    ensures Falls(w) <==> Slope(w) < 0.0
  {
    hide LeastSquares, Slope, MeanOf, HeightOf;
    var n := |w| as real - 1.0;
    SlopeIsLeast(w);
    LineRises(w, MeanOf(w), Slope(w));
    ProductSign(Slope(w), n);
    forall a: real, b: real | LeastSquares(w, a, b)
      ensures b == Slope(w) && HeightOf(w, a, b, |w| - 1) - HeightOf(w, a, b, 0) == b * n
    {
      LeastSquaresIsUnique(w, a, b);
      LineRises(w, a, b);
    }
    ProductSign(-Slope(w), n);
    assert -Slope(w) * n == -(Slope(w) * n);
  }

  // ---------------------------------------------------------------- significance

  /** The squared t-statistic is the squared slope over its squared standard error: the error the best line
      leaves (no less than EPS), per degree of freedom and per unit of spread of the positions. */
  lemma SlopeOverItsError(w: seq<real>, a: real, b: real)
    requires |w| >= 3 && LeastSquares(w, a, b)
    ensures Sxx(|w|) > 0.0
    ensures WindowTsq(w) * (Max(LineError(w, a, b), EPS) / (|w| as real - 2.0) / Sxx(|w|)) == b * b
  {
    hide LineError, SquareSum, Sxx, Slope, MeanOf;
    LeastSquaresIsUnique(w, a, b);
    SlopeIsLeast(w);
    SlopeIsLeastSquares(w, a, b);
    assert LineError(w, a, b) <= LineError(w, MeanOf(w), Slope(w));
    SxxPositive(|w|);
    Ratios(b * b, Sxx(|w|), |w| as real - 2.0, Max(LineError(w, a, b), EPS));
  }

  lemma Ratios(sq: real, xx: real, dof: real, error: real)
    requires xx > 0.0 && dof > 0.0 && error > 0.0
    ensures sq * xx * dof / error * (error / dof / xx) == sq
  {
    QuotientTimes(sq * xx * dof, error);
    QuotientTimes(error, dof);
    QuotientTimes(error / dof, xx);
    var t, e := sq * xx * dof / error, error / dof / xx;
    assert error == e * xx * dof;
    assert t * (e * xx * dof) == sq * (xx * dof);
    Cancel(t * e, sq, xx * dof);
  }

  lemma Cancel(a: real, b: real, c: real)
    requires a * c == b * c && c > 0.0
    ensures a == b
  {
    CancelLe(a, b, c);
    CancelLe(b, a, c);
  }

  lemma SignificantIsSloped(w: seq<real>)
    requires |w| >= 3
    ensures WindowTsq(w) >= 0.0
    ensures WindowTsq(w) > 0.0 <==> Slope(w) != 0.0
  {
    hide SquareSum, Sxx, Slope, MeanOf;
    var b, xx, dof := Slope(w), Sxx(|w|), |w| as real - 2.0;
    var error := Max(SquareSum(Above(w, MeanOf(w)), |w|) - b * b * xx, EPS);
    SxxPositive(|w|);
    SquareSign(b);
    ProductSign(b * b, xx);
    ProductSign(b * b * xx, dof);
    QuotientTimes(b * b * xx * dof, error);
    ProductSign(WindowTsq(w), error);
  }

  // ---------------------------------------------------------------- the label

  /** A forward window of an allowed length that the series holds. */
  predicate Allowed(y: seq<real>, i: nat, minWindow: nat, maxWindow: nat, len: nat) {
    3 <= len && minWindow <= len <= maxWindow && len < |y| && i + len <= |y|
  }

  /** The shortest of the most significant windows, when one is significant at all. */
  ghost predicate Chosen(y: seq<real>, i: nat, minWindow: nat, maxWindow: nat, len: nat) {
    && Allowed(y, i, minWindow, maxWindow, len) && Tsq(y, i, len) > 0.0
    && (forall l: nat :: Allowed(y, i, minWindow, maxWindow, l) ==>
          Tsq(y, i, l) <= Tsq(y, i, len) && (l < len ==> Tsq(y, i, l) < Tsq(y, i, len)))
  }

  predicate Clears(tThreshold: real, tsq: real) { tThreshold <= 0.0 || tsq >= tThreshold * tThreshold }

  /** No allowed window reaches a positive threshold, or every one has a flat line. */
  ghost predicate Undirected(y: seq<real>, i: nat, minWindow: nat, maxWindow: nat, tThreshold: real) {
    || (forall l: nat :: Allowed(y, i, minWindow, maxWindow, l) ==> !Clears(tThreshold, Tsq(y, i, l)))
    || (forall l: nat :: Allowed(y, i, minWindow, maxWindow, l) ==> !Rises(y[i..i + l]) && !Falls(y[i..i + l]))
  }

  lemma BestIsChosen(y: seq<real>, i: nat, minWindow: nat, maxWindow: nat, len: nat)
    requires i < |y|
    ensures var b := Best(y, i, Lo(minWindow), Hi(|y|, maxWindow));
            && (Chosen(y, i, minWindow, maxWindow, len) <==> b.len != 0 && len == b.len)
            && (b.len != 0 ==> Allowed(y, i, minWindow, maxWindow, b.len) && b.tsq == Tsq(y, i, b.len) > 0.0
                               && b.slope == Slope(y[i..i + b.len]))
            && (b.len == 0 ==> b.tsq == b.slope == 0.0)
            && (forall l: nat :: Allowed(y, i, minWindow, maxWindow, l) ==> Tsq(y, i, l) <= b.tsq)
  {
    hide Best, Tsq, Slope;
    BestIsMostSignificant(y, i, Lo(minWindow), Hi(|y|, maxWindow));
  }

  /** A label of +1 says that the line of the chosen window rises, -1 that it falls, where the window clears the
      threshold; 0 that no allowed window clears it, or that every one is flat. The span ends with the chosen
      window, or on the next bar without one, and never beyond the last bar. */
  lemma LabelIsDirection(y: seq<real>, i: nat, minWindow: nat, maxWindow: nat, tThreshold: real)
    requires i < |y|
    ensures var (verdict, end) := TrendLabel(y, i, minWindow, maxWindow, tThreshold);
            && (verdict == 1 <==> exists len :: Chosen(y, i, minWindow, maxWindow, len)
                                                && Clears(tThreshold, Tsq(y, i, len)) && Rises(y[i..i + len]))
            && (verdict == -1 <==> exists len :: Chosen(y, i, minWindow, maxWindow, len)
                                                 && Clears(tThreshold, Tsq(y, i, len)) && Falls(y[i..i + len]))
            && (verdict == 0 <==> Undirected(y, i, minWindow, maxWindow, tThreshold))
            && (forall len :: Chosen(y, i, minWindow, maxWindow, len) ==>
                  end == if i + len < |y| then i + len else |y| - 1)
            && ((forall len :: !Chosen(y, i, minWindow, maxWindow, len)) ==>
                  end == if i + 1 < |y| then i + 1 else |y| - 1)
  {
    hide Best, Tsq, Slope, Chosen, Rises, Falls;
    var b := Best(y, i, Lo(minWindow), Hi(|y|, maxWindow));
    BestIsChosen(y, i, minWindow, maxWindow, b.len);
    forall len: nat | Chosen(y, i, minWindow, maxWindow, len) ensures b.len != 0 && len == b.len {
      BestIsChosen(y, i, minWindow, maxWindow, len);
    }
    forall l: nat | Allowed(y, i, minWindow, maxWindow, l)
      ensures Rises(y[i..i + l]) || Falls(y[i..i + l]) <==> Tsq(y, i, l) > 0.0
    {
      WindowDirection(y, i, l);
    }
    if b.len != 0 { WindowDirection(y, i, b.len); }
  }

  lemma WindowDirection(y: seq<real>, i: nat, len: nat)
    requires 3 <= len && i + len <= |y|
    ensures Rises(y[i..i + len]) <==> Slope(y[i..i + len]) > 0.0
    ensures Falls(y[i..i + len]) <==> Slope(y[i..i + len]) < 0.0
    ensures Tsq(y, i, len) > 0.0 <==> Slope(y[i..i + len]) != 0.0
  {
    hide Slope, WindowTsq, Rises, Falls;
    RisesExactly(y[i..i + len]);
    SignificantIsSloped(y[i..i + len]);
  }

  // ---------------------------------------------------------------- moving one way

  ghost predicate Rising(w: seq<real>) { forall k :: 0 < k < |w| ==> w[k - 1] < w[k] }

  ghost predicate Falling(w: seq<real>) { forall k :: 0 < k < |w| ==> w[k - 1] > w[k] }

  lemma {:induction false} RisingOrders(w: seq<real>, j: nat, k: nat)
    requires Rising(w) && j < k < |w|
    ensures w[j] < w[k]
  {
    if j + 1 < k { RisingOrders(w, j, k - 1); }
  }

  lemma SameSigns(x: real, d: real)
    requires x < 0.0 ==> d <= 0.0
    requires x > 0.0 ==> d >= 0.0
    ensures Mul(x, d) >= 0.0
  {}

  /** Rising values lie on the same side of the middle one as their positions do of the centre. */
  lemma {:induction false} RisingCross(w: seq<real>, m: nat)
    requires Rising(w) && |w| >= 2 && m <= |w|
    ensures var mid := (|w| - 1) / 2;
            var c := CrossSum(Xs(|w|), Above(w, w[mid]), m);
            c >= 0.0 && (m == |w| ==> c > 0.0)
  {
    hide Mul;
    if m > 0 {
      var mid, k := (|w| - 1) / 2, m - 1;
      RisingCross(w, k);
      if k < mid { RisingOrders(w, k, mid); }
      if mid < k { RisingOrders(w, mid, k); }
      SameSigns(Xs(|w|)[k], Above(w, w[mid])[k]);
      if m == |w| { MulPositive(Xs(|w|)[k], Above(w, w[mid])[k]); }
    }
  }

  lemma RisingSlope(w: seq<real>)
    requires Rising(w) && |w| >= 2
    ensures Slope(w) > 0.0
  {
    hide CrossSum, Sxx, Above;
    RisingCross(w, |w|);
    CentredCross(w, w[(|w| - 1) / 2]);
    SxxPositive(|w|);
    SlopeTimes(w);
    ProductSign(Slope(w), Sxx(|w|));
  }

  function Mirrored(w: seq<real>): (r: seq<real>)
    ensures |r| == |w|
  {
    seq(|w|, k requires 0 <= k < |w| => -w[k])
  }

  lemma {:induction false} MirroredCross(x: seq<real>, w: seq<real>, m: nat)
    requires m <= |w| == |x|
    ensures CrossSum(x, Mirrored(w), m) == -CrossSum(x, w, m)
  {
    if m > 0 { MirroredCross(x, w, m - 1); }
  }

  lemma FallingSlope(w: seq<real>)
    requires Falling(w) && |w| >= 2
    ensures Slope(w) < 0.0
  {
    hide CrossSum, Sxx;
    var r := Mirrored(w);
    RisingSlope(r);
    MirroredCross(Xs(|w|), w, |w|);
    SxxPositive(|w|);
    SlopeTimes(w);
    SlopeTimes(r);
    Distribute(Slope(w), -Slope(r), Sxx(|w|));
    ProductSign(-Slope(w), Sxx(|w|));
    ProductSign(Slope(r), Sxx(|w|));
  }

  /** At threshold 0 a bar followed by strictly rising log prices is labelled +1, one followed by strictly
      falling ones -1, as soon as one allowed window fits. */
  lemma MovingPricesAreLabelled(y: seq<real>, i: nat, minWindow: nat, maxWindow: nat, len: nat)
    requires Allowed(y, i, minWindow, maxWindow, len)
    ensures Rising(y[i..]) ==> TrendLabel(y, i, minWindow, maxWindow, 0.0).0 == 1
    ensures Falling(y[i..]) ==> TrendLabel(y, i, minWindow, maxWindow, 0.0).0 == -1
  {
    hide Best, Tsq, Slope, Chosen, Rising, Falling;
    var b := Best(y, i, Lo(minWindow), Hi(|y|, maxWindow));
    BestIsChosen(y, i, minWindow, maxWindow, b.len);
    WindowDirection(y, i, len);
    MovingWindow(y, i, len);
    if b.len != 0 { MovingWindow(y, i, b.len); }
  }

  lemma MovingWindow(y: seq<real>, i: nat, len: nat)
    requires 3 <= len && i + len <= |y|
    ensures Rising(y[i..]) ==> Slope(y[i..i + len]) > 0.0
    ensures Falling(y[i..]) ==> Slope(y[i..i + len]) < 0.0
  {
    hide Slope;
    var w := y[i..i + len];
    assert w == y[i..][..len];
    if Rising(y[i..]) { RisingSlope(w); }
    if Falling(y[i..]) { FallingSlope(w); }
  }
}
