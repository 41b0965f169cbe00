/** Walk-forward validation: label trimming and the tiling of out-of-sample folds. */
module WalkForward {
  import Triple = TripleBarrier
  import Trend = TrendScanning

  /** Rows kept by the slice `[: n - lookahead]`. A negative stop counts from the end, as the
      source's slice does. */
  function KeptRows(n: nat, lookahead: nat): nat {
    if lookahead <= n then n - lookahead else if lookahead <= 2 * n then 2 * n - lookahead else 0
  }

  predicate WindowFits(i: nat, n: nat, lookahead: nat) { i + lookahead < n }

  /** Trimming keeps exactly the rows whose whole forward window fits, except when the series is shorter
      than the lookahead but more than half of it: then the slice wraps around and keeps row 0. */
  lemma TrimIsSound(n: nat, lookahead: nat)
    ensures (forall i: nat :: i < KeptRows(n, lookahead) <==> WindowFits(i, n, lookahead))
            <==> !(n < lookahead < 2 * n)
  {
    if n < lookahead < 2 * n {
      assert 0 < KeptRows(n, lookahead) && !WindowFits(0, n, lookahead);
    }
  }

  /** Every kept triple-barrier label is the one any longer series with the same prefix gives, and its
      window ends inside the training slice. */
  lemma KeptTripleLabelsAreFinal(s: Triple.Series, t: Triple.Series, horizon: nat, tpMult: real, slMult: real,
                                 i: nat, verdict: int, end: int)
    requires Triple.Extends(s, t) && !(|s.close| < horizon < 2 * |s.close|)
    requires i < KeptRows(|s.close|, horizon) && Triple.IsLabel(s, horizon, tpMult, slMult, i, verdict, end)
    ensures Triple.IsLabel(t, horizon, tpMult, slMult, i, verdict, end) && end < |s.close|
  {
    TrimIsSound(|s.close|, horizon);
    assert WindowFits(i, |s.close|, horizon);
    Triple.FullWindowIsStable(s, t, horizon, tpMult, slMult, i, verdict, end);
  }

  /** On a slice where trimming wraps around, row 0 is kept although its label or window end still
      changes, and without a usable ATR its end. */
  lemma WrappedTrimKeepsUnstableRow(s: Triple.Series, t: Triple.Series, horizon: nat, tpMult: real, slMult: real,
                                    l1: int, e1: int, l2: int, e2: int)
    requires Triple.Extends(s, t) && |s.close| < horizon < 2 * |s.close| && horizon < |t.close|
    requires Triple.IsLabel(s, horizon, tpMult, slMult, 0, l1, e1)
    requires Triple.IsLabel(t, horizon, tpMult, slMult, 0, l2, e2)
    ensures 0 < KeptRows(|s.close|, horizon) && (l1, e1) != (l2, e2)
    ensures s.atr[0].None? ==> e1 != e2
  {
    Triple.ShortWindowIsNotStable(s, t, horizon, tpMult, slMult, 0, l1, e1, l2, e2);
  }

  /** Row `i` has the same triple-barrier label on both series. */
  ghost predicate SameLabel(s: Triple.Series, t: Triple.Series, horizon: nat, tpMult: real, slMult: real, i: nat)
    requires Triple.Extends(s, t) && i < |s.close|
  {
    forall verdict: int, end: int ::
      Triple.IsLabel(s, horizon, tpMult, slMult, i, verdict, end)
      ==> Triple.IsLabel(t, horizon, tpMult, slMult, i, verdict, end)
  }

  /** Against any longer series that holds every window, all rows the trim keeps have their final label if
      and only if the slice does not wrap around. */
  lemma KeptTripleLabelsAreFinalExactly(s: Triple.Series, t: Triple.Series, horizon: nat, tpMult: real, slMult: real)
    requires Triple.Extends(s, t) && |s.close| + horizon <= |t.close|
    ensures KeptRows(|s.close|, horizon) <= |s.close|
    ensures (forall i: nat :: i < KeptRows(|s.close|, horizon) ==> SameLabel(s, t, horizon, tpMult, slMult, i))
            <==> !(|s.close| < horizon < 2 * |s.close|)
  {
    hide Triple.IsLabel;
    var n := |s.close|;
    if n < horizon < 2 * n {
      ClampedLabel(s, horizon, tpMult, slMult);
      Triple.FinalExactly(s, t, horizon, tpMult, slMult, 0, 0, n - 1);
      assert 0 < KeptRows(n, horizon) && !SameLabel(s, t, horizon, tpMult, slMult, 0);
    } else {
      forall i: nat | i < KeptRows(n, horizon) ensures SameLabel(s, t, horizon, tpMult, slMult, i) {
        forall verdict: int, end: int | Triple.IsLabel(s, horizon, tpMult, slMult, i, verdict, end)
          ensures Triple.IsLabel(t, horizon, tpMult, slMult, i, verdict, end)
        {
          KeptTripleLabelsAreFinal(s, t, horizon, tpMult, slMult, i, verdict, end);
        }
      }
    }
  }

  lemma ClampedLabel(s: Triple.Series, horizon: nat, tpMult: real, slMult: real)
    requires Triple.Rectangular(s) && 0 < |s.close| <= horizon
    ensures Triple.IsLabel(s, horizon, tpMult, slMult, 0, 0, |s.close| - 1)
  {}

  lemma KeptTrendLabelsAreFinal(y: seq<real>, z: seq<real>, minWindow: nat, maxWindow: nat, tThreshold: real, i: nat)
    requires y <= z && maxWindow >= 1 && !(|y| < maxWindow < 2 * |y|) && i < KeptRows(|y|, maxWindow)
    ensures i < |y|
    ensures Trend.TrendLabel(y, i, minWindow, maxWindow, tThreshold)
            == Trend.TrendLabel(z, i, minWindow, maxWindow, tThreshold)
    ensures Trend.TrendLabel(y, i, minWindow, maxWindow, tThreshold).1 < |y|
  {
    TrimIsSound(|y|, maxWindow);
    assert WindowFits(i, |y|, maxWindow);
    Trend.FullWindowIsStable(y, z, i, minWindow, maxWindow, tThreshold);
    Trend.TrendSpan(y, i, minWindow, maxWindow, tThreshold);
  }


  /** One fold: train on bars below `trainEnd`, test on [testStart, testEnd). */
  datatype Fold = Fold(trainEnd: nat, testStart: nat, testEnd: nat)

  function Joined<T>(xs: seq<T>, folds: seq<Fold>): seq<T>
    requires forall k :: 0 <= k < |folds| ==> folds[k].testStart <= folds[k].testEnd <= |xs|
  {
    if folds == [] then []
    else Joined(xs, folds[..|folds| - 1]) + xs[folds[|folds| - 1].testStart..folds[|folds| - 1].testEnd]
  }

  /** Folds that train on everything before their own test slice and follow one another without a gap. */
  predicate Tile(folds: seq<Fold>, initial: nat, total: nat) {
    && (folds != [] ==> folds[0].testStart == initial)
    && (forall k :: 0 <= k < |folds| ==>
          initial <= folds[k].trainEnd == folds[k].testStart <= folds[k].testEnd <= total)
    && (forall j, k :: 0 <= j && k == j + 1 < |folds| ==> folds[k].testStart == folds[j].testEnd)
  }

  /** Where the last fold's test slice ends. */
  function Frontier(folds: seq<Fold>, initial: nat): nat {
    if folds == [] then initial else folds[|folds| - 1].testEnd
  }

  /** Every test slice has `len` bars but the last, which takes what the division leaves over too. */
  predicate EvenBy(folds: seq<Fold>, len: nat)
    requires forall k :: 0 <= k < |folds| ==> folds[k].testStart <= folds[k].testEnd
  {
    && (forall k :: 0 <= k < |folds| - 1 ==> folds[k].testEnd - folds[k].testStart == len)
    && (folds != [] ==>
          var last := folds[|folds| - 1]; len <= last.testEnd - last.testStart < len + |folds|)
  }

  lemma SlicesJoin<T>(xs: seq<T>, a: nat, b: nat, c: nat)
    requires a <= b <= c <= |xs|
    ensures xs[a..b] + xs[b..c] == xs[a..c]
  {}

  /** Folds that tile have test slices which, laid end to end, are exactly the bars up to the frontier. */
  lemma {:induction false} TilesJoin<T>(xs: seq<T>, folds: seq<Fold>, initial: nat)
    requires initial <= |xs| && Tile(folds, initial, |xs|)
    ensures initial <= Frontier(folds, initial) <= |xs|
    ensures Joined(xs, folds) == xs[initial..Frontier(folds, initial)]
  {
    if folds != [] {
      var last := folds[|folds| - 1];
      TilesJoin(xs, folds[..|folds| - 1], initial);
      SlicesJoin(xs, initial, last.testStart, last.testEnd);
    }
  }

  /** The fold loop: the test slices laid end to end are exactly the bars after the first training
      window, each fold trains only on the bars before its own test slice, and the slices are of equal
      length but for the remainder in the last; none is empty once there is a bar for each. */
  method Folds<T>(ohlcv: seq<T>, initial: nat, splits: nat) returns (folds: seq<Fold>)
    requires initial <= |ohlcv| && splits > 0
    ensures |folds| == splits && Tile(folds, initial, |ohlcv|)
    ensures Joined(ohlcv, folds) == ohlcv[initial..]
    ensures exists len: nat :: EvenBy(folds, len)
    ensures |ohlcv| - initial >= splits ==> forall k :: 0 <= k < splits ==> folds[k].testStart < folds[k].testEnd
  {
    hide TrainEnd, TestLen, Tile, EvenBy;
    var total := |ohlcv|;
    var testLen := TestLen(total, initial, splits);
    folds := [];
    var i := 0;
    while i < splits
      invariant 0 <= i <= splits && |folds| == i
      invariant forall k :: 0 <= k < i ==> folds[k] == FoldAt(total, initial, splits, k)
    {
      EndsFit(total, initial, splits, i);
      var trainEnd := TrainEnd(initial, testLen, i);
      var testEnd := if i == splits - 1 then total else trainEnd + testLen;
      folds := folds + [Fold(trainEnd, trainEnd, testEnd)];
      i := i + 1;
    }
    FoldsTile(folds, total, initial, splits);
    TilesJoin(ohlcv, folds, initial);
    FoldsAreEven(folds, total, initial, splits);
  }

  /** Fold `i` of `splits`. */
  function FoldAt(total: nat, initial: nat, splits: nat, i: nat): Fold
    requires initial <= total && i < splits
  {
    var trainEnd := TrainEnd(initial, TestLen(total, initial, splits), i);
    Fold(trainEnd, trainEnd, if i == splits - 1 then total else trainEnd + TestLen(total, initial, splits))
  }

  lemma FoldsTile(folds: seq<Fold>, total: nat, initial: nat, splits: nat)
    requires initial <= total && splits > 0 && |folds| == splits
    requires forall k :: 0 <= k < splits ==> folds[k] == FoldAt(total, initial, splits, k)
    ensures Tile(folds, initial, total) && Frontier(folds, initial) == total
  {
    hide TrainEnd, TestLen;
    EndsFit(total, initial, splits, 0);
    forall k | 0 <= k < splits
      ensures initial <= folds[k].trainEnd == folds[k].testStart <= folds[k].testEnd <= total
    {
      EndsFit(total, initial, splits, k);
    }
    forall j, k | 0 <= j && k == j + 1 < splits ensures folds[k].testStart == folds[j].testEnd {
      EndsFit(total, initial, splits, j);
    }
  }

  lemma FoldsAreEven(folds: seq<Fold>, total: nat, initial: nat, splits: nat)
    requires initial <= total && splits > 0 && |folds| == splits
    requires forall k :: 0 <= k < splits ==> folds[k] == FoldAt(total, initial, splits, k)
    ensures forall k :: 0 <= k < |folds| ==> folds[k].testStart <= folds[k].testEnd
    ensures exists len: nat :: EvenBy(folds, len)
    ensures total - initial >= splits ==> forall k :: 0 <= k < splits ==> folds[k].testStart < folds[k].testEnd
  {
    hide TrainEnd, TestLen;
    LastTest(total, initial, splits);
    assert EvenBy(folds, TestLen(total, initial, splits));
  }

  /** The last test slice takes the remainder; the others are not empty when there is a bar for each. */
  lemma LastTest(total: nat, initial: nat, splits: nat)
    requires initial <= total && splits > 0
    ensures var len := TestLen(total, initial, splits);
            && len <= total - TrainEnd(initial, len, splits - 1) < len + splits
            && (total - initial >= splits ==> len >= 1)
  {
    var len := TestLen(total, initial, splits);
    assert (splits - 1) * len == splits * len - len;
  }

  /** Length of every test slice but the last. */
  function TestLen(total: nat, initial: nat, splits: nat): nat
    requires initial <= total && splits > 0
  {
    (total - initial) / splits
  }

  /** End of the training window of fold `i`. */
  function TrainEnd(initial: nat, testLen: nat, i: nat): nat { initial + i * testLen }

  lemma EndsFit(total: nat, initial: nat, splits: nat, i: nat)
    requires initial <= total && i < splits
    ensures var len := TestLen(total, initial, splits);
            && TrainEnd(initial, len, 0) == initial <= TrainEnd(initial, len, i)
            && TrainEnd(initial, len, i) + len == TrainEnd(initial, len, i + 1) <= total
  {
    var len := TestLen(total, initial, splits);
    assert splits * len <= total - initial;
    Products(i + 1, splits, len);
    assert (i + 1) * len == i * len + len;
  }

  lemma Products(a: nat, b: nat, c: nat)
    requires a <= b
    ensures a * c <= b * c
  {}
}
