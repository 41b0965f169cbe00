/** What single feature columns say about the bars they are computed from. */
module FeatureMeaning {
  import opened Types
  import opened Arith
  import opened Smoothing
  import opened Columns
  import opened FeatureFrame
  import Htf = HigherTimeframe
  import Fd = FractionalDifference

  // ---------------------------------------------------------------- range, volume, return, window

  /** True range is the length of the shortest interval that holds the bar's range and the previous close. */
  lemma TrueRangeIsHull(bars: seq<Bar>, t: nat, lo: real, hi: real)
    requires 0 < t < |bars| && bars[t].low <= bars[t].high
    requires lo <= bars[t].low && bars[t].high <= hi && lo <= bars[t - 1].close <= hi
    ensures TrueRange(bars, t) <= hi - lo
    ensures TrueRange(bars, t) == Max(bars[t].high, bars[t - 1].close) - Min(bars[t].low, bars[t - 1].close)
  {}

  /** On-balance volume adds a bar's volume when its close rises, takes it away when it falls, and stays when it
      does neither. */
  lemma ObvFollowsClose(bars: seq<Bar>, t: nat)
    requires 0 < t < |bars|
    ensures var change := ObvChange(TradedOf(bars))[t];
            && (bars[t].close > bars[t - 1].close ==> change == Some(bars[t].volume))
            && (bars[t].close < bars[t - 1].close ==> change == Some(-bars[t].volume))
            && (bars[t].close == bars[t - 1].close ==> change == Some(0.0))
  {
    hide ObvChange;
    var s := TradedOf(bars);
    ObvChangeIsFlow(s, t);
    FlowIs(s, t);
  }

  lemma FlowIs(s: seq<Traded>, t: nat)
    requires 0 < t < |s|
    ensures s[t].close > s[t - 1].close ==> Flow(s, t) == s[t].volume
    ensures s[t].close < s[t - 1].close ==> Flow(s, t) == -s[t].volume
    ensures s[t].close == s[t - 1].close ==> Flow(s, t) == 0.0
  {
    SignTimes(Sign(s[t].close - s[t - 1].close), s[t].volume);
  }

  lemma SignTimes(sign: int, v: real)
    ensures sign == 1 ==> sign as real * v == v
    ensures sign == -1 ==> sign as real * v == -v
    ensures sign == 0 ==> sign as real * v == 0.0
  {}

  /** Sum of the returns of bars `c + 1 .. t`. */
  function ReturnSum(r: seq<Option<real>>, c: nat, t: nat): real
    requires c <= t < |r|
  {
    if c == t then 0.0 else ReturnSum(r, c, t - 1) + Htf.OrZero(r[t])
  }

  /** The ratio function does what log(a / b) does on neighbouring closes. */
  ghost predicate LogRatios(s: Setup, log: real -> real, bars: seq<Bar>, t: nat)
    requires t < |bars|
  {
    forall j, k :: 0 <= j && k == j + 1 <= t ==> IsRatio(s, log, bars[k].close, bars[j].close)
  }

  predicate IsRatio(s: Setup, log: real -> real, a: real, b: real) { s.logRatio(a, b) == log(a) - log(b) }

  /** Log returns add up to the log return of the whole span. */
  lemma {:induction false} ReturnsAddUp(s: Setup, log: real -> real, bars: seq<Bar>, c: nat, t: nat)
    requires c <= t < |bars|
    requires LogRatios(s, log, bars, t)
    ensures ReturnSum(Returns(s, bars), c, t) == log(bars[t].close) - log(bars[c].close)
  {
    hide Returns, LogRatios;
    if c < t {
      FewerRatios(s, log, bars, t);
      ReturnsAddUp(s, log, bars, c, t - 1);
      ReturnIs(s, log, bars, t);
    }
  }

  lemma FewerRatios(s: Setup, log: real -> real, bars: seq<Bar>, t: nat)
    requires 0 < t < |bars| && LogRatios(s, log, bars, t)
    ensures LogRatios(s, log, bars, t - 1)
  {}

  lemma ReturnIs(s: Setup, log: real -> real, bars: seq<Bar>, t: nat)
    requires 0 < t < |bars| && LogRatios(s, log, bars, t)
    ensures Returns(s, bars)[t] == Some(log(bars[t].close) - log(bars[t - 1].close))
  {
    hide LogRatios;
    RatioAt(s, log, bars, t);
  }

  lemma RatioAt(s: Setup, log: real -> real, bars: seq<Bar>, t: nat)
    requires 0 < t < |bars| && LogRatios(s, log, bars, t)
    ensures IsRatio(s, log, bars[t].close, bars[t - 1].close)
  {
    hide IsRatio;
  }

  /** A rolling sum of `w` values is what the running total gained over them; there is none before the w-th. */
  lemma RolledSum(w: nat, c: seq<real>, t: nat)
    requires w >= 1 && t < |c|
    ensures var r := Rolled(Total, w, Somes(c))[t];
            if t + 1 < w then r == None else r == Some(Total(c[..t + 1]) - Total(c[..t + 1 - w]))
  {
    hide Total;
    if t + 1 >= w {
      var window := Somes(c)[t + 1 - w..t + 1];
      var values := seq(|window|, k requires 0 <= k < |window| => window[k].value);
      assert values == c[t + 1 - w..t + 1];
      assert c[..t + 1] == c[..t + 1 - w] + c[t + 1 - w..t + 1];
      TotalJoins(c[..t + 1 - w], c[t + 1 - w..t + 1]);
    }
  }

  lemma {:induction false} TotalJoins(a: seq<real>, b: seq<real>)
    ensures Total(a + b) == Total(a) + Total(b)
  {
    if b == [] {
      assert a + b == a;
    } else {
      var n := |b| - 1;
      TotalJoins(a, b[..n]);
      assert (a + b)[..|a + b| - 1] == a + b[..n];
    }
  }

  /** The last `w` of the first `t + 1` values. */
  function Window<T>(s: seq<T>, w: nat, t: nat): (r: seq<T>)
    requires w <= t + 1 <= |s|
  {
    s[t + 1 - w..t + 1]
  }

  predicate Defined(o: seq<Option<real>>) { forall k :: 0 <= k < |o| ==> o[k].Some? }

  function Values(o: seq<Option<real>>): (v: seq<real>)
    requires Defined(o)
    ensures |v| == |o|
  {
    seq(|o|, k requires 0 <= k < |o| => o[k].value)
  }

  /** A rolling statistic is that of the newest `w` values when there are as many and all are defined. */
  lemma RolledReads(stat: seq<real> -> real, w: nat, s: seq<Option<real>>, t: nat)
    requires w >= 1 && t < |s|
    ensures t + 1 >= w && Defined(Window(s, w, t)) ==> Rolled(stat, w, s)[t] == Some(stat(Values(Window(s, w, t))))
    ensures t + 1 < w || !Defined(Window(s, w, t)) ==> Rolled(stat, w, s)[t] == None
  {
    if t + 1 >= w {
      var window := Window(s, w, t);
      if Defined(window) {
        assert Values(window) == seq(|window|, k requires 0 <= k < |window| => window[k].value);
      }
    }
  }

  /** Once its window fits, the price z-score is the statistic of the newest closes. */
  lemma PriceZReadsCloses(s: Setup, bars: seq<Bar>, t: nat)
    requires ValidSetup(s) && t < |bars|
    ensures PriceZ(s)(bars)[t]
            == if t + 1 < s.zWindow then None else Some(s.zScore(Window(Closes(bars), s.zWindow, t)))
  {
    RolledReads(s.zScore, s.zWindow, Somes(Closes(bars)), t);
    if t + 1 >= s.zWindow {
      assert Values(Window(Somes(Closes(bars)), s.zWindow, t)) == Window(Closes(bars), s.zWindow, t);
    }
  }

  /** A bar's volume, signed by the move of its close. */
  function SignedVolume(bars: seq<Bar>, t: nat): real
    requires 0 < t < |bars|
  {
    if bars[t].close > bars[t - 1].close then bars[t].volume
    else if bars[t].close < bars[t - 1].close then -bars[t].volume else 0.0
  }

  function SignedVolumes(bars: seq<Bar>, w: nat, t: nat): (v: seq<real>)
    requires w <= t < |bars|
    ensures |v| == w
  {
    seq(w, k requires 0 <= k < w => SignedVolume(bars, t + 1 - w + k))
  }

  lemma VolumeChanges(bars: seq<Bar>, w: nat, t: nat)
    requires t < |bars|
    ensures w <= t ==> Defined(Window(ObvChange(TradedOf(bars)), w, t))
                       && Values(Window(ObvChange(TradedOf(bars)), w, t)) == SignedVolumes(bars, w, t)
    ensures w == t + 1 ==> !Defined(Window(ObvChange(TradedOf(bars)), w, t))
  {
    hide ObvChange;
    var changes := ObvChange(TradedOf(bars));
    if w <= t {
      forall k: nat | k < w ensures Window(changes, w, t)[k] == Some(SignedVolume(bars, t + 1 - w + k)) {
        ObvFollowsClose(bars, t + 1 - w + k);
      }
    } else if w == t + 1 {
      NoFirstChange(bars);
      assert Window(changes, w, t)[0].None?;
    }
  }

  lemma NoFirstChange(bars: seq<Bar>)
    requires bars != []
    ensures ObvChange(TradedOf(bars))[0] == None
  {}

  /** And the volume z-score is that of the newest signed volumes. */
  lemma ObvZReadsVolumes(s: Setup, bars: seq<Bar>, t: nat)
    requires ValidSetup(s) && t < |bars|
    ensures ObvZ(s)(bars)[t]
            == if t < s.obvWindow then None else Some(s.zScore(SignedVolumes(bars, s.obvWindow, t)))
  {
    hide ObvChange, Rolled, Defined, Values, SignedVolumes;
    RolledReads(s.zScore, s.obvWindow, ObvChange(TradedOf(bars)), t);
    VolumeChanges(bars, s.obvWindow, t);
  }

  lemma ReturnsFrom(s: Setup, bars: seq<Bar>, w: nat, t: nat)
    requires w >= 1 && t < |bars|
    ensures w <= t ==> Defined(Window(Returns(s, bars), w, t))
    ensures w == t + 1 ==> !Defined(Window(Returns(s, bars), w, t))
  {
    if w == t + 1 { assert Window(Returns(s, bars), w, t)[0].None?; }
  }

  /** Volatility is the deviation of the newest returns. */
  lemma VolatilityReadsReturns(s: Setup, bars: seq<Bar>, t: nat)
    requires ValidSetup(s) && t < |bars|
    ensures t < s.volWindow ==> Volatility(s)(bars)[t] == None
    ensures t >= s.volWindow ==>
              && Defined(Window(Returns(s, bars), s.volWindow, t))
              && Volatility(s)(bars)[t] == Some(s.deviation(Values(Window(Returns(s, bars), s.volWindow, t))))
  {
    hide Returns, Rolled, Defined, Values;
    RolledReads(s.deviation, s.volWindow, Returns(s, bars), t);
    ReturnsFrom(s, bars, s.volWindow, t);
  }

  lemma VolatilitiesFrom(s: Setup, bars: seq<Bar>, t: nat)
    requires ValidSetup(s) && t < |bars|
    ensures |Volatility(s)(bars)| == |bars|
    ensures t + 1 >= s.volWindow + s.rankWindow ==> Defined(Window(Volatility(s)(bars), s.rankWindow, t))
    ensures s.rankWindow <= t + 1 < s.volWindow + s.rankWindow ==>
              !Defined(Window(Volatility(s)(bars), s.rankWindow, t))
  {
    hide Volatility;
    VolatilityLength(s, bars);
    forall k: nat | k < |bars| ensures Volatility(s)(bars)[k].Some? <==> k >= s.volWindow {
      VolatilityReadsReturns(s, bars, k);
    }
    if s.rankWindow <= t + 1 < s.volWindow + s.rankWindow {
      assert Window(Volatility(s)(bars), s.rankWindow, t)[0].None?;
    }
  }

  lemma VolatilityLength(s: Setup, bars: seq<Bar>)
    requires ValidSetup(s)
    ensures |Volatility(s)(bars)| == |bars|
  {}

  /** Its rank is that among the newest volatilities, one half where it is undefined. */
  lemma VolRankReadsVolatility(s: Setup, bars: seq<Bar>, t: nat)
    requires ValidSetup(s) && t < |bars|
    ensures |Volatility(s)(bars)| == |bars|
    ensures t + 1 < s.volWindow + s.rankWindow ==> VolRank(s)(bars)[t] == Some(0.5)
    ensures t + 1 >= s.volWindow + s.rankWindow ==>
              && Defined(Window(Volatility(s)(bars), s.rankWindow, t))
              && VolRank(s)(bars)[t] == Some(s.rank(Values(Window(Volatility(s)(bars), s.rankWindow, t))))
  {
    hide Returns, Rolled, Defined, Values;
    VolatilitiesFrom(s, bars, t);
    RolledReads(s.rank, s.rankWindow, Volatility(s)(bars), t);
  }

  // ---------------------------------------------------------------- fractional difference

  lemma {:induction false} WeightsEnd(d: nat, k: nat)
    requires d <= 1 && k > d
    ensures Fd.W(d as real, k) == 0.0
  {
    if k > d + 1 { WeightsEnd(d, k - 1); }
  }

  lemma {:induction false} DotEnds(d: nat, size: nat, x: seq<real>, t: nat, m: nat)
    requires d <= 1 && d < m <= size && m <= t + 1 && t < |x|
    ensures Fd.Dot(Fd.Weights(d as real, size), x, t, m) == if d == 0 then x[t] else x[t] - x[t - 1]
  {
    var w := Fd.Weights(d as real, size);
    if m > d + 1 {
      DotEnds(d, size, x, t, m - 1);
      WeightsEnd(d, m - 1);
      assert w[m - 1] == 0.0 && Mul(0.0, x[t - m + 1]) == 0.0;
    } else if d == 1 {
      assert w[0] == 1.0 && w[1] == Fd.NextWeight(1.0, 1, 1.0) == -1.0;
      assert Fd.Dot(w, x, t, 1) == Fd.Dot(w, x, t, 0) + Mul(1.0, x[t]);
      assert Fd.Dot(w, x, t, 2) == Fd.Dot(w, x, t, 1) + Mul(-1.0, x[t - 1]);
    }
  }

  /** Of order 1 the fractional difference is the difference of log closes, of order 0 the log close itself. */
  lemma WholeOrders(s: Setup, bars: seq<Bar>, t: nat)
    requires ValidSetup(s) && s.fracWindow <= t + 1 && t < |bars| && s.fracWindow >= 2
    ensures s.fracD == 0.0 ==> Frac(s)(bars)[t] == Some(s.log(bars[t].close + EPS))
    ensures s.fracD == 1.0 ==>
              Frac(s)(bars)[t] == Some(s.log(bars[t].close + EPS) - s.log(bars[t - 1].close + EPS))
  {
    hide Fd.Dot, Fd.Weights, Fd.Fracdiff, Fd.W;
    var x, w := Logs(s, bars), s.fracWindow;
    Fd.FilterSeesItsWindow(x, s.fracD, w, t);
    if s.fracD == 0.0 { DotEnds(0, w, x[t + 1 - w..t + 1], w - 1, w); }
    if s.fracD == 1.0 { DotEnds(1, w, x[t + 1 - w..t + 1], w - 1, w); }
  }

  // ---------------------------------------------------------------- the warm-up of a row

  lemma SmoothedAreDefined(s: Setup, bars: seq<Bar>, t: nat)
    requires ValidSetup(s) && t < |bars|
    ensures CellAt(Atr(s), bars, t).Some? <==> t + 1 >= s.atrPeriod
    ensures CellAt(Trend(s), bars, t).Some?
  {
    hide Ema;
  }

  lemma FracIsDefined(s: Setup, bars: seq<Bar>, t: nat)
    requires ValidSetup(s) && t < |bars|
    ensures CellAt(Frac(s), bars, t).Some? <==> t + 1 >= s.fracWindow
  {
    hide Fd.Fracdiff, Fd.Dot, Fd.Weights;
    Fd.FilterSeesItsWindow(Logs(s, bars), s.fracD, s.fracWindow, t);
  }

  lemma CellIs(f: Column, bars: seq<Bar>, t: nat)
    requires t < |f(bars)|
    ensures CellAt(f, bars, t) == f(bars)[t]
  {}

  lemma WindowsAreDefined(s: Setup, bars: seq<Bar>, t: nat)
    requires ValidSetup(s) && t < |bars|
    ensures CellAt(PriceZ(s), bars, t).Some? <==> t + 1 >= s.zWindow
    ensures CellAt(ObvZ(s), bars, t).Some? <==> t >= s.obvWindow
    ensures CellAt(Volatility(s), bars, t).Some? <==> t >= s.volWindow
    ensures CellAt(VolRank(s), bars, t).Some?
  {
    hide Rolled, CellAt;
    PriceZReadsCloses(s, bars, t);
    ObvZReadsVolumes(s, bars, t);
    VolatilityReadsReturns(s, bars, t);
    VolRankReadsVolatility(s, bars, t);
    CellIs(PriceZ(s), bars, t);
    CellIs(ObvZ(s), bars, t);
    CellIs(Volatility(s), bars, t);
    CellIs(VolRank(s), bars, t);
  }

  /** A row is valid exactly from the bar on that every window and Wilder's period fit, and the first return,
      volume change and volatility exist. */
  lemma RowsAreValidFrom(s: Setup, bars: seq<Bar>, t: nat)
    requires ValidSetup(s) && t < |bars|
    ensures RowAt(SourceLayout(s), bars, t).valid
            <==> && t + 1 >= s.atrPeriod && t >= 1 && t + 1 >= s.zWindow && t + 1 >= s.fracWindow
                 && t >= s.obvWindow && t >= s.volWindow
  {
    hide CellAt, Atr, Trend, VolRank, PriceZ, ObvZ, Frac, Volatility, HtfColumn;
    var f := SourceLayout(s).features;
    SmoothedAreDefined(s, bars, t);
    FracIsDefined(s, bars, t);
    WindowsAreDefined(s, bars, t);
    CellIs(f[0], bars, t);
    forall j | 5 <= j < 8 ensures CellAt(f[j], bars, t).Some? { HtfCellIsDefined(s, j, bars, t); }
    CellsAre(f, bars, t);
    assert |f| == 8 && f[1] == PriceZ(s) && f[2] == Frac(s) && f[3] == ObvZ(s) && f[4] == Volatility(s);
    assert (forall j :: 0 <= j < |f| ==> CellAt(f[j], bars, t).Some?)
      <==> forall j :: 0 <= j < 5 ==> CellAt(f[j], bars, t).Some?;
  }

  /** The engine's warm-up, every window plus two, suffices: from then on its row is complete. */
  lemma WarmUpSuffices(s: Setup, bars: seq<Bar>, warmup: nat)
    requires ValidSetup(s) && 1 <= warmup <= |bars|
    requires s.atrPeriod + 2 <= warmup && s.zWindow + 2 <= warmup && s.obvWindow + 2 <= warmup
    requires s.volWindow + 2 <= warmup && s.fracWindow + 2 <= warmup
    ensures RowAt(SourceLayout(s), bars, |bars| - 1).valid
  {
    hide RowAt, SourceLayout;
    RowsAreValidFrom(s, bars, |bars| - 1);
  }

  lemma CellsAre(fs: seq<Column>, bars: seq<Bar>, t: nat)
    ensures (forall j :: 0 <= j < |Cells(fs, bars, t)| ==> Cells(fs, bars, t)[j].Some?)
            <==> (forall j :: 0 <= j < |fs| ==> CellAt(fs[j], bars, t).Some?)
  {
    hide CellAt;
    assert forall j :: 0 <= j < |fs| ==> Cells(fs, bars, t)[j] == CellAt(fs[j], bars, t);
  }

  lemma HtfCellIsDefined(s: Setup, j: nat, bars: seq<Bar>, t: nat)
    requires ValidSetup(s) && t < |bars| && 5 <= j < 8
    ensures CellAt(SourceLayout(s).features[j], bars, t).Some?
  {
    hide HtfAt, Atr, Trend, VolRank, PriceZ, ObvZ, Frac, Volatility, ValidSetup;
  }

  /** Lags add. */
  lemma LagsAdd(a: nat, b: nat, s: seq<Option<real>>)
    ensures Lagged(a, Lagged(b, s)) == Lagged(a + b, s)
    ensures Lagged(0, s) == s && (forall t :: 0 <= t < |s| && t < a ==> Lagged(a, s)[t] == None)
  {}

  // ---------------------------------------------------------------- smoothing a moving series

  predicate Rising(s: seq<real>) { forall j, k :: 0 <= j && k == j + 1 < |s| ==> s[j] < s[k] }

  predicate Falling(s: seq<real>) { forall j, k :: 0 <= j && k == j + 1 < |s| ==> s[j] > s[k] }

  lemma MulStrict(c: real, a: real, b: real)
    requires c > 0.0 && a < b
    ensures Mul(c, a) < Mul(c, b)
  {
    ProductPositive(c, b - a);
    Distribute(b, a, c);
  }

  /** A smoothing lags behind a series that moves one way. */
  lemma {:induction false} EmaLags(alpha: real, s: seq<real>)
    requires 0.0 <= alpha < 1.0 && s != []
    ensures Rising(s) ==> Ema(alpha, s) <= s[|s| - 1] && (|s| > 1 ==> Ema(alpha, s) < s[|s| - 1])
    ensures Falling(s) ==> Ema(alpha, s) >= s[|s| - 1] && (|s| > 1 ==> Ema(alpha, s) > s[|s| - 1])
  {
    hide Mul;
    if |s| > 1 {
      var before, last := s[..|s| - 1], s[|s| - 1];
      EmaLags(alpha, before);
      Parts(alpha, last);
      if Rising(s) { MulStrict(1.0 - alpha, Ema(alpha, before), last); }
      if Falling(s) { MulStrict(1.0 - alpha, last, Ema(alpha, before)); }
    }
  }

  /** A span of n weighs its values as if they were (n - 1) / 2 bars old. */
  lemma SpanIsAge(span: nat)
    requires span >= 1
    ensures 0.0 < SpanAlpha(span) <= 1.0 && (span > 1 ==> SpanAlpha(span) < 1.0)
    ensures 1.0 - SpanAlpha(span) == SpanAlpha(span) * ((span as real - 1.0) / 2.0)
  {
    QuotientTimes(2.0, span as real + 1.0);
    var a, n := SpanAlpha(span), span as real;
    assert a * (n + 1.0) == 2.0;
    Distribute(n, 1.0, a);
    ProductSign(a, n + 1.0);
    ProductSign(1.0 - a, n + 1.0);
    Distribute(1.0, a, n + 1.0);
  }

  /** The trend sign of a rising series is +1 and of a falling one -1, from its second bar on. */
  lemma TrendFollowsPrices(s: Setup, bars: seq<Bar>, t: nat)
    requires s.trendEma > 1 && 0 < t < |bars|
    ensures Rising(Closes(bars)) ==> Trend(s)(bars)[t] == Some(1.0)
    ensures Falling(Closes(bars)) ==> Trend(s)(bars)[t] == Some(-1.0)
  {
    hide Ema, SpanAlpha;
    SpanIsAge(s.trendEma);
    EmaLags(SpanAlpha(s.trendEma), Closes(bars)[..t + 1]);
  }

  // ---------------------------------------------------------------- relative strength

  /** A change is a gain or a loss, never both. */
  lemma GainOrLoss(hc: seq<real>, k: nat)
    requires k + 1 < |hc|
    ensures |Htf.Gains(hc)| == |Htf.Losses(hc)| == |hc| - 1
    ensures var g, l := Htf.Gains(hc)[k], Htf.Losses(hc)[k];
            g - l == hc[k + 1] - hc[k] && g >= 0.0 && l >= 0.0 && (g == 0.0 || l == 0.0)
  {}

  lemma StrengthIsShare(gain: real, loss: real)
    requires gain >= 0.0 && loss >= 0.0
    ensures Htf.Strength(gain, loss) * (gain + loss + EPS) == 100.0 * gain
  {
    var l := loss + EPS;
    var ratio := gain / l;
    Htf.RatioNonNegative(gain, l);
    QuotientTimes(gain, l);
    QuotientTimes(100.0, 1.0 + ratio);
    var rest := 100.0 / (1.0 + ratio);
    Distribute(1.0, ratio, l);
    assert (1.0 + ratio) * l == l + gain;
    assert rest * ((1.0 + ratio) * l) == 100.0 * l;
    Distribute(100.0, rest, l + gain);
  }

  /** RSI is the share of average gain in average gain and loss, in percent. */
  lemma RsiIsShare(period: nat, hc: seq<real>)
    requires period >= 1
    ensures Htf.Rsi(period, hc).Some? <==> |hc| > period
    ensures |hc| > period ==>
              var g, l := Rma(period, Htf.Gains(hc)), Rma(period, Htf.Losses(hc));
              && g.Some? && l.Some? && g.value >= 0.0 && l.value >= 0.0
              && Htf.Rsi(period, hc).value * (g.value + l.value + EPS) == 100.0 * g.value
  {
    hide Ema, Htf.Strength;
    Htf.RmaNonNegative(period, Htf.Gains(hc));
    Htf.RmaNonNegative(period, Htf.Losses(hc));
    if |hc| > period {
      StrengthIsShare(Rma(period, Htf.Gains(hc)).value, Rma(period, Htf.Losses(hc)).value);
    }
  }

  lemma Wilder(period: nat)
    requires period >= 1
    ensures 0.0 <= 1.0 / period as real <= 1.0
  {
    QuotientTimes(1.0, period as real);
    Reciprocal(period as real, 1.0 / period as real);
  }

  lemma {:induction false} EmaAtLeast(alpha: real, s: seq<real>, lo: real)
    requires s != [] && 0.0 <= alpha <= 1.0 && forall k :: 0 <= k < |s| ==> s[k] >= lo
    ensures Ema(alpha, s) >= lo
  {
    hide Mul;
    if |s| > 1 {
      EmaAtLeast(alpha, s[..|s| - 1], lo);
      MulMonotone(1.0 - alpha, lo, Ema(alpha, s[..|s| - 1]));
      MulMonotone(alpha, lo, s[|s| - 1]);
      Parts(alpha, lo);
    }
  }

  lemma ShareBound(rsi: real, g: real, d: real)
    requires rsi * (g + 0.0 + EPS) == 100.0 * g && g >= d > 0.0
    ensures rsi * (d + EPS) >= 100.0 * d && rsi < 100.0
  {
    var rest := 100.0 - rsi;
    Distribute(100.0, rsi, g + EPS);
    assert rest * (g + EPS) == 100.0 * EPS;
    ProductSign(rest, g + EPS);
    ScaleLe(d + EPS, g + EPS, rest);
    Distribute(100.0, rsi, d + EPS);
  }

  /** Every step of the series gains at least d. */
  predicate GainsBy(hc: seq<real>, d: real) {
    forall j, k :: 0 <= j && k == j + 1 < |hc| ==> hc[j] + d <= hc[k]
  }

  predicate NeverGains(hc: seq<real>) { forall j, k :: 0 <= j && k == j + 1 < |hc| ==> hc[k] <= hc[j] }

  lemma MovesAre(hc: seq<real>, d: real)
    requires |hc| > 1 && d > 0.0
    ensures GainsBy(hc, d) ==> (forall k :: 0 <= k < |hc| - 1 ==> Htf.Gains(hc)[k] >= d)
                               && Within(Htf.Losses(hc), 0.0, 0.0)
    ensures NeverGains(hc) ==> Within(Htf.Gains(hc), 0.0, 0.0)
  {
    hide GainsBy, NeverGains, Htf.Gains, Htf.Losses;
    GainOrLoss(hc, 0);
    forall k | 0 <= k < |hc| - 1
      ensures GainsBy(hc, d) ==> Htf.Gains(hc)[k] >= d && Htf.Losses(hc)[k] == 0.0
      ensures NeverGains(hc) ==> Htf.Gains(hc)[k] == 0.0
    {
      GainOrLoss(hc, k);
      StepOf(hc, d, k);
    }
  }

  lemma StepOf(hc: seq<real>, d: real, k: nat)
    requires k + 1 < |hc|
    ensures GainsBy(hc, d) ==> hc[k] + d <= hc[k + 1]
    ensures NeverGains(hc) ==> hc[k + 1] <= hc[k]
  {}

  /** Candles that each close higher by at least d have an RSI next to 100; candles that never close higher have
      one of exactly 0. */
  lemma RsiFollowsCandles(period: nat, hc: seq<real>, d: real)
    requires 1 <= period < |hc| && d > 0.0
    ensures Htf.Rsi(period, hc).Some?
    ensures GainsBy(hc, d) ==> var rsi := Htf.Rsi(period, hc).value; 100.0 * d <= rsi * (d + EPS) && rsi < 100.0
    ensures NeverGains(hc) ==> Htf.Rsi(period, hc).value == 0.0
  {
    hide Ema, Htf.Rsi, GainsBy, NeverGains, Htf.Gains, Htf.Losses, Within;
    RsiIsShare(period, hc);
    Wilder(period);
    MovesAre(hc, d);
    GainOrLoss(hc, 0);
    var alpha, gains, losses := 1.0 / period as real, Htf.Gains(hc), Htf.Losses(hc);
    if GainsBy(hc, d) {
      EmaAtLeast(alpha, gains, d);
      EmaStaysInRange(alpha, losses, 0.0, 0.0);
      ShareBound(Htf.Rsi(period, hc).value, Ema(alpha, gains), d);
    }
    if NeverGains(hc) {
      EmaStaysInRange(alpha, gains, 0.0, 0.0);
      NoShare(Htf.Rsi(period, hc).value, Ema(alpha, losses) + EPS);
    }
  }

  lemma NoShare(rsi: real, l: real)
    requires rsi * (0.0 + l) == 0.0 && l > 0.0
    ensures rsi == 0.0
  {
    ProductSign(rsi, l);
    ProductSign(-rsi, l);
  }

  /** The three columns of candles that move one way: trend and return carry its sign, and the centred RSI is at
      the end of [-1, 1] that it points to. */
  lemma CandlesMoveTheColumns(s: Htf.Setup, logRatio: (real, real) -> real, hc: seq<real>, d: real)
    requires Htf.ValidSetup(s) && s.emaSpan > 1 && s.rsiPeriod < |hc| && d > 0.0
    requires forall a, b :: logRatio(a, b) > 0.0 <==> a > b
    ensures var r := Htf.Indicators(s, logRatio)(hc);
            && r.trend.Some? && r.ret.Some? && r.rsi.Some?
            && (GainsBy(hc, d) ==>
                  && r.trend.value == 1.0 && r.ret.value > 0.0
                  && r.rsi.value * (d + EPS) >= d - EPS && r.rsi.value < 1.0)
            && (Falling(hc) ==>
                  r.trend.value == -1.0 && r.ret.value <= 0.0 && r.rsi.value == -1.0)
  {
    hide Ema, Htf.Rsi, SpanAlpha;
    SpanIsAge(s.emaSpan);
    EmaLags(SpanAlpha(s.emaSpan), hc);
    RsiFollowsCandles(s.rsiPeriod, hc, d);
    var rsi := Htf.Rsi(s.rsiPeriod, hc).value;
    Centring(rsi, d);
  }

  lemma Centring(rsi: real, d: real)
    ensures (rsi - 50.0) / 50.0 * (d + EPS) == (rsi * (d + EPS)) / 50.0 - (d + EPS)
  {}
}
