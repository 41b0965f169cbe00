/** The newest row of the live feature engine, computed over its bounded buffer, against the same row of a
    frame over the whole history. */
module LiveParity {
  import opened Types
  import opened Arith
  import opened Smoothing
  import opened Columns
  import opened BufferedFeatures
  import opened FeatureFrame
  import Htf = HigherTimeframe
  import Strategy

  // ---------------------------------------------------------------- how many bars a column sees

  lemma LocalAs<A(!new), B(!new)>(f: seq<A> -> seq<B>, g: seq<A> -> seq<B>, r: nat)
    requires Local(f, r) && forall x :: f(x) == g(x)
    ensures Local(g, r)
  {}

  lemma ComposedAs<A(!new), B(!new), C(!new)>(f: seq<A> -> seq<B>, r1: nat, g: seq<B> -> seq<C>, r2: nat,
                                              h: seq<A> -> seq<C>)
    requires Local(f, r1) && Local(g, r2) && forall x :: h(x) == g(f(x))
    ensures Local(h, r1 + r2 - 1)
  {
    LocalComposes(f, r1, g, r2);
    assert forall x :: h(x) == (s => g(f(s)))(x);
  }

  lemma ReturnsAreLocal(s: Setup)
    ensures Local((b: seq<Bar>) => Returns(s, b), 2)
  {}

  lemma LogsAreLocal(s: Setup)
    ensures Local((b: seq<Bar>) => Logs(s, b), 1)
  {}

  lemma ClosesAreLocal()
    ensures Local((b: seq<Bar>) => Somes(Closes(b)), 1)
  {}

  lemma TradedIsLocal()
    ensures Local((b: seq<Bar>) => TradedOf(b), 1)
  {}

  lemma FillingIsLocal()
    ensures Local((c: seq<Option<real>>) => HalfFilled(c), 1)
  {}

  lemma ScoresAreLocal(s: Setup)
    requires ValidSetup(s)
    ensures Local(PriceZ(s), s.zWindow) && Local(ObvZ(s), s.obvWindow + 1)
  {
    hide Local, Rolled, ObvChange;
    ClosesAreLocal();
    TradedIsLocal();
    RolledIsLocal(s.zScore, s.zWindow);
    ComposedAs((b: seq<Bar>) => Somes(Closes(b)), 1, (c: seq<Option<real>>) => Rolled(s.zScore, s.zWindow, c),
               s.zWindow, PriceZ(s));
    ObvChangeIsLocal();
    var change := (b: seq<Bar>) => ObvChange(TradedOf(b));
    ComposedAs((b: seq<Bar>) => TradedOf(b), 1, ObvChange, 2, change);
    RolledIsLocal(s.zScore, s.obvWindow);
    ComposedAs(change, 2, (c: seq<Option<real>>) => Rolled(s.zScore, s.obvWindow, c), s.obvWindow, ObvZ(s));
  }

  lemma VolatilityIsLocal(s: Setup)
    requires ValidSetup(s)
    ensures Local(Volatility(s), s.volWindow + 1) && Local(VolRank(s), s.volWindow + s.rankWindow)
  {
    hide Local, Rolled, Returns, HalfFilled;
    ReturnsAreLocal(s);
    FillingIsLocal();
    RolledIsLocal(s.deviation, s.volWindow);
    ComposedAs((b: seq<Bar>) => Returns(s, b), 2, (c: seq<Option<real>>) => Rolled(s.deviation, s.volWindow, c),
               s.volWindow, Volatility(s));
    RolledIsLocal(s.rank, s.rankWindow);
    var ranks := (b: seq<Bar>) => Rolled(s.rank, s.rankWindow, Volatility(s)(b));
    ComposedAs(Volatility(s), s.volWindow + 1, (c: seq<Option<real>>) => Rolled(s.rank, s.rankWindow, c),
               s.rankWindow, ranks);
    ComposedAs(ranks, s.volWindow + s.rankWindow, (c: seq<Option<real>>) => HalfFilled(c), 1, VolRank(s));
  }

  lemma FracIsLocal(s: Setup)
    requires ValidSetup(s)
    ensures Local(Frac(s), s.fracWindow)
  {
    hide Local, FracdiffRow, Logs;
    LogsAreLocal(s);
    FracdiffIsLocal(s.fracD, s.fracWindow);
    ComposedAs((b: seq<Bar>) => Logs(s, b), 1, (c: seq<real>) => FracdiffRow(s.fracD, s.fracWindow, c), s.fracWindow,
               Frac(s));
  }

  // ---------------------------------------------------------------- columns of finite width

  /** The buffer holds the bars that every column of finite width, and Wilder's warm-up, needs. */
  predicate Fits(s: Setup, cap: nat) {
    && s.atrPeriod <= cap && 2 <= cap && s.zWindow <= cap && s.obvWindow + 1 <= cap
    && s.volWindow + s.rankWindow <= cap && s.volWindow + 1 <= cap && s.fracWindow <= cap
  }

  /** The engine's own buffer does: its warm-up is at least every window plus two. */
  lemma CapacityFits(s: Setup, warmup: nat)
    requires s.atrPeriod + 2 <= warmup && s.zWindow + 2 <= warmup && s.obvWindow + 2 <= warmup
    requires s.volWindow + 2 <= warmup && s.rankWindow + 2 <= warmup && s.fracWindow + 2 <= warmup
    ensures Fits(s, Capacity(warmup))
  {}

  /** The newest value of a column. */
  function Newest(f: Column, bars: seq<Bar>): Option<real>
    requires bars != []
  {
    CellAt(f, bars, |bars| - 1)
  }

  lemma LocalIsSame(f: Column, r: nat, history: seq<Bar>, cap: nat)
    requires Local(f, r) && r <= cap && 1 <= cap && history != []
    ensures Newest(f, LastOf(history, cap)) == Newest(f, history)
  {
    if |history| > cap { LocalFeatureIsExact(f, r, history, cap); }
  }

  // ---------------------------------------------------------------- smoothed columns

  predicate ProperBars(bars: seq<Bar>) {
    forall t :: 0 <= t < |bars| ==> bars[t].low <= bars[t].high
  }

  /** The true ranges of the buffer are those of the history but for the first, which has lost its
      previous close and is no larger. */
  lemma BufferRanges(history: seq<Bar>, cap: nat)
    requires 1 <= cap < |history|
    ensures var cut, buffer := |history| - cap, TrueRanges(LastOf(history, cap));
            && buffer[1..] == TrueRanges(history)[cut + 1..]
            && buffer[0] == history[cut].high - history[cut].low <= TrueRanges(history)[cut]
  {
    var cut, buffer := |history| - cap, LastOf(history, cap);
    forall t: nat | 1 <= t < cap ensures TrueRange(buffer, t) == TrueRange(history, cut + t) {}
  }

  /** Live ATR is defined exactly when the history's is, and off by at most the largest true range, faded
      once for every further bar in the buffer. */
  lemma AtrIsClose(s: Setup, history: seq<Bar>, cap: nat, widest: real)
    requires ValidSetup(s) && history != [] && s.atrPeriod <= cap && ProperBars(history)
    requires Within(TrueRanges(history), 0.0, widest)
    ensures var live, batch := Newest(Atr(s), LastOf(history, cap)), Newest(Atr(s), history);
            && (live.Some? <==> batch.Some?)
            && (|history| <= cap ==> live == batch)
            && (|history| > cap ==>
                  && batch.Some?
                  && Abs(live.value - batch.value) <= Mul(Power(1.0 - 1.0 / s.atrPeriod as real, cap - 1), widest))
  {
    hide Power, Mul, Rma;
    if |history| > cap {
      var buffer, cut := LastOf(history, cap), |history| - cap;
      BufferRanges(history, cap);
      assert widest - 0.0 == widest;
      WilderBufferError(s.atrPeriod, TrueRanges(buffer), TrueRanges(history), cut, 0.0, widest);
      NewestAtr(s, buffer);
      NewestAtr(s, history);
    }
  }

  lemma NewestAtr(s: Setup, bars: seq<Bar>)
    requires ValidSetup(s) && bars != []
    ensures Newest(Atr(s), bars) == Rma(s.atrPeriod, TrueRanges(bars))
  {
    hide Rma;
    assert TrueRanges(bars)[..|bars|] == TrueRanges(bars);
  }

  lemma NewestTrend(s: Setup, bars: seq<Bar>)
    requires bars != []
    ensures Newest(Trend(s), bars)
            == Some(Sign(bars[|bars| - 1].close - Ema(SpanAlpha(s.trendEma), Closes(bars))) as real)
  {
    hide Ema;
    assert Closes(bars)[..|bars|] == Closes(bars);
  }

  lemma SpanRange(span: nat)
    requires span >= 1
    ensures 0.0 <= SpanAlpha(span) <= 1.0
  {
    var n := span as real + 1.0;
    QuotientTimes(2.0, n);
    ProductSign(SpanAlpha(span), n);
    if SpanAlpha(span) > 1.0 { ProductPositive(SpanAlpha(span) - 1.0, n); }
  }

  lemma SameSign(x: real, y: real, bound: real)
    requires Abs(x - y) <= bound < Abs(y)
    ensures Sign(x) == Sign(y)
  {}

  /** The live trend sign is the history's wherever the close is further from the average than the faded
      range of the closes. */
  lemma TrendIsSame(s: Setup, history: seq<Bar>, cap: nat, lo: real, hi: real)
    requires s.trendEma >= 1 && history != [] && 1 <= cap && Within(Closes(history), lo, hi)
    ensures var live, batch := Newest(Trend(s), LastOf(history, cap)), Newest(Trend(s), history);
            var alpha := SpanAlpha(s.trendEma);
            && live.Some? && batch.Some?
            && (|history| <= cap
                || Abs(history[|history| - 1].close - Ema(alpha, Closes(history)))
                   > Mul(Power(1.0 - alpha, cap - 1), hi - lo)
                ==> live == batch)
  {
    hide Power, Mul, Ema, SpanAlpha, Sign, Abs;
    NewestTrend(s, LastOf(history, cap));
    NewestTrend(s, history);
    if |history| > cap {
      var alpha, cut, buffer := SpanAlpha(s.trendEma), |history| - cap, Closes(LastOf(history, cap));
      assert buffer == Closes(history)[cut..];
      SpanRange(s.trendEma);
      BufferError(alpha, buffer, Closes(history), cut, lo, hi);
      var close, ema, full := history[|history| - 1].close, Ema(alpha, buffer), Ema(alpha, Closes(history));
      var bound := Mul(Power(1.0 - alpha, cap - 1), hi - lo);
      Mirrored(ema - full);
      assert (close - ema) - (close - full) == -(ema - full);
      if Abs(close - full) > bound { SameSign(close - ema, close - full, bound); }
    }
  }

  lemma Mirrored(x: real)
    ensures Abs(-x) == Abs(x)
  {}

  // ---------------------------------------------------------------- the row

  /** The row of the newest bar. */
  function NewestRow(s: Setup, bars: seq<Bar>): Strategy.Row
    requires ValidSetup(s) && bars != []
  {
    RowAt(SourceLayout(s), bars, |bars| - 1)
  }

  /** Rows whose columns agree where they are exact, and are defined alike elsewhere. */
  lemma RowsAlike(l: Layout, n: nat, a: seq<Bar>, b: seq<Bar>)
    requires a != [] && b != [] && n <= |l.features|
    requires Newest(l.atr, a).Some? <==> Newest(l.atr, b).Some?
    requires Newest(l.trend, a).Some? && Newest(l.trend, b).Some? && Newest(l.volPct, a) == Newest(l.volPct, b)
    requires forall j :: 0 <= j < n ==> Newest(l.features[j], a) == Newest(l.features[j], b)
    requires forall j :: n <= j < |l.features| ==> Newest(l.features[j], a).Some? && Newest(l.features[j], b).Some?
    ensures var x, y := RowAt(l, a, |a| - 1), RowAt(l, b, |b| - 1);
            x.valid == y.valid && x.volPct == y.volPct && x.features[..n] == y.features[..n]
  {
    hide CellAt;
    var x, y := Cells(l.features, a, |a| - 1), Cells(l.features, b, |b| - 1);
    assert forall j :: 0 <= j < |l.features| ==> x[j] == Newest(l.features[j], a) && y[j] == Newest(l.features[j], b);
    assert forall j :: 0 <= j < |l.features| ==> (x[j].Some? <==> y[j].Some?);
  }

  lemma HtfIsDefined(s: Setup, pick: Htf.Filled -> real, bars: seq<Bar>)
    requires ValidSetup(s) && bars != []
    ensures Newest(HtfColumn(s, pick), bars).Some?
  {
    hide HtfAt;
  }

  lemma HtfAreDefined(s: Setup, j: nat, bars: seq<Bar>)
    requires ValidSetup(s) && bars != [] && 5 <= j < 8
    ensures Newest(SourceLayout(s).features[j], bars).Some?
  {
    hide HtfColumn, Newest, ValidSetup, Atr, Trend, VolRank, PriceZ, ObvZ, Frac, Volatility;
    HtfIsDefined(s, (f: Htf.Filled) => f.trend, bars);
    HtfIsDefined(s, (f: Htf.Filled) => f.ret, bars);
    HtfIsDefined(s, (f: Htf.Filled) => f.rsi, bars);
  }

  /** The columns of finite width, one by one. */
  lemma FeaturesAreExact(s: Setup, history: seq<Bar>, cap: nat)
    requires ValidSetup(s) && Fits(s, cap) && history != []
    ensures Newest(VolRank(s), LastOf(history, cap)) == Newest(VolRank(s), history)
    ensures forall j :: 0 <= j < 5 ==>
              Newest(SourceLayout(s).features[j], LastOf(history, cap)) == Newest(SourceLayout(s).features[j], history)
  {
    hide Local, Atr, Trend, VolRank, PriceZ, ObvZ, Frac, Volatility, Returns, HtfColumn, Newest;
    var f := SourceLayout(s).features;
    ReturnsAreLocal(s);
    ScoresAreLocal(s);
    VolatilityIsLocal(s);
    FracIsLocal(s);
    LocalAs(b => Returns(s, b), f[0], 2);
    LocalIsSame(f[0], 2, history, cap);
    LocalIsSame(PriceZ(s), s.zWindow, history, cap);
    LocalIsSame(Frac(s), s.fracWindow, history, cap);
    LocalIsSame(ObvZ(s), s.obvWindow + 1, history, cap);
    LocalIsSame(Volatility(s), s.volWindow + 1, history, cap);
    LocalIsSame(VolRank(s), s.volWindow + s.rankWindow, history, cap);
  }

  /** Backtest/live parity of the modelled row. It is valid live exactly when it is in the backtest; return,
      price z-score, fractional difference, on-balance-volume z-score, volatility and volatility rank are
      equal; ATR is off by at most the faded largest true range; and the trend sign is equal wherever the
      close is further from its average than the faded range of the closes. */
  lemma LiveRowIsBatchRow(s: Setup, history: seq<Bar>, cap: nat, widest: real, lo: real, hi: real)
    requires ValidSetup(s) && s.trendEma >= 1 && Fits(s, cap) && history != [] && ProperBars(history)
    requires Within(TrueRanges(history), 0.0, widest) && Within(Closes(history), lo, hi)
    ensures var live, batch := NewestRow(s, LastOf(history, cap)), NewestRow(s, history);
            var alpha := SpanAlpha(s.trendEma);
            && live.valid == batch.valid && live.volPct == batch.volPct && live.features[..5] == batch.features[..5]
            && Abs(live.atr - batch.atr)
               <= (if |history| <= cap then 0.0
                   else Mul(Power(1.0 - 1.0 / s.atrPeriod as real, cap - 1), widest))
            && (|history| <= cap
                || Abs(history[|history| - 1].close - Ema(alpha, Closes(history)))
                   > Mul(Power(1.0 - alpha, cap - 1), hi - lo)
                ==> live.trend == batch.trend)
  {
    hide Local, Atr, Trend, VolRank, PriceZ, ObvZ, Frac, Volatility, Returns, HtfColumn, Power, Mul, Ema, SpanAlpha,
        Within, CellAt, ValidSetup, ProperBars;
    var buffer, l := LastOf(history, cap), SourceLayout(s);
    AtrIsClose(s, history, cap, widest);
    TrendIsSame(s, history, cap, lo, hi);
    FeaturesAreExact(s, history, cap);
    forall j | 5 <= j < 8 ensures Newest(l.features[j], buffer).Some? && Newest(l.features[j], history).Some? {
      HtfAreDefined(s, j, buffer);
      HtfAreDefined(s, j, history);
    }
    RowsAlike(l, 5, buffer, history);
  }
}
