/** A feature frame built from the modelled columns, and the backtest that runs on it. */
module FeatureFrame {
  import opened Types
  import opened Arith
  import opened Smoothing
  import opened Columns
  import opened Strategy
  import opened Backtest
  import Theorems = BacktestTheorems
  import Htf = HigherTimeframe

  type Column = seq<Bar> -> seq<Option<real>>

  /** On these bars, what the column has computed is not changed by the bars after it. */
  ghost predicate StableOn(f: Column, bars: seq<Bar>) {
    && |f(bars)| == |bars|
    && (forall k: nat :: k <= |bars| ==> f(bars[..k]) == f(bars)[..k])
  }

  /** The helper columns the engine and the regime gates read, and the model's features. */
  datatype Layout = Layout(atr: Column, trend: Column, volPct: Column, features: seq<Column>)

  ghost predicate LayoutStable(l: Layout, bars: seq<Bar>) {
    && StableOn(l.atr, bars) && StableOn(l.trend, bars) && StableOn(l.volPct, bars)
    && (forall j :: 0 <= j < |l.features| ==> StableOn(l.features[j], bars))
  }

  function CellAt(f: Column, bars: seq<Bar>, t: nat): Option<real> {
    if t < |f(bars)| then f(bars)[t] else None
  }

  function Cells(fs: seq<Column>, bars: seq<Bar>, t: nat): seq<Option<real>> {
    seq(|fs|, j requires 0 <= j < |fs| => CellAt(fs[j], bars, t))
  }

  /** A row is valid when no cell of it is undefined. */
  function RowAt(l: Layout, bars: seq<Bar>, t: nat): Row {
    var atr, trend, vol := CellAt(l.atr, bars, t), CellAt(l.trend, bars, t), CellAt(l.volPct, bars, t);
    var cells := Cells(l.features, bars, t);
    Row(atr.Some? && trend.Some? && vol.Some? && forall j :: 0 <= j < |cells| ==> cells[j].Some?,
        Htf.OrZero(atr), Htf.OrZero(trend), Htf.OrZero(vol),
            seq(|cells|, j requires 0 <= j < |cells| => Htf.OrZero(cells[j])))
  }

  function Frame(l: Layout, bars: seq<Bar>): (rows: seq<Row>)
    ensures |rows| == |bars|
  {
    seq(|bars|, t requires 0 <= t < |bars| => RowAt(l, bars, t))
  }

  lemma SameCell(f: Column, bars: seq<Bar>, k: nat, t: nat)
    requires StableOn(f, bars) && t < k <= |bars|
    ensures CellAt(f, bars[..k], t) == CellAt(f, bars, t)
  {
    assert f(bars[..k]) == f(bars)[..k];
  }

  lemma SameRow(l: Layout, bars: seq<Bar>, k: nat, t: nat)
    requires LayoutStable(l, bars) && t < k <= |bars|
    ensures RowAt(l, bars[..k], t) == RowAt(l, bars, t)
  {
    hide StableOn, CellAt;
    SameCell(l.atr, bars, k, t);
    SameCell(l.trend, bars, k, t);
    SameCell(l.volPct, bars, k, t);
    forall j | 0 <= j < |l.features| ensures CellAt(l.features[j], bars[..k], t) == CellAt(l.features[j], bars, t) {
      SameCell(l.features[j], bars, k, t);
    }
    assert Cells(l.features, bars[..k], t) == Cells(l.features, bars, t);
  }

  /** A frame of stable columns is stable. */
  lemma FrameIsStable(l: Layout, bars: seq<Bar>, k: nat)
    requires LayoutStable(l, bars) && k <= |bars|
    ensures Theorems.StableAt(b => Frame(l, b), bars, k)
  {
    hide LayoutStable, RowAt;
    forall t: nat | t < k ensures RowAt(l, bars[..k], t) == RowAt(l, bars, t) { SameRow(l, bars, k, t); }
    assert Frame(l, bars[..k]) == Frame(l, bars)[..k];
  }

  // ---------------------------------------------------------------- the modelled columns

  /** Windows and periods, and the functions taken as they come: statistics of a window, log and log ratio. */
  datatype Setup = Setup(
    atrPeriod: nat, trendEma: nat, zWindow: nat, obvWindow: nat, volWindow: nat, rankWindow: nat,
    fracD: real, fracWindow: nat, htf: Htf.Setup, grid: Htf.Grid,
    zScore: seq<real> -> real, deviation: seq<real> -> real, rank: seq<real> -> real,
    log: real -> real, logRatio: (real, real) -> real)

  ghost predicate ValidSetup(s: Setup) {
    && s.atrPeriod >= 1 && s.zWindow >= 1 && s.obvWindow >= 1 && s.volWindow >= 1 && s.rankWindow >= 1
    && s.fracWindow >= 1
    && Htf.ValidSetup(s.htf) && Htf.ValidGrid(s.grid)
  }

  function Closes(bars: seq<Bar>): (c: seq<real>)
    ensures |c| == |bars|
  {
    seq(|bars|, t requires 0 <= t < |bars| => bars[t].close)
  }

  function Somes(c: seq<real>): (o: seq<Option<real>>)
    ensures |o| == |c|
  {
    seq(|c|, t requires 0 <= t < |c| => Some(c[t]))
  }

  /** True range; the first bar has no previous close. */
  function TrueRange(bars: seq<Bar>, t: nat): real
    requires t < |bars|
  {
    var b := bars[t];
    if t == 0 then b.high - b.low
    else Max(b.high - b.low, Max(Abs(b.high - bars[t - 1].close), Abs(b.low - bars[t - 1].close)))
  }

  function TrueRanges(bars: seq<Bar>): (r: seq<real>)
    ensures |r| == |bars|
  {
    seq(|bars|, t requires 0 <= t < |bars| => TrueRange(bars, t))
  }

  function Returns(s: Setup, bars: seq<Bar>): (r: seq<Option<real>>)
    ensures |r| == |bars|
  {
    seq(|bars|, t requires 0 <= t < |bars| =>
          if t == 0 then None else Some(s.logRatio(bars[t].close, bars[t - 1].close)))
  }

  function Logs(s: Setup, bars: seq<Bar>): (r: seq<real>)
    ensures |r| == |bars|
  {
    seq(|bars|, t requires 0 <= t < |bars| => s.log(bars[t].close + EPS))
  }

  function TradedOf(bars: seq<Bar>): (r: seq<Traded>)
    ensures |r| == |bars|
  {
    seq(|bars|, t requires 0 <= t < |bars| => Traded(bars[t].close, bars[t].volume))
  }

  function TrendSigns(alpha: real, c: seq<real>): (r: seq<Option<real>>)
    ensures |r| == |c|
  {
    seq(|c|, t requires 0 <= t < |c| => Some(Sign(c[t] - Ema(alpha, c[..t + 1])) as real))
  }

  /** `fillna(0.5)` of the rank of realised volatility. */
  function HalfFilled(c: seq<Option<real>>): (r: seq<Option<real>>)
    ensures |r| == |c|
  {
    seq(|c|, t requires 0 <= t < |c| => Some(if c[t].None? then 0.5 else c[t].value))
  }

  /** The inputs of a column are computed bar by bar from the bars so far. */
  lemma InputPrefixes(s: Setup, bars: seq<Bar>, k: nat)
    requires k <= |bars|
    ensures Closes(bars[..k]) == Closes(bars)[..k] && TrueRanges(bars[..k]) == TrueRanges(bars)[..k]
    ensures Returns(s, bars[..k]) == Returns(s, bars)[..k] && Logs(s, bars[..k]) == Logs(s, bars)[..k]
    ensures TradedOf(bars[..k]) == TradedOf(bars)[..k]
  {}

  lemma FillPrefixes(alpha: real, c: seq<real>, o: seq<Option<real>>, k: nat)
    requires k <= |c| == |o|
    ensures Somes(c[..k]) == Somes(c)[..k] && HalfFilled(o[..k]) == HalfFilled(o)[..k]
    ensures TrendSigns(alpha, c[..k]) == TrendSigns(alpha, c)[..k]
  {
    hide Ema;
    forall t: nat | t < k ensures TrendSigns(alpha, c[..k])[t] == TrendSigns(alpha, c)[t] {
      assert c[..k][..t + 1] == c[..t + 1];
    }
  }

  lemma RolledPrefix(stat: seq<real> -> real, w: nat, c: seq<Option<real>>, k: nat)
    requires w >= 1 && k <= |c|
    ensures Rolled(stat, w, c[..k]) == Rolled(stat, w, c)[..k]
  {
    RolledIsLocal(stat, w);
    CausalIsPrefixStable((x: seq<Option<real>>) => Rolled(stat, w, x), c, k);
  }

  function Atr(s: Setup): Column
    requires s.atrPeriod >= 1
  {
    b => RmaColumn(s.atrPeriod, TrueRanges(b))
  }

  function Trend(s: Setup): Column { b => TrendSigns(SpanAlpha(s.trendEma), Closes(b)) }

  function Volatility(s: Setup): Column
    requires s.volWindow >= 1
  {
    b => Rolled(s.deviation, s.volWindow, Returns(s, b))
  }

  function VolRank(s: Setup): Column
    requires s.volWindow >= 1 && s.rankWindow >= 1
  {
    b => HalfFilled(Rolled(s.rank, s.rankWindow, Rolled(s.deviation, s.volWindow, Returns(s, b))))
  }

  function PriceZ(s: Setup): Column
    requires s.zWindow >= 1
  {
    b => Rolled(s.zScore, s.zWindow, Somes(Closes(b)))
  }

  function ObvZ(s: Setup): Column
    requires s.obvWindow >= 1
  {
    b => Rolled(s.zScore, s.obvWindow, ObvChange(TradedOf(b)))
  }

  function Frac(s: Setup): Column { b => FracdiffRow(s.fracD, s.fracWindow, Logs(s, b)) }

  function TicksOf(bars: seq<Bar>): (r: seq<Htf.Tick>)
    ensures |r| == |bars|
  {
    seq(|bars|, t requires 0 <= t < |bars| => Htf.Tick(bars[t].time, bars[t].close))
  }

  function HtfAt(s: Setup, bars: seq<Bar>, t: nat): Htf.Filled
    requires t < |bars| && Htf.ValidSetup(s.htf)
  {
    Htf.Column(Htf.Indicators(s.htf, s.logRatio), s.grid, TicksOf(bars), t)
  }

  function HtfColumn(s: Setup, pick: Htf.Filled -> real): Column
    requires Htf.ValidSetup(s.htf)
  {
    (b: seq<Bar>) => seq(|b|, t requires 0 <= t < |b| => Some(pick(HtfAt(s, b, t))))
  }

  function SourceLayout(s: Setup): Layout
    requires ValidSetup(s)
  {
    Layout(Atr(s), Trend(s), VolRank(s),
           [b => Returns(s, b), PriceZ(s), Frac(s), ObvZ(s), Volatility(s),
            HtfColumn(s, (f: Htf.Filled) => f.trend), HtfColumn(s, (f: Htf.Filled) => f.ret),
            HtfColumn(s, (f: Htf.Filled) => f.rsi)])
  }

  lemma AtrIsStable(s: Setup, bars: seq<Bar>)
    requires s.atrPeriod >= 1
    ensures StableOn(Atr(s), bars)
  {
    hide RmaColumn, TrueRanges, Causal;
    RmaLength(s.atrPeriod, TrueRanges(bars));
    forall k: nat | k <= |bars| ensures Atr(s)(bars[..k]) == Atr(s)(bars)[..k] {
      InputPrefixes(s, bars, k);
      SmoothedIsCausal(0.0, s.atrPeriod);
      CausalIsPrefixStable((c: seq<real>) => RmaColumn(s.atrPeriod, c), TrueRanges(bars), k);
    }
  }

  lemma RmaLength(period: nat, c: seq<real>)
    requires period >= 1
    ensures |RmaColumn(period, c)| == |c|
  {}

  lemma TrendIsStable(s: Setup, bars: seq<Bar>)
    ensures StableOn(Trend(s), bars)
  {
    hide TrendSigns, Closes;
    forall k: nat | k <= |bars| ensures Trend(s)(bars[..k]) == Trend(s)(bars)[..k] {
      InputPrefixes(s, bars, k);
      FillPrefixes(SpanAlpha(s.trendEma), Closes(bars), Somes(Closes(bars)), k);
    }
  }

  lemma VolatilityIsStable(s: Setup, bars: seq<Bar>)
    requires s.volWindow >= 1 && s.rankWindow >= 1
    ensures StableOn(Volatility(s), bars) && StableOn(VolRank(s), bars)
  {
    hide Rolled, Returns, HalfFilled;
    forall k: nat | k <= |bars|
      ensures Volatility(s)(bars[..k]) == Volatility(s)(bars)[..k] && VolRank(s)(bars[..k]) == VolRank(s)(bars)[..k]
    {
      var ret := Returns(s, bars);
      var vol := Rolled(s.deviation, s.volWindow, ret);
      InputPrefixes(s, bars, k);
      RolledPrefix(s.deviation, s.volWindow, ret, k);
      RolledPrefix(s.rank, s.rankWindow, vol, k);
      FillPrefixes(0.0, Closes(bars), Rolled(s.rank, s.rankWindow, vol), k);
    }
  }

  lemma ScoresAreStable(s: Setup, bars: seq<Bar>)
    requires s.zWindow >= 1 && s.obvWindow >= 1 && s.fracWindow >= 1
    ensures StableOn(PriceZ(s), bars) && StableOn(ObvZ(s), bars) && StableOn(Frac(s), bars)
    ensures StableOn(b => Returns(s, b), bars)
  {
    hide Rolled, Closes, Somes, ObvChange, TradedOf, FracdiffRow, Logs, Returns;
    forall k: nat | k <= |bars|
      ensures PriceZ(s)(bars[..k]) == PriceZ(s)(bars)[..k] && ObvZ(s)(bars[..k]) == ObvZ(s)(bars)[..k]
      ensures Frac(s)(bars[..k]) == Frac(s)(bars)[..k] && Returns(s, bars[..k]) == Returns(s, bars)[..k]
    {
      InputPrefixes(s, bars, k);
      FillPrefixes(0.0, Closes(bars), Somes(Closes(bars)), k);
      RolledPrefix(s.zScore, s.zWindow, Somes(Closes(bars)), k);
      ObvChangeIsLocal();
      CausalIsPrefixStable(ObvChange, TradedOf(bars), k);
      RolledPrefix(s.zScore, s.obvWindow, ObvChange(TradedOf(bars)), k);
      FracdiffIsLocal(s.fracD, s.fracWindow);
      CausalIsPrefixStable((c: seq<real>) => FracdiffRow(s.fracD, s.fracWindow, c), Logs(s, bars), k);
    }
  }

  /** The order the backtester sorts its bars into. */
  predicate TimeOrdered(bars: seq<Bar>) {
    forall j, k :: 0 <= j <= k < |bars| ==> bars[j].time <= bars[k].time
  }

  lemma HtfCellIsStable(s: Setup, bars: seq<Bar>, k: nat, t: nat)
    requires ValidSetup(s) && TimeOrdered(bars) && t < k <= |bars|
    ensures HtfAt(s, bars[..k], t) == HtfAt(s, bars, t)
  {
    hide Htf.Column, Htf.ValidGrid;
    var f := Htf.Indicators(s.htf, s.logRatio);
    Htf.IndicatorsNeedTwo(s.htf, s.logRatio);
    assert TicksOf(bars[..k])[..t + 1] == TicksOf(bars)[..t + 1];
    Htf.TruncationChangesNothing(f, s.grid, TicksOf(bars), t);
    Htf.TruncationChangesNothing(f, s.grid, TicksOf(bars[..k]), t);
  }

  lemma HtfIsStable(s: Setup, pick: Htf.Filled -> real, bars: seq<Bar>)
    requires ValidSetup(s) && TimeOrdered(bars)
    ensures StableOn(HtfColumn(s, pick), bars)
  {
    hide HtfAt;
    forall k: nat | k <= |bars| ensures HtfColumn(s, pick)(bars[..k]) == HtfColumn(s, pick)(bars)[..k] {
      forall t: nat | t < k ensures HtfAt(s, bars[..k], t) == HtfAt(s, bars, t) { HtfCellIsStable(s, bars, k, t); }
    }
  }

  /** Every modelled column, on time-ordered bars. */
  lemma SourceLayoutIsStable(s: Setup, bars: seq<Bar>)
    requires ValidSetup(s) && TimeOrdered(bars)
    ensures LayoutStable(SourceLayout(s), bars)
  {
    hide StableOn, Atr, Trend, VolRank, Volatility, PriceZ, ObvZ, Frac, HtfColumn, TimeOrdered, Htf.ValidGrid;
    AtrIsStable(s, bars);
    TrendIsStable(s, bars);
    VolatilityIsStable(s, bars);
    ScoresAreStable(s, bars);
    HtfIsStable(s, (f: Htf.Filled) => f.trend, bars);
    HtfIsStable(s, (f: Htf.Filled) => f.ret, bars);
    HtfIsStable(s, (f: Htf.Filled) => f.rsi, bars);
  }

  /** No look-ahead of a backtest on the modelled columns: two time-ordered series that agree on their
      first `k` bars, and in which no valid later row repeats one of their timestamps, are in the same
      state after `k` bars, whatever the row-wise predictor. */
  lemma SourceFrameDoesNotLookAhead(cfg: Settings, strat: StrategyConfig, predict: Row -> Prediction, s: Setup,
                                    xs: seq<Bar>, ys: seq<Bar>, k: nat)
    requires ValidSetup(s) && TimeOrdered(xs) && TimeOrdered(ys)
    requires k <= |xs| && k <= |ys| && xs[..k] == ys[..k]
    requires Theorems.NoRepeat(xs, Frame(SourceLayout(s), xs), k)
            && Theorems.NoRepeat(ys, Frame(SourceLayout(s), ys), k)
    ensures var fx, fy := Frame(SourceLayout(s), xs), Frame(SourceLayout(s), ys);
            Theorems.After(cfg, strat, Table(Times(xs), fx, predict), xs, fx, k)
            == Theorems.After(cfg, strat, Table(Times(ys), fy, predict), ys, fy, k)
  {
    hide TimeOrdered, LayoutStable, Theorems.NoRepeat, Theorems.Settled, Theorems.After, Frame, SourceLayout,
        Htf.ValidGrid;
    var l := SourceLayout(s);
    SourceLayoutIsStable(s, xs);
    SourceLayoutIsStable(s, ys);
    FrameIsStable(l, xs, k);
    FrameIsStable(l, ys, k);
    Theorems.NoRepeatSettles(xs, Frame(l, xs), k);
    Theorems.NoRepeatSettles(ys, Frame(l, ys), k);
    Theorems.NoLookAhead(cfg, strat, predict, b => Frame(l, b), xs, ys, k);
  }
}
