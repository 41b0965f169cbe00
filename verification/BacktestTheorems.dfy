/** What holds over every run of the backtester. */
module BacktestTheorems {
  import opened Types
  import opened Arith
  import opened PortfolioModel
  import opened Strategy
  import opened Backtest
  import CostModel
  import Ledger
  import Risk

  /** The state after `k` bars. */
  function After(cfg: Settings, strat: StrategyConfig, table: map<int, Forecast>,
                 bars: seq<Bar>, rows: seq<Row>, k: nat): State
    requires k <= |bars| == |rows|
  {
    RunNeverRaises(cfg, strat, table, bars, rows, k);
    RunTo(cfg, strat, table, bars, rows, k).value
  }

  lemma AfterStep(cfg: Settings, strat: StrategyConfig, table: map<int, Forecast>,
                  bars: seq<Bar>, rows: seq<Row>, k: nat)
    requires k < |bars| == |rows|
    ensures Step(cfg, After(cfg, strat, table, bars, rows, k), bars[k], rows[k].atr,
                 SignalAt(strat, table, bars[k].time))
            == Some(After(cfg, strat, table, bars, rows, k + 1))
  {
    RunNeverRaises(cfg, strat, table, bars, rows, k + 1);
  }

  // ---------------------------------------------------------------- barrier envelope

  predicate Inside(p: Position, bar: Bar) {
    if p.side == Long then p.stopLoss < bar.low && bar.high < p.takeProfit
    else p.takeProfit < bar.low && bar.high < p.stopLoss
  }

  function Favourable(p: Position, bar: Bar): real { if p.side == Long then bar.high else bar.low }

  function Adverse(p: Position, bar: Bar): real { if p.side == Long then bar.low else bar.high }

  /** The last `barsHeld` of the `k` bars seen are the ones the position was managed on: each lay
      strictly inside the barriers and inside the recorded excursions, and the excursions are
      reached, by the entry or by one of those bars. */
  predicate HeldInside(p: Position, bars: seq<Bar>, k: nat)
    requires k <= |bars|
  {
    && p.barsHeld <= k
    && (forall m :: k - p.barsHeld <= m < k ==>
          && Inside(p, bars[m])
          && Signed(p.side, p.mfe - Favourable(p, bars[m])) >= 0.0
          && Signed(p.side, Adverse(p, bars[m]) - p.mae) >= 0.0)
    && (p.mfe == p.entryPrice || exists m :: k - p.barsHeld <= m < k && p.mfe == Favourable(p, bars[m]))
    && (p.mae == p.entryPrice || exists m :: k - p.barsHeld <= m < k && p.mae == Adverse(p, bars[m]))
  }

  predicate Enveloped(s: State, bars: seq<Bar>, k: nat)
    requires k <= |bars|
  {
    && (s.book.position.Some? ==>
          var p := s.book.position.value;
          && p.side != Flat && Ordered(p) && HeldInside(p, bars, k)
          && (p.maxHoldBars != 0 ==> p.barsHeld < p.maxHoldBars))
    && (s.pending.Some? && !s.pending.value.isExit ==>
          s.pending.value.side != Flat && s.pending.value.stopDistance > 0.0 && s.pending.value.tpDistance > 0.0)
  }

  lemma ManagedIsEnveloped(cfg: Settings, p: Position, bars: seq<Bar>, k: nat)
    requires k < |bars|
    requires p.side != Flat && Ordered(p) && HeldInside(p, bars, k)
    requires BarrierExit(Aged(p), bars[k]) == None
    ensures var q := Excursion(Aged(p), bars[k].high, bars[k].low);
            Ordered(q) && HeldInside(q, bars, k + 1) && (q.maxHoldBars != 0 ==> q.barsHeld < q.maxHoldBars)
  {
    var q := Excursion(Aged(p), bars[k].high, bars[k].low);
    SurvivorStaysOrdered(p, bars[k]);
    assert q.mfe == p.mfe || q.mfe == Favourable(q, bars[k]);
    assert q.mae == p.mae || q.mae == Adverse(q, bars[k]);
    forall m | k + 1 - q.barsHeld <= m < k + 1
      ensures Inside(q, bars[m]) && Signed(q.side, q.mfe - Favourable(q, bars[m])) >= 0.0
              && Signed(q.side, Adverse(q, bars[m]) - q.mae) >= 0.0
    {
      if m < k { assert Inside(p, bars[m]); }
    }
    if q.mfe == p.mfe && p.mfe != p.entryPrice {
      var m :| k - p.barsHeld <= m < k && p.mfe == Favourable(p, bars[m]);
      assert q.mfe == Favourable(q, bars[m]);
    }
    if q.mae == p.mae && p.mae != p.entryPrice {
      var m :| k - p.barsHeld <= m < k && p.mae == Adverse(p, bars[m]);
      assert q.mae == Adverse(q, bars[m]);
    }
  }

  lemma GeneratedEntryHasBarriers(cfg: Settings, b: Book, cooldown: nat, bar: Bar, atr: real, signal: Option<Signal>)
    requires cfg.setup.barriers.tpMult > 0.0
    ensures var o := GenerateOrder(cfg, b, cooldown, bar, atr, signal);
            o.Some? && b.position.None? ==>
              o.value.side != Flat && o.value.quantity > 0.0
              && o.value.stopDistance > 0.0 && o.value.tpDistance > 0.0
  {
    if GenerateOrder(cfg, b, cooldown, bar, atr, signal).Some? && b.position.None? {
      Risk.SizingIsTheLargestAllowed(cfg.setup, signal.value, bar, atr, Equity(b, bar.close), false, 0.0);
      ProductPositive(cfg.setup.barriers.tpMult, atr);
    }
  }

  lemma ExecutedIsEnveloped(cfg: Settings, s: State, bars: seq<Bar>, k: nat)
    requires k < |bars|
    requires QueueCoherent(s) && Enveloped(s, bars, k) && s.pending.Some?
    ensures var e := ExecutePending(cfg, s.book, s.pending.value, bars[k]);
            e.Some? && Enveloped(State(e.value, s.cooldown, s.tradesSeen, None), bars, k)
  {
    var o := s.pending.value;
    var e := ExecutePending(cfg, s.book, o, bars[k]).value;
    if s.book.position.None? && e.position.Some? {
      var ref := if o.kind == Limit then o.limitPrice else bars[k].open;
      OpenedIsOrdered(CostModel.ApplyCosts(o, ref, cfg.exec), o.stopDistance, o.tpDistance, o.maxHoldBars);
    }
  }

  lemma StepEnveloped(cfg: Settings, s: State, bars: seq<Bar>, k: nat, atr: real, signal: Option<Signal>, s': State)
    requires cfg.setup.barriers.tpMult > 0.0 && k < |bars|
    requires QueueCoherent(s) && Enveloped(s, bars, k)
    requires Step(cfg, s, bars[k], atr, signal) == Some(s')
    ensures Enveloped(s', bars, k + 1)
  {
    var executed := if s.pending.None? then s.book else ExecutePending(cfg, s.book, s.pending.value, bars[k]).value;
    if s.pending.Some? { ExecutedIsEnveloped(cfg, s, bars, k); }
    if executed.position.Some? && BarrierExit(Aged(executed.position.value), bars[k]) == None {
      ManagedIsEnveloped(cfg, executed.position.value, bars, k);
    }
    GeneratedEntryHasBarriers(cfg, s'.book, s'.cooldown, bars[k], atr, signal);
  }

  /** The envelope holds after every bar of every backtest with a positive target multiplier. */
  lemma {:induction false} RunEnveloped(cfg: Settings, strat: StrategyConfig, table: map<int, Forecast>,
                                        bars: seq<Bar>, rows: seq<Row>, k: nat)
    requires cfg.setup.barriers.tpMult > 0.0
    requires k <= |bars| == |rows|
    ensures Enveloped(After(cfg, strat, table, bars, rows, k), bars, k)
  {
    hide Step, QueueCoherent;
    if k > 0 {
      RunEnveloped(cfg, strat, table, bars, rows, k - 1);
      RunNeverRaises(cfg, strat, table, bars, rows, k - 1);
      AfterStep(cfg, strat, table, bars, rows, k - 1);
      StepEnveloped(cfg, After(cfg, strat, table, bars, rows, k - 1), bars, k - 1, rows[k - 1].atr,
                    SignalAt(strat, table, bars[k - 1].time), After(cfg, strat, table, bars, rows, k));
    }
  }

  // ---------------------------------------------------------------- cooldown spacing

  /** The queued order of `s` opens a position on `bar`. */
  predicate Opens(cfg: Settings, s: State, bar: Bar) {
    && s.pending.Some? && s.book.position.None?
    && var e := ExecutePending(cfg, s.book, s.pending.value, bar);
    && e.Some? && e.value.position.Some?
  }

  lemma {:induction false} CooldownWearsOff(cfg: Settings, strat: StrategyConfig, table: map<int, Forecast>,
                                            bars: seq<Bar>, rows: seq<Row>, i: nat, m: nat)
    requires i < m <= |bars| == |rows|
    requires |After(cfg, strat, table, bars, rows, i + 1).book.trades|
             > |After(cfg, strat, table, bars, rows, i).book.trades|
    ensures After(cfg, strat, table, bars, rows, m).cooldown >= cfg.setup.risk.cooldownBars - (m - i - 1)
  {
    hide Step;
    AfterStep(cfg, strat, table, bars, rows, m - 1);
    AllTradesSeen(cfg, strat, table, bars, rows, m - 1);
    StepCoolsDown(cfg, After(cfg, strat, table, bars, rows, m - 1), bars[m - 1], rows[m - 1].atr,
                  SignalAt(strat, table, bars[m - 1].time), After(cfg, strat, table, bars, rows, m));
    if m > i + 1 {
      CooldownWearsOff(cfg, strat, table, bars, rows, i, m - 1);
    }
  }

  lemma {:induction false} AllTradesSeen(cfg: Settings, strat: StrategyConfig, table: map<int, Forecast>,
                                         bars: seq<Bar>, rows: seq<Row>, k: nat)
    requires k <= |bars| == |rows|
    ensures After(cfg, strat, table, bars, rows, k).tradesSeen == |After(cfg, strat, table, bars, rows, k).book.trades|
  {
    hide GenerateOrder, CostModel.ApplyCosts, ClosedTrade, BarrierExit, Excursion, OpenedPosition;
    if k > 0 {
      AllTradesSeen(cfg, strat, table, bars, rows, k - 1);
      AfterStep(cfg, strat, table, bars, rows, k - 1);
    }
  }

  /** A trade closed on bar `i` keeps every later entry off until bar `i + cooldown_bars + 1`. */
  lemma CooldownSpacing(cfg: Settings, strat: StrategyConfig, table: map<int, Forecast>,
                        bars: seq<Bar>, rows: seq<Row>, i: nat, j: nat)
    requires i < j < |bars| == |rows|
    requires |After(cfg, strat, table, bars, rows, i + 1).book.trades|
             > |After(cfg, strat, table, bars, rows, i).book.trades|
    requires Opens(cfg, After(cfg, strat, table, bars, rows, j), bars[j])
    ensures j >= i + cfg.setup.risk.cooldownBars + 1
  {
    CooldownWearsOff(cfg, strat, table, bars, rows, i, j);
    AfterStep(cfg, strat, table, bars, rows, j - 1);
  }

  // ---------------------------------------------------------------- conservation

  /** Orders and positions that keep every reference price of the run positive. */
  predicate Priced(s: State) {
    && (s.book.position.Some? ==> Ledger.PositionPriced(s.book.position.value))
    && (s.pending.Some? && !s.pending.value.isExit ==>
          var o := s.pending.value;
          && o.side != Flat && o.quantity > 0.0 && o.stopDistance > 0.0 && o.tpDistance > 0.0
          && (o.kind == Limit ==> o.limitPrice > 0.0))
  }

  lemma ExecutedConserves(cfg: Settings, s: State, bar: Bar)
    requires GoodSettings(cfg) && WellFormedBar(bar) && s.pending.Some?
    requires QueueCoherent(s) && Priced(s) && Ledger.LedgerOk(s.book)
    ensures var e := ExecutePending(cfg, s.book, s.pending.value, bar);
            e.Some? && Ledger.LedgerOk(e.value) && Priced(State(e.value, s.cooldown, s.tradesSeen, None))
  {
    hide Ledger.LedgerOk, Ledger.Fair, ClosedTrade, CostModel.Slipped;
    var o := s.pending.value;
    if o.isExit {
      Ledger.CostedFillIsFair(o, bar.open, cfg.exec);
      Ledger.CloseKeepsLedger(s.book, CostModel.ApplyCosts(o, bar.open, cfg.exec), SignalExit, bar.open);
    } else if !(o.kind == Limit && !LimitTouched(o, bar)) {
      var ref := if o.kind == Limit then o.limitPrice else bar.open;
      var fill := CostModel.ApplyCosts(o, ref, cfg.exec);
      Ledger.CostedFillIsFair(o, ref, cfg.exec);
      CostModel.FillLosesItsSlippage(o, ref, cfg.exec);
      Ledger.OpenKeepsLedger(s.book, fill, o.stopDistance, o.tpDistance, o.maxHoldBars, ref);
    }
  }

  lemma ExitConserves(cfg: Settings, b: Book, p: Position, time: int, leave: Leave)
    requires GoodSettings(cfg) && b.position == Some(p) && leave.price > 0.0
    requires Ledger.LedgerOk(b) && p.side != Flat && p.quantity > 0.0
    ensures Ledger.LedgerOk(ExitAt(cfg, b, p, time, leave))
  {
    var o := ExitOrder(p, time);
    Ledger.CostedFillIsFair(o, leave.price, cfg.exec);
    Ledger.CloseKeepsLedger(b, CostModel.ApplyCosts(o, leave.price, cfg.exec), leave.reason, leave.price);
  }

  lemma ManagedConserves(cfg: Settings, s: State, bar: Bar)
    requires GoodSettings(cfg) && WellFormedBar(bar) && s.pending.None?
    requires Priced(s) && Ledger.LedgerOk(s.book)
    ensures var b := Manage(cfg, s.book, bar);
            Ledger.LedgerOk(b) && Priced(State(b, s.cooldown, s.tradesSeen, None))
  {
    if s.book.position.Some? {
      var aged := Aged(s.book.position.value);
      if BarrierExit(aged, bar).Some? {
        Ledger.ExitPricePositive(aged, bar);
        ExitConserves(cfg, s.book.(position := Some(aged)), aged, bar.time, BarrierExit(aged, bar).value);
      }
    }
  }

  lemma GeneratedOrderPriced(cfg: Settings, b: Book, cooldown: nat, bar: Bar, atr: real, signal: Option<Signal>)
    requires GoodSettings(cfg) && WellFormedBar(bar) && b.position.None?
    ensures var o := GenerateOrder(cfg, b, cooldown, bar, atr, signal);
            o.Some? && o.value.kind == Limit ==> o.value.limitPrice > 0.0
  {
    var o := GenerateOrder(cfg, b, cooldown, bar, atr, signal);
    if o.Some? && o.value.kind == Limit {
      Risk.SizingIsTheLargestAllowed(cfg.setup, signal.value, bar, atr, Equity(b, bar.close), false, 0.0);
      var offset := cfg.setup.costs.value.limitOffsetBps / 10000.0;
      ProductPositive(bar.close, 1.0 - Signed(o.value.side, offset));
    }
  }

  lemma StepConserves(cfg: Settings, s: State, bar: Bar, atr: real, signal: Option<Signal>)
    requires GoodSettings(cfg) && WellFormedBar(bar)
    requires QueueCoherent(s) && Priced(s) && Ledger.LedgerOk(s.book)
    ensures var s' := Step(cfg, s, bar, atr, signal);
            s'.Some? && Priced(s'.value) && Ledger.LedgerOk(s'.value.book)
  {
    var executed := if s.pending.None? then s.book else ExecutePending(cfg, s.book, s.pending.value, bar).value;
    if s.pending.Some? { ExecutedConserves(cfg, s, bar); }
    var mid := State(executed, s.cooldown, s.tradesSeen, None);
    ManagedConserves(cfg, mid, bar);
    StepCoherent(cfg, s, bar, atr, signal);
    var s' := Step(cfg, s, bar, atr, signal).value;
    if s'.book.position.None? {
      GeneratedEntryHasBarriers(cfg, s'.book, s'.cooldown, bar, atr, signal);
      GeneratedOrderPriced(cfg, s'.book, s'.cooldown, bar, atr, signal);
    }
  }

  lemma StepKeepsInitial(cfg: Settings, s: State, bar: Bar, atr: real, signal: Option<Signal>)
    ensures var s' := Step(cfg, s, bar, atr, signal);
            s'.Some? ==> s'.value.book.initial == s.book.initial
  {
    hide GenerateOrder, CostModel.ApplyCosts, ClosedTrade, BarrierExit, Excursion, OpenedPosition;
  }

  lemma StartKeepsLedger(cfg: Settings)
    ensures Priced(Initial(cfg)) && Ledger.LedgerOk(Initial(cfg).book)
  {}

  lemma {:induction false} RunKeepsLedger(cfg: Settings, strat: StrategyConfig, table: map<int, Forecast>,
                                          bars: seq<Bar>, rows: seq<Row>, k: nat)
    requires GoodSettings(cfg) && k <= |bars| == |rows|
    requires forall m :: 0 <= m < |bars| ==> WellFormedBar(bars[m])
    ensures var s := After(cfg, strat, table, bars, rows, k);
            Priced(s) && Ledger.LedgerOk(s.book) && s.book.initial == cfg.accountEquity
  {
    hide Step, Ledger.LedgerOk, Priced, QueueCoherent;
    if k == 0 {
      StartKeepsLedger(cfg);
    } else {
      RunKeepsLedger(cfg, strat, table, bars, rows, k - 1);
      RunNeverRaises(cfg, strat, table, bars, rows, k - 1);
      AfterStep(cfg, strat, table, bars, rows, k - 1);
      StepConserves(cfg, After(cfg, strat, table, bars, rows, k - 1), bars[k - 1], rows[k - 1].atr,
                    SignalAt(strat, table, bars[k - 1].time));
      StepKeepsInitial(cfg, After(cfg, strat, table, bars, rows, k - 1), bars[k - 1], rows[k - 1].atr,
                       SignalAt(strat, table, bars[k - 1].time));
    }
  }

  /** Cost conservation of a whole backtest: after the forced liquidation the account is flat, and
      final equity is initial equity plus frictionless profit minus all slippage and all fees,
      and also initial equity plus all net trade profits minus the entry fees. */
  lemma BacktestConservesCosts(cfg: Settings, strat: StrategyConfig, table: map<int, Forecast>,
                               bars: seq<Bar>, rows: seq<Row>)
    requires GoodSettings(cfg) && |bars| == |rows|
    requires forall m :: 0 <= m < |bars| ==> WellFormedBar(bars[m])
    ensures var b := ForceClosed(cfg, After(cfg, strat, table, bars, rows, |bars|).book, bars);
            && b.position.None?
            && b.realized == cfg.accountEquity + Ledger.FrictionlessPnl(b.booked)
                             - Ledger.TotalSlippage(b.booked) - Ledger.TotalFees(b.booked)
            && b.realized == cfg.accountEquity + Ledger.TotalNet(b.trades) - Ledger.EntryFees(b.booked)
            && |b.booked| == 2 * |b.trades|
  {
    var s := After(cfg, strat, table, bars, rows, |bars|);
    RunKeepsLedger(cfg, strat, table, bars, rows, |bars|);
    var b := ForceClosed(cfg, s.book, bars);
    if bars != [] && s.book.position.Some? {
      var last := bars[|bars| - 1];
      ExitConserves(cfg, s.book, s.book.position.value, last.time, Leave(EndOfData, last.close));
    }
    Ledger.FlatLedger(b);
  }

  // ---------------------------------------------------------------- no look-ahead

  /** The first `k` rows of the frame over `bars` are the frame over the first `k` bars. */
  ghost predicate StableAt(frame: seq<Bar> -> seq<Row>, bars: seq<Bar>, k: nat) {
    k <= |bars| == |frame(bars)| && frame(bars[..k]) == frame(bars)[..k]
  }

  /** Row `i` of the frame is a function of bars `0..i` only. */
  ghost predicate PrefixStable(frame: seq<Bar> -> seq<Row>) {
    forall bars: seq<Bar>, k: nat :: k <= |bars| ==> StableAt(frame, bars, k)
  }

  /** Later rows leave the last valid row of each of the first `k` timestamps alone. */
  predicate Settled(bars: seq<Bar>, rows: seq<Row>, k: nat)
    requires k <= |bars| == |rows|
  {
    forall i :: 0 <= i < k ==>
      LastValid(Times(bars), rows, bars[i].time) == LastValid(Times(bars)[..k], rows[..k], bars[i].time)
  }

  /** No valid row after the `k`-th carries the timestamp of one of the first `k` bars. */
  predicate NoRepeat(bars: seq<Bar>, rows: seq<Row>, k: nat)
    requires k <= |bars| == |rows|
  {
    forall i, m :: 0 <= i < k <= m < |bars| && rows[m].valid ==> bars[m].time != bars[i].time
  }

  lemma NoRepeatSettles(bars: seq<Bar>, rows: seq<Row>, k: nat)
    requires k <= |bars| == |rows| && NoRepeat(bars, rows, k)
    ensures Settled(bars, rows, k)
  {
    forall i | 0 <= i < k
      ensures LastValid(Times(bars), rows, bars[i].time) == LastValid(Times(bars)[..k], rows[..k], bars[i].time)
    {
      UnrepeatedTimeIgnoresLaterRows(Times(bars), rows, k, bars[i].time);
    }
  }

  lemma SameSignals(strat: StrategyConfig, predict: Row -> Prediction, frame: seq<Bar> -> seq<Row>,
                    bars: seq<Bar>, k: nat, i: nat)
    requires i < k && StableAt(frame, bars, k) && Settled(bars, frame(bars), k)
    ensures SignalAt(strat, Table(Times(bars), frame(bars), predict), bars[i].time)
            == SignalAt(strat, Table(Times(bars[..k]), frame(bars[..k]), predict), bars[i].time)
  {
    var times, rows := Times(bars), frame(bars);
    assert Times(bars[..k]) == times[..k] && frame(bars[..k]) == rows[..k];
    TableServesLastValid(times, rows, predict, bars[i].time);
    TableServesLastValid(times[..k], rows[..k], predict, bars[i].time);
  }

  lemma {:induction false} PrefixRun(cfg: Settings, strat: StrategyConfig, predict: Row -> Prediction,
                                     frame: seq<Bar> -> seq<Row>, bars: seq<Bar>, k: nat, m: nat)
    requires m <= k && StableAt(frame, bars, k) && Settled(bars, frame(bars), k)
    ensures RunTo(cfg, strat, Table(Times(bars), frame(bars), predict), bars, frame(bars), m)
            == RunTo(cfg, strat, Table(Times(bars[..k]), frame(bars[..k]), predict), bars[..k], frame(bars[..k]), m)
  {
    hide Step, Settled;
    if m > 0 {
      PrefixRun(cfg, strat, predict, frame, bars, k, m - 1);
      SameSignals(strat, predict, frame, bars, k, m - 1);
    }
  }

  /** Two backtests whose inputs agree on the first `k` bars, and in which no later row changes what
      their timestamps are served, are in identical states after `k` bars: portfolio, trades, equity
      curve, cooldown and queued order. */
  lemma NoLookAhead(cfg: Settings, strat: StrategyConfig, predict: Row -> Prediction,
                    frame: seq<Bar> -> seq<Row>, xs: seq<Bar>, ys: seq<Bar>, k: nat)
    requires StableAt(frame, xs, k) && StableAt(frame, ys, k) && xs[..k] == ys[..k]
    requires Settled(xs, frame(xs), k) && Settled(ys, frame(ys), k)
    ensures After(cfg, strat, Table(Times(xs), frame(xs), predict), xs, frame(xs), k)
            == After(cfg, strat, Table(Times(ys), frame(ys), predict), ys, frame(ys), k)
  {
    PrefixRun(cfg, strat, predict, frame, xs, k, k);
    PrefixRun(cfg, strat, predict, frame, ys, k, k);
  }

  lemma StepOnlyAppends(cfg: Settings, s: State, bar: Bar, atr: real, signal: Option<Signal>, s': State)
    requires Step(cfg, s, bar, atr, signal) == Some(s')
    ensures s.book.trades <= s'.book.trades && s.book.booked <= s'.book.booked
    ensures s.book.curve <= s'.book.curve && |s'.book.curve| == |s.book.curve| + 1
  {}

  /** What a run has recorded is never rewritten by later bars, and every bar adds one equity sample. */
  lemma {:induction false} HistoryOnlyGrows(cfg: Settings, strat: StrategyConfig, table: map<int, Forecast>,
                                            bars: seq<Bar>, rows: seq<Row>, k: nat, n: nat)
    requires k <= n <= |bars| == |rows|
    ensures After(cfg, strat, table, bars, rows, k).book.trades <= After(cfg, strat, table, bars, rows, n).book.trades
    ensures After(cfg, strat, table, bars, rows, k).book.booked <= After(cfg, strat, table, bars, rows, n).book.booked
    ensures After(cfg, strat, table, bars, rows, k).book.curve <= After(cfg, strat, table, bars, rows, n).book.curve
    ensures |After(cfg, strat, table, bars, rows, n).book.curve|
            == |After(cfg, strat, table, bars, rows, k).book.curve| + n - k
  {
    if k < n {
      HistoryOnlyGrows(cfg, strat, table, bars, rows, k, n - 1);
      AfterStep(cfg, strat, table, bars, rows, n - 1);
      StepOnlyAppends(cfg, After(cfg, strat, table, bars, rows, n - 1), bars[n - 1], rows[n - 1].atr,
                      SignalAt(strat, table, bars[n - 1].time), After(cfg, strat, table, bars, rows, n));
    }
  }

  /** Sample `k` of the curve is what liquidating the portfolio at bar `k`'s close without a fee would have
      left after that bar. */
  lemma {:induction false} SampleIsEquity(cfg: Settings, strat: StrategyConfig, table: map<int, Forecast>,
                                          bars: seq<Bar>, rows: seq<Row>, k: nat, n: nat)
    requires k < n <= |bars| == |rows|
    ensures |After(cfg, strat, table, bars, rows, n).book.curve| == n
    ensures After(cfg, strat, table, bars, rows, n).book.curve[k]
            == (bars[k].time, CashedOut(After(cfg, strat, table, bars, rows, k + 1).book, bars[k].close))
  {
    hide Step;
    HistoryOnlyGrows(cfg, strat, table, bars, rows, 0, n);
    HistoryOnlyGrows(cfg, strat, table, bars, rows, 0, k + 1);
    HistoryOnlyGrows(cfg, strat, table, bars, rows, k + 1, n);
    AfterStep(cfg, strat, table, bars, rows, k);
    StepMarks(cfg, After(cfg, strat, table, bars, rows, k), bars[k], rows[k].atr, SignalAt(strat, table, bars[k].time),
              After(cfg, strat, table, bars, rows, k + 1));
    EquityIsLiquidation(After(cfg, strat, table, bars, rows, k + 1).book, bars[k].close);
  }

  lemma StepMarks(cfg: Settings, s: State, bar: Bar, atr: real, signal: Option<Signal>, s': State)
    requires Step(cfg, s, bar, atr, signal) == Some(s')
    ensures s'.book.curve != []
    ensures s'.book.curve[|s'.book.curve| - 1] == (bar.time, Equity(s'.book, bar.close))
  {
    hide ExecutePending, Manage, GenerateOrder;
  }

  lemma StepCoolsDown(cfg: Settings, s: State, bar: Bar, atr: real, signal: Option<Signal>, s': State)
    requires Step(cfg, s, bar, atr, signal) == Some(s') && s.tradesSeen == |s.book.trades|
    ensures s'.cooldown == if |s'.book.trades| > |s.book.trades| then cfg.setup.risk.cooldownBars
                           else if s.cooldown > 0 then s.cooldown - 1 else 0
  {
    hide ExecutePending, Manage, GenerateOrder;
  }

  /** With no further trade the cooldown started on bar `i` has counted down by exactly one a bar. */
  lemma {:induction false} CooldownIsExact(cfg: Settings, strat: StrategyConfig, table: map<int, Forecast>,
                                           bars: seq<Bar>, rows: seq<Row>, i: nat, m: nat)
    requires i < m <= |bars| == |rows|
    requires |After(cfg, strat, table, bars, rows, i + 1).book.trades|
            > |After(cfg, strat, table, bars, rows, i).book.trades|
    requires |After(cfg, strat, table, bars, rows, m).book.trades|
            == |After(cfg, strat, table, bars, rows, i + 1).book.trades|
    ensures var left := cfg.setup.risk.cooldownBars - (m - i - 1);
            After(cfg, strat, table, bars, rows, m).cooldown == if left > 0 then left else 0
  {
    hide Step;
    AfterStep(cfg, strat, table, bars, rows, m - 1);
    AllTradesSeen(cfg, strat, table, bars, rows, m - 1);
    StepCoolsDown(cfg, After(cfg, strat, table, bars, rows, m - 1), bars[m - 1], rows[m - 1].atr,
                  SignalAt(strat, table, bars[m - 1].time), After(cfg, strat, table, bars, rows, m));
    if m > i + 1 {
      HistoryOnlyGrows(cfg, strat, table, bars, rows, i + 1, m - 1);
      HistoryOnlyGrows(cfg, strat, table, bars, rows, m - 1, m);
      CooldownIsExact(cfg, strat, table, bars, rows, i, m - 1);
    }
  }

  // A later bar that repeats a timestamp does change the past: the sources sort bars but
  // accept equal timestamps.

  function CloseAsFeature(bars: seq<Bar>): seq<Row> {
    seq(|bars|, i requires 0 <= i < |bars| => Row(true, 1.0, 0.0, 0.5, [bars[i].close]))
  }

  function RisingIsLong(r: Row): Prediction {
    if r.features == [100.0] then Prediction(Long, 1.0) else Prediction(Flat, 1.0)
  }

  /** With a repeated timestamp the second bar decides what is queued after the first. */
  lemma {:induction false} RepeatedTimestampLooksAhead()
    ensures PrefixStable(CloseAsFeature)
    ensures var strat := StrategyConfig(0.5, 0.5, true, false, false, 0.0, 1.0);
            var first := Bar(0, 100.0, 100.0, 100.0, 100.0, 1.0);
            var xs := [first];
            var ys := [first, Bar(0, 90.0, 90.0, 90.0, 90.0, 1.0)];
            && xs[..1] == ys[..1]
            && var rx, ry := CloseAsFeature(xs), CloseAsFeature(ys);
            && After(PLAIN, strat, Table(Times(xs), rx, RisingIsLong), xs, rx, 1).pending.Some?
            && After(PLAIN, strat, Table(Times(ys), ry, RisingIsLong), ys, ry, 1).pending.None?
  {
    var strat := StrategyConfig(0.5, 0.5, true, false, false, 0.0, 1.0);
    var first := Bar(0, 100.0, 100.0, 100.0, 100.0, 1.0);
    var xs := [first];
    var ys := [first, Bar(0, 90.0, 90.0, 90.0, 90.0, 1.0)];
    var tx := Table(Times(xs), CloseAsFeature(xs), RisingIsLong);
    var ty := Table(Times(ys), CloseAsFeature(ys), RisingIsLong);
    TableServesLastValid(Times(xs), CloseAsFeature(xs), RisingIsLong, 0);
    TableServesLastValid(Times(ys), CloseAsFeature(ys), RisingIsLong, 0);
    AfterStep(PLAIN, strat, tx, xs, CloseAsFeature(xs), 0);
    AfterStep(PLAIN, strat, ty, ys, CloseAsFeature(ys), 0);
    assert SignalAt(strat, tx, 0) == Some(Signal(Long, 1.0));
    assert SignalAt(strat, ty, 0) == None;
    var b := After(PLAIN, strat, tx, xs, CloseAsFeature(xs), 1).book;
    assert Equity(b, 100.0) == 1000.0;
    Risk.QuantityIsLargest(PLAIN.setup.risk, 100.0, 1000.0, 1.0, 1.0);
  }
}
