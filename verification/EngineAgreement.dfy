/** What is backtested is what is traded: a paper engine and the backtester fed the same signals go through
    the same trades exactly while every queued order meets a bar that opens at the last close. */
module EngineAgreement {
  import opened Types
  import opened Arith
  import opened PortfolioModel
  import opened Strategy
  import opened LiveEngine
  import opened LiveTasks
  import opened PaperRefinement
  import Bt = Backtest
  import BtRuns = BacktestTheorems
  import CostModel
  import Risk

  /** Entries go to market. */
  predicate MarketEntries(cfg: Settings) {
    cfg.setup.costs.Some? ==> !cfg.setup.costs.value.limitEntries
  }

  /** The backtester's portfolio with its queued order, if any, executed at `price`. */
  function AtPrice(cfg: Settings, st: Bt.State, price: real): Book
    requires Bt.QueueCoherent(st)
  {
    if st.pending.None? then st.book
    else
      var b := Bt.ExecutePending(cfg, st.book, st.pending.value, Bar(0, price, price, price, price, 0.0));
      if b.Some? then b.value else st.book
  }

  /** The same account but for the equity curve, which the engines sample on different sides of a fill. */
  predicate SameBook(a: Book, b: Book) { a == b.(curve := a.curve) }

  /** The live engine is the backtester with its queue executed at `price`. */
  predicate Agrees(cfg: Settings, st: Bt.State, e: Eng, price: real) {
    && Bt.QueueCoherent(st) && (st.pending.Some? ==> st.pending.value.kind == Market)
    && SameBook(e.book, AtPrice(cfg, st, price))
    && e.cooldown == st.cooldown && e.tradesSeen == st.tradesSeen && !e.halted
  }

  /** A market order fills at the open, whatever else the bar does. */
  lemma OnlyTheOpenMatters(cfg: Settings, st: Bt.State, bar: Bar)
    requires Bt.QueueCoherent(st) && st.pending.Some? && st.pending.value.kind == Market
    ensures Bt.ExecutePending(cfg, st.book, st.pending.value, bar) == Some(AtPrice(cfg, st, bar.open))
  {}

  /** Both engines manage the open position on a bar alike. */
  lemma ManagedAlike(cfg: Settings, e: Eng, b: Book, bar: Bar)
    requires SameBook(e.book, b)
    ensures var e' := PaperManaged(cfg, e, bar);
            var b' := Bt.Manage(cfg, b, bar);
            && SameBook(e'.book, b') && e'.halted == e.halted
            && var traded := |b'.trades| > e.tradesSeen;
            && e'.tradesSeen == (if traded then |b'.trades| else e.tradesSeen)
            && e'.cooldown == (if traded then cfg.setup.risk.cooldownBars
                               else if e.cooldown > 0 then e.cooldown - 1 else 0)
  {
    hide BarrierExit, Excursion, ClosedTrade, CostModel.ApplyCosts;
  }

  /** What the live engine does on a signal is what the backtester queues and executes at that price. */
  lemma ActedAlike(cfg: Settings, e: Eng, st: Bt.State, bar: Bar, atr: real, signal: Option<Signal>)
    requires MarketEntries(cfg) && Bt.QueueCoherent(st)
    requires SameBook(e.book, st.book) && e.cooldown == st.cooldown && !e.halted
    requires st.pending == Bt.GenerateOrder(cfg, st.book, st.cooldown, bar, atr, signal)
    ensures st.pending.Some? ==> st.pending.value.kind == Market
    ensures var e' := PaperActed(cfg, e, bar, signal, atr);
            && SameBook(e'.book, AtPrice(cfg, st, bar.close))
            && e' == e.(book := e'.book)
  {
    hide ClosedTrade, CostModel.ApplyCosts, OpenedPosition;
    assert Equity(e.book, bar.close) == Equity(st.book, bar.close);
  }

  /** The backtester's step, seen from the queue executed at the open. */
  lemma StepFromAtPrice(cfg: Settings, st: Bt.State, bar: Bar, atr: real, signal: Option<Signal>)
    requires Bt.QueueCoherent(st) && (st.pending.Some? ==> st.pending.value.kind == Market)
    ensures var step := Bt.Step(cfg, st, bar, atr, signal);
            var managed := Bt.Manage(cfg, AtPrice(cfg, st, bar.open), bar);
            var traded := |managed.trades| > st.tradesSeen;
            && step.Some? && Bt.QueueCoherent(step.value)
            && step.value.book == Marked(managed, bar.time, bar.close)
            && step.value.tradesSeen == (if traded then |managed.trades| else st.tradesSeen)
            && step.value.cooldown == (if traded then cfg.setup.risk.cooldownBars
                                       else if st.cooldown > 0 then st.cooldown - 1 else 0)
            && step.value.pending
               == Bt.GenerateOrder(cfg, step.value.book, step.value.cooldown, bar, atr, signal)
  {
    hide Bt.Manage, Bt.GenerateOrder, Bt.ExecutePending, Bt.QueueCoherent;
    Bt.StepCoherent(cfg, st, bar, atr, signal);
    if st.pending.Some? { OnlyTheOpenMatters(cfg, st, bar); } else { EmptyQueue(cfg, st, bar.open); }
  }

  lemma EmptyQueue(cfg: Settings, st: Bt.State, price: real)
    requires Bt.QueueCoherent(st) && st.pending.None?
    ensures AtPrice(cfg, st, price) == st.book
  {}

  lemma MarkedIsSame(a: Book, b: Book, time: int, price: real)
    requires SameBook(a, b)
    ensures SameBook(a, Marked(b, time, price)) && SameBook(Marked(a, time, price), b)
  {}

  /** One bar that opens at the price the queue was executed at keeps the engines together. */
  lemma StepAgrees(cfg: Settings, st: Bt.State, e: Eng, bar: Bar, atr: real, signal: Option<Signal>)
    requires MarketEntries(cfg) && Agrees(cfg, st, e, bar.open)
    ensures Bt.Step(cfg, st, bar, atr, signal).Some?
    ensures Agrees(cfg, Bt.Step(cfg, st, bar, atr, signal).value, PaperBar(cfg, e, bar, signal, atr), bar.close)
  {
    hide Bt.Step, Bt.Manage, Bt.GenerateOrder, PaperManaged, PaperActed, AtPrice, SameBook, Marked,
         Bt.QueueCoherent;
    StepFromAtPrice(cfg, st, bar, atr, signal);
    ManagedAlike(cfg, e, AtPrice(cfg, st, bar.open), bar);
    var st', e1 := Bt.Step(cfg, st, bar, atr, signal).value, PaperManaged(cfg, e, bar);
    MarkedIsSame(e1.book, Bt.Manage(cfg, AtPrice(cfg, st, bar.open), bar), bar.time, bar.close);
    ActedAlike(cfg, e1, st', bar, atr, signal);
    var e2 := PaperActed(cfg, e1, bar, signal, atr);
    MarkedIsSame(e2.book, AtPrice(cfg, st', bar.close), bar.time, bar.close);
  }

  // ---------------------------------------------------------------- whole runs

  /** What the live engine is told when it is fed the backtest's signals. */
  function Fed(strat: StrategyConfig, table: map<int, Forecast>, bars: seq<Bar>, rows: seq<Row>): (seen: seq<Seen>)
    requires |bars| == |rows|
    ensures |seen| == |bars|
  {
    seq(|bars|, i requires 0 <= i < |bars| => Seen(SignalAt(strat, table, bars[i].time), rows[i].atr))
  }

  /** The price at which the queue of the state after `n` bars meets the market. */
  function LastPrice(bars: seq<Bar>, n: nat): real
    requires n <= |bars|
  {
    if n > 0 then bars[n - 1].close else if bars != [] then bars[0].open else 0.0
  }

  lemma StartAgrees(cfg: Settings, price: real)
    ensures Agrees(cfg, Bt.Initial(cfg), NewEng(cfg), price)
  {}

  /** The backtester after `n` bars. */
  function Tested(cfg: Settings, strat: StrategyConfig, table: map<int, Forecast>,
                  bars: seq<Bar>, rows: seq<Row>, n: nat): Bt.State
    requires n <= |bars| == |rows|
  {
    BtRuns.After(cfg, strat, table, bars, rows, n)
  }

  /** The paper engine after the same bars and signals. */
  function Traded(cfg: Settings, strat: StrategyConfig, table: map<int, Forecast>,
                  bars: seq<Bar>, rows: seq<Row>, n: nat): Eng
    requires n <= |bars| == |rows|
  {
    Followed(cfg, NewEng(cfg), bars, Fed(strat, table, bars, rows), 0, n)
  }

  /** After `n` bars the live engine is the backtester with its queued order executed at the last close. */
  predicate AgreeAt(cfg: Settings, strat: StrategyConfig, table: map<int, Forecast>,
                    bars: seq<Bar>, rows: seq<Row>, n: nat)
    requires n <= |bars| == |rows|
  {
    Agrees(cfg, Tested(cfg, strat, table, bars, rows, n), Traded(cfg, strat, table, bars, rows, n), LastPrice(bars, n))
  }

  /** Bar `i` meets no queued order, or opens where the last one closed. */
  predicate SmoothAt(cfg: Settings, strat: StrategyConfig, table: map<int, Forecast>,
                     bars: seq<Bar>, rows: seq<Row>, i: nat)
    requires i < |bars| == |rows|
  {
    Tested(cfg, strat, table, bars, rows, i).pending.Some? ==> bars[i].open == LastPrice(bars, i)
  }

  predicate Smooth(cfg: Settings, strat: StrategyConfig, table: map<int, Forecast>,
                   bars: seq<Bar>, rows: seq<Row>, n: nat)
    requires n <= |bars| == |rows|
  {
    forall i :: 0 <= i < n ==> SmoothAt(cfg, strat, table, bars, rows, i)
  }

  /** With nothing queued the price does not matter. */
  lemma AnyPrice(cfg: Settings, st: Bt.State, e: Eng, p: real, q: real)
    requires Agrees(cfg, st, e, p) && (st.pending.Some? ==> p == q)
    ensures Agrees(cfg, st, e, q)
  {
    if st.pending.None? {
      EmptyQueue(cfg, st, p);
      EmptyQueue(cfg, st, q);
    }
  }

  lemma AgreementSteps(cfg: Settings, strat: StrategyConfig, table: map<int, Forecast>,
                       bars: seq<Bar>, rows: seq<Row>, n: nat)
    requires MarketEntries(cfg) && n < |bars| == |rows|
    requires AgreeAt(cfg, strat, table, bars, rows, n) && SmoothAt(cfg, strat, table, bars, rows, n)
    ensures AgreeAt(cfg, strat, table, bars, rows, n + 1)
  {
    hide Agrees, PaperBar, Bt.Step, BtRuns.After;
    var st, e := Tested(cfg, strat, table, bars, rows, n), Traded(cfg, strat, table, bars, rows, n);
    AnyPrice(cfg, st, e, LastPrice(bars, n), bars[n].open);
    BtRuns.AfterStep(cfg, strat, table, bars, rows, n);
    StepAgrees(cfg, st, e, bars[n], rows[n].atr, SignalAt(strat, table, bars[n].time));
  }

  /** Where every queued order so far has met a bar that opens at the last close, the engines agree. */
  lemma {:induction false} SmoothAgrees(cfg: Settings, strat: StrategyConfig, table: map<int, Forecast>,
                                        bars: seq<Bar>, rows: seq<Row>, n: nat)
    requires MarketEntries(cfg) && n <= |bars| == |rows| && Smooth(cfg, strat, table, bars, rows, n)
    ensures AgreeAt(cfg, strat, table, bars, rows, n)
  {
    hide Agrees, SmoothAt;
    if n == 0 {
      StartAgrees(cfg, LastPrice(bars, 0));
    } else {
      SmoothAgrees(cfg, strat, table, bars, rows, n - 1);
      AgreementSteps(cfg, strat, table, bars, rows, n - 1);
    }
  }

  // ---------------------------------------------------------------- a gap is never made up

  /** A queued market order books one fill, costed from the price it meets. */
  lemma ExecutionBooks(cfg: Settings, st: Bt.State, price: real)
    requires Bt.QueueCoherent(st) && st.pending.Some? && st.pending.value.kind == Market
    ensures var b := AtPrice(cfg, st, price).booked;
            |b| == |st.book.booked| + 1 && st.book.booked <= b && b[|st.book.booked|].ref == price
  {
    hide ClosedTrade, CostModel.ApplyCosts, OpenedPosition;
  }

  lemma ExecutionAppends(cfg: Settings, st: Bt.State, price: real)
    requires Bt.QueueCoherent(st)
    ensures st.book.booked <= AtPrice(cfg, st, price).booked
  {
    hide ClosedTrade, CostModel.ApplyCosts, OpenedPosition;
  }

  lemma ManagementAppends(cfg: Settings, b: Book, bar: Bar)
    ensures b.booked <= Bt.Manage(cfg, b, bar).booked
  {
    hide BarrierExit, ClosedTrade, CostModel.ApplyCosts, Excursion;
  }

  lemma PaperBarAppends(cfg: Settings, e: Eng, bar: Bar, signal: Option<Signal>, atr: real)
    ensures e.book.booked <= PaperBar(cfg, e, bar, signal, atr).book.booked
  {
    hide Risk.SizeOrder, ClosedTrade, OpenedPosition, BarrierExit, Equity, CostModel.ApplyCosts, Excursion;
  }

  lemma {:induction false} TradedAppends(cfg: Settings, strat: StrategyConfig, table: map<int, Forecast>,
                                         bars: seq<Bar>, rows: seq<Row>, k: nat, n: nat)
    requires k <= n <= |bars| == |rows|
    ensures Traded(cfg, strat, table, bars, rows, k).book.booked <= Traded(cfg, strat, table, bars, rows, n).book.booked
  {
    hide PaperBar;
    if k < n {
      TradedAppends(cfg, strat, table, bars, rows, k, n - 1);
      PaperBarAppends(cfg, Traded(cfg, strat, table, bars, rows, n - 1), bars[n - 1],
                      SignalAt(strat, table, bars[n - 1].time), rows[n - 1].atr);
    }
  }

  /** The price at which a queued order meets a bar stays in the backtest's books. */
  lemma TestedKeepsPrice(cfg: Settings, strat: StrategyConfig, table: map<int, Forecast>,
                         bars: seq<Bar>, rows: seq<Row>, i: nat, n: nat)
    requires i < n <= |bars| == |rows|
    requires var st := Tested(cfg, strat, table, bars, rows, i);
             Bt.QueueCoherent(st) && st.pending.Some? && st.pending.value.kind == Market
    ensures var k, b := |Tested(cfg, strat, table, bars, rows, i).book.booked|,
                        Tested(cfg, strat, table, bars, rows, n).book.booked;
            k < |b| && b[k].ref == bars[i].open
  {
    hide BtRuns.After, Bt.Step, Bt.QueueCoherent, AtPrice, Bt.Manage, Bt.GenerateOrder;
    var st := Tested(cfg, strat, table, bars, rows, i);
    BtRuns.AfterStep(cfg, strat, table, bars, rows, i);
    StepFromAtPrice(cfg, st, bars[i], rows[i].atr, SignalAt(strat, table, bars[i].time));
    ExecutionBooks(cfg, st, bars[i].open);
    ManagementAppends(cfg, AtPrice(cfg, st, bars[i].open), bars[i]);
    BtRuns.HistoryOnlyGrows(cfg, strat, table, bars, rows, i + 1, n);
  }

  /** Once a queued order has met a gap the engines never agree again. */
  lemma GapParts(cfg: Settings, strat: StrategyConfig, table: map<int, Forecast>,
                 bars: seq<Bar>, rows: seq<Row>, i: nat, n: nat)
    requires i < n <= |bars| == |rows|
    requires AgreeAt(cfg, strat, table, bars, rows, i) && !SmoothAt(cfg, strat, table, bars, rows, i)
    ensures !AgreeAt(cfg, strat, table, bars, rows, n)
  {
    hide Tested, Traded, Bt.QueueCoherent, AtPrice;
    var st, st' := Tested(cfg, strat, table, bars, rows, i), Tested(cfg, strat, table, bars, rows, n);
    var k := |st.book.booked|;
    ExecutionBooks(cfg, st, LastPrice(bars, i));
    TradedAppends(cfg, strat, table, bars, rows, i, n);
    assert Traded(cfg, strat, table, bars, rows, n).book.booked[k].ref == LastPrice(bars, i);
    TestedKeepsPrice(cfg, strat, table, bars, rows, i, n);
    if AgreeAt(cfg, strat, table, bars, rows, n) { ExecutionAppends(cfg, st', LastPrice(bars, n)); }
  }

  /** The engines agree after `n` bars if and only if no bar before met a queued order, entry or exit, at
      another price than the last close. Bars that meet no order may open anywhere. */
  lemma {:induction false} EnginesAgreeExactly(cfg: Settings, strat: StrategyConfig, table: map<int, Forecast>,
                                               bars: seq<Bar>, rows: seq<Row>, n: nat)
    requires MarketEntries(cfg) && n <= |bars| == |rows|
    ensures AgreeAt(cfg, strat, table, bars, rows, n) <==> Smooth(cfg, strat, table, bars, rows, n)
  {
    hide AgreeAt, SmoothAt;
    if Smooth(cfg, strat, table, bars, rows, n) {
      SmoothAgrees(cfg, strat, table, bars, rows, n);
    } else {
      var i: nat := FirstGap(cfg, strat, table, bars, rows, n);
      SmoothAgrees(cfg, strat, table, bars, rows, i);
      GapParts(cfg, strat, table, bars, rows, i, n);
    }
  }

  lemma {:induction false} FirstGap(cfg: Settings, strat: StrategyConfig, table: map<int, Forecast>,
                                    bars: seq<Bar>, rows: seq<Row>, n: nat) returns (i: nat)
    requires n <= |bars| == |rows| && !Smooth(cfg, strat, table, bars, rows, n)
    ensures i < n && Smooth(cfg, strat, table, bars, rows, i) && !SmoothAt(cfg, strat, table, bars, rows, i)
  {
    hide SmoothAt;
    if Smooth(cfg, strat, table, bars, rows, n - 1) {
      i := n - 1;
    } else {
      i := FirstGap(cfg, strat, table, bars, rows, n - 1);
    }
  }

  /** In particular on a series without any gap. */
  lemma GaplessAgrees(cfg: Settings, strat: StrategyConfig, table: map<int, Forecast>,
                      bars: seq<Bar>, rows: seq<Row>, n: nat)
    requires MarketEntries(cfg) && n <= |bars| == |rows|
    requires forall i :: 0 < i < |bars| ==> bars[i].open == bars[i - 1].close
    ensures AgreeAt(cfg, strat, table, bars, rows, n)
  {
    hide Agrees;
    EnginesAgreeExactly(cfg, strat, table, bars, rows, n);
    assert Tested(cfg, strat, table, bars, rows, 0) == Bt.Initial(cfg);
  }

  /** While they agree the trades are the same: the live engine has booked the backtest's, and at most the
      one exit that the backtester still has queued. */
  lemma TradesAgree(cfg: Settings, strat: StrategyConfig, table: map<int, Forecast>, bars: seq<Bar>, rows: seq<Row>,
                    n: nat)
    requires MarketEntries(cfg) && n <= |bars| == |rows| && Smooth(cfg, strat, table, bars, rows, n)
    ensures var st := Tested(cfg, strat, table, bars, rows, n);
            var live := Traded(cfg, strat, table, bars, rows, n).book;
            && st.book.trades <= live.trades
            && |live.trades| == |st.book.trades| + (if st.pending.Some? && st.pending.value.isExit then 1 else 0)
            && (st.pending.None? ==> live.realized == st.book.realized && live.position == st.book.position)
  {
    hide Tested, Traded, Smooth, ClosedTrade, CostModel.ApplyCosts;
    SmoothAgrees(cfg, strat, table, bars, rows, n);
  }

  /** And the live run is one of the schedules of the interleaved engine, which therefore agrees with the
      backtester exactly then. */
  lemma BacktestIsASchedule(cfg: Settings, strat: StrategyConfig, table: map<int, Forecast>,
                            bars: seq<Bar>, rows: seq<Row>, n: nat)
    requires MarketEntries(cfg) && cfg.paper && n <= |bars| == |rows| && Increasing(bars)
    ensures Agrees(cfg, Tested(cfg, strat, table, bars, rows, n),
                   Reached(cfg, Schedule(cfg, bars, Fed(strat, table, bars, rows), n)).eng, LastPrice(bars, n))
            <==> Smooth(cfg, strat, table, bars, rows, n)
  {
    hide Agrees, Tested, Followed, Schedule, Reached, Smooth;
    EnginesAgreeExactly(cfg, strat, table, bars, rows, n);
    PaperRunIsASchedule(cfg, bars, Fed(strat, table, bars, rows), n);
  }

  // ---------------------------------------------------------------- gaps and limits part them

  /** A queued market entry fills at the live engine's price exactly when the next bar opens at the last
      close. */
  lemma GapMovesTheEntry(cfg: Settings, st: Bt.State, open: real, close: real)
    requires Bt.QueueCoherent(st) && st.pending.Some? && !st.pending.value.isExit
    requires st.pending.value.kind == Market && GoodCosts(cfg.exec) && st.book.position.None?
    ensures AtPrice(cfg, st, open).position.Some? && AtPrice(cfg, st, close).position.Some?
    ensures AtPrice(cfg, st, open).position.value.entryPrice == AtPrice(cfg, st, close).position.value.entryPrice
            <==> open == close
  {
    hide CostModel.ApplyCosts;
    EntryPrice(cfg, st, open);
    EntryPrice(cfg, st, close);
    SlippedIsInjective(st.pending.value.side, open, close, Slip(cfg.exec));
  }

  /** So does a queued exit: the trade it books leaves at the live engine's price exactly then. */
  lemma GapMovesTheExit(cfg: Settings, st: Bt.State, open: real, close: real)
    requires Bt.QueueCoherent(st) && st.pending.Some? && st.pending.value.isExit && GoodCosts(cfg.exec)
    ensures var n := |st.book.trades|;
            && |AtPrice(cfg, st, open).trades| == |AtPrice(cfg, st, close).trades| == n + 1
            && (AtPrice(cfg, st, open).trades[n].exitPrice == AtPrice(cfg, st, close).trades[n].exitPrice
                <==> open == close)
  {
    hide CostModel.ApplyCosts;
    ExitPrice(cfg, st, open);
    ExitPrice(cfg, st, close);
    SlippedIsInjective(st.pending.value.side, open, close, Slip(cfg.exec));
  }

  /** A limit entry, which the paper engine fills at the close at once, leaves both engines with the same
      position, and the same account, exactly when it is posted at that close and the next bar touches it. */
  lemma LimitEntriesAgreeExactly(cfg: Settings, st: Bt.State, e: Eng, last: Bar, next: Bar)
    requires Bt.QueueCoherent(st) && st.pending.Some? && !st.pending.value.isExit && st.pending.value.kind == Limit
    requires st.book.position.None? && SameBook(e.book, st.book)
    ensures var order := st.pending.value;
            var tested := Bt.ExecutePending(cfg, st.book, order, next);
            var traded := PaperEntry(cfg, e, order, last);
            var reached := if order.side == Long then next.low <= order.limitPrice else next.high >= order.limitPrice;
            && tested.Some? && traded.Some?
            && (tested.value.position == traded.value.book.position <==> reached && order.limitPrice == last.close)
            && (SameBook(traded.value.book, tested.value) <==> reached && order.limitPrice == last.close)
  {}

  /** A sized limit entry is posted at the close exactly when its offset is zero. */
  lemma PostedAtTheClose(setup: RiskSetup, signal: Signal, bar: Bar, atr: real, equity: real)
    requires Risk.SizeOrder(setup, signal, bar, atr, equity, false).Some? && bar.close > 0.0
    requires setup.costs.Some? && setup.costs.value.limitEntries
    ensures var order := Risk.SizeOrder(setup, signal, bar, atr, equity, false).value;
            order.kind == Limit && (order.limitPrice == bar.close <==> setup.costs.value.limitOffsetBps == 0.0)
  {
    var offset := setup.costs.value.limitOffsetBps / 10000.0;
    var factor := Signed(signal.side, offset);
    Distribute(1.0, factor, bar.close);
    ProductSign(factor, bar.close);
    ProductSign(-factor, bar.close);
  }

  lemma EntryPrice(cfg: Settings, st: Bt.State, price: real)
    requires Bt.QueueCoherent(st) && st.pending.Some? && !st.pending.value.isExit
    requires st.pending.value.kind == Market && st.book.position.None?
    ensures AtPrice(cfg, st, price).position.Some?
    ensures AtPrice(cfg, st, price).position.value.entryPrice
            == CostModel.Slipped(st.pending.value.side, price, Slip(cfg.exec))
  {
    hide CostModel.Slipped;
  }

  lemma ExitPrice(cfg: Settings, st: Bt.State, price: real)
    requires Bt.QueueCoherent(st) && st.pending.Some? && st.pending.value.isExit
    ensures var n, b := |st.book.trades|, AtPrice(cfg, st, price);
            && |b.trades| == n + 1
            && b.trades[n].exitPrice == CostModel.Slipped(st.pending.value.side, price, Slip(cfg.exec))
  {
    hide CostModel.Slipped, Gain;
  }

  lemma SlippedIsInjective(side: Side, a: real, b: real, s: real)
    requires 0.0 <= s < 1.0
    ensures CostModel.Slipped(side, a, s) == CostModel.Slipped(side, b, s) <==> a == b
  {
    var factor := 1.0 + Signed(side, s);
    Distribute(a, b, factor);
    ProductSign(a - b, factor);
    ProductSign(b - a, factor);
    Distribute(b, a, factor);
  }
}
