/** The event-driven backtester: fills at the next bar's open, one queued order at a time. */
module Backtest {
  import opened Types
  import opened PortfolioModel
  import opened Strategy
  import CostModel
  import Risk

  /** Everything the event loop carries from one bar to the next. */
  datatype State = State(book: Book, cooldown: nat, tradesSeen: nat, pending: Option<Order>)

  function Initial(cfg: Settings): State {
    State(EmptyBook(cfg.accountEquity), 0, 0, None)
  }

  function ExitAt(cfg: Settings, b: Book, p: Position, time: int, leave: Leave): Book
    requires b.position == Some(p)
  {
    Close(b, CostModel.ApplyCosts(ExitOrder(p, time), leave.price, cfg.exec), leave.reason, leave.price).value
  }

  predicate LimitTouched(order: Order, bar: Bar) {
    if order.side == Long then bar.low <= order.limitPrice else bar.high >= order.limitPrice
  }

  /** Fills the queued order at the open (or at its posted limit); `None` is the portfolio's RuntimeError. */
  function ExecutePending(cfg: Settings, b: Book, order: Order, bar: Bar): Option<Book> {
    if order.isExit then
      if b.position.None? then Some(b)
      else Close(b, CostModel.ApplyCosts(order, bar.open, cfg.exec), SignalExit, bar.open)
    else if order.kind == Limit && !LimitTouched(order, bar) then Some(b)
    else
      var ref := if order.kind == Limit then order.limitPrice else bar.open;
      Open(b, CostModel.ApplyCosts(order, ref, cfg.exec), order.stopDistance, order.tpDistance,
           order.maxHoldBars, ref)
  }

  function Manage(cfg: Settings, b: Book, bar: Bar): Book {
    match b.position
    case None => b
    case Some(p) =>
      var aged := Aged(p);
      match BarrierExit(aged, bar)
      case Some(leave) => ExitAt(cfg, b.(position := Some(aged)), aged, bar.time, leave)
      case None => b.(position := Some(Excursion(aged, bar.high, bar.low)))
  }

  function GenerateOrder(cfg: Settings, b: Book, cooldown: nat, bar: Bar, atr: real, signal: Option<Signal>)
    : Option<Order>
  {
    if signal.None? || signal.value.side == Flat then None
    else if b.position.Some? then
      if signal.value.side != b.position.value.side then Some(ExitOrder(b.position.value, bar.time)) else None
    else if cooldown > 0 then None
    else Risk.SizeOrder(cfg.setup, signal.value, bar, atr, Equity(b, bar.close), false)
  }

  /** One bar. `None` is the portfolio's RuntimeError. */
  function Step(cfg: Settings, s: State, bar: Bar, atr: real, signal: Option<Signal>): Option<State> {
    var executed := if s.pending.None? then Some(s.book) else ExecutePending(cfg, s.book, s.pending.value, bar);
    if executed.None? then None
    else
      var managed := Manage(cfg, executed.value, bar);
      var traded := |managed.trades| > s.tradesSeen;
      var cooldown := if traded then cfg.setup.risk.cooldownBars
                      else if s.cooldown > 0 then s.cooldown - 1 else 0;
      var marked := Marked(managed, bar.time, bar.close);
      Some(State(marked, cooldown, if traded then |managed.trades| else s.tradesSeen,
                 GenerateOrder(cfg, marked, cooldown, bar, atr, signal)))
  }

  /** The state after the first `k` bars. */
  function RunTo(cfg: Settings, strat: StrategyConfig, table: map<int, Forecast>,
                 bars: seq<Bar>, rows: seq<Row>, k: nat): Option<State>
    requires k <= |bars| == |rows|
  {
    if k == 0 then Some(Initial(cfg))
    else
      var before := RunTo(cfg, strat, table, bars, rows, k - 1);
      if before.None? then None
      else Step(cfg, before.value, bars[k - 1], rows[k - 1].atr, SignalAt(strat, table, bars[k - 1].time))
  }

  // ---------------------------------------------------------------- queue coherence

  /** A queued order is an exit exactly when a position is open, and then it closes all of it. */
  predicate QueueCoherent(s: State) {
    s.pending.Some? ==>
      if s.book.position.Some?
      then s.pending.value == ExitOrder(s.book.position.value, s.pending.value.time)
      else !s.pending.value.isExit
  }

  lemma StepCoherent(cfg: Settings, s: State, bar: Bar, atr: real, signal: Option<Signal>)
    requires QueueCoherent(s)
    ensures Step(cfg, s, bar, atr, signal).Some?
    ensures QueueCoherent(Step(cfg, s, bar, atr, signal).value)
  {
    var s' := Step(cfg, s, bar, atr, signal).value;
    if s'.pending.Some? && s'.book.position.None? {
      Risk.SizingIsTheLargestAllowed(cfg.setup, signal.value, bar, atr, Equity(s'.book, bar.close), false, 0.0);
    }
  }

  /** Neither of the portfolio's guards ever raises, and the queue stays coherent, on any data. */
  lemma {:induction false} RunNeverRaises(cfg: Settings, strat: StrategyConfig, table: map<int, Forecast>,
                                          bars: seq<Bar>, rows: seq<Row>, k: nat)
    requires k <= |bars| == |rows|
    ensures RunTo(cfg, strat, table, bars, rows, k).Some?
    ensures QueueCoherent(RunTo(cfg, strat, table, bars, rows, k).value)
  {
    if k > 0 {
      RunNeverRaises(cfg, strat, table, bars, rows, k - 1);
      StepCoherent(cfg, RunTo(cfg, strat, table, bars, rows, k - 1).value, bars[k - 1], rows[k - 1].atr,
                   SignalAt(strat, table, bars[k - 1].time));
    }
  }

  function Times(bars: seq<Bar>): (ts: seq<int>)
    ensures |ts| == |bars| && forall i :: 0 <= i < |bars| ==> ts[i] == bars[i].time
  {
    seq(|bars|, i requires 0 <= i < |bars| => bars[i].time)
  }

  /** The portfolio once the position left at the end of the data has been liquidated. */
  function ForceClosed(cfg: Settings, b: Book, bars: seq<Bar>): Book {
    if bars == [] || b.position.None? then b
    else ExitAt(cfg, b, b.position.value, bars[|bars| - 1].time, Leave(EndOfData, bars[|bars| - 1].close))
  }

  class Backtester {
    const settings: Settings
    const portfolio: Portfolio
    var cooldownRemaining: nat
    var tradesSeen: nat

    constructor (cfg: Settings)
      ensures settings == cfg && fresh(portfolio)
      ensures Snapshot(None) == Initial(cfg)
    {
      settings := cfg;
      portfolio := new Portfolio(cfg.accountEquity);
      cooldownRemaining, tradesSeen := 0, 0;
    }

    ghost function Snapshot(pending: Option<Order>): State
      reads this, portfolio
    {
      State(portfolio.Snapshot(), cooldownRemaining, tradesSeen, pending)
    }

    method ExecutePendingOrder(order: Order, bar: Bar) returns (raised: bool)
      modifies portfolio
      ensures raised == ExecutePending(settings, old(portfolio.Snapshot()), order, bar).None?
      ensures !raised ==>
                portfolio.Snapshot() == ExecutePending(settings, old(portfolio.Snapshot()), order, bar).value
    {
      if order.isExit {
        var fill := CostModel.ApplyCosts(order, bar.open, settings.exec);
        if portfolio.position.Some? {
          var closed := portfolio.ClosePosition(fill, SignalExit, bar.open);
        }
        return false;
      }
      var basePrice := bar.open;
      if order.kind == Limit {
        basePrice := order.limitPrice;
        var long := order.side == Long;
        if !((long && bar.low <= basePrice) || (!long && bar.high >= basePrice)) {
          return false;
        }
      }
      var fill := CostModel.ApplyCosts(order, basePrice, settings.exec);
      raised := portfolio.OpenPosition(fill, order.stopDistance, order.tpDistance, order.maxHoldBars, basePrice);
    }

    method ExitPosition(p: Position, time: int, leave: Leave)
      requires portfolio.position == Some(p)
      modifies portfolio
      ensures portfolio.Snapshot() == ExitAt(settings, old(portfolio.Snapshot()), p, time, leave)
    {
      var order := Order(time, Opposite(p.side), p.quantity, Market, 0.0, 0.0, 0, true, 0.0);
      var fill := CostModel.ApplyCosts(order, leave.price, settings.exec);
      var closed := portfolio.ClosePosition(fill, leave.reason, leave.price);
    }

    method ManagePosition(bar: Bar)
      requires portfolio.position.Some?
      modifies portfolio
      ensures portfolio.Snapshot() == Manage(settings, old(portfolio.Snapshot()), bar)
    {
      var p := portfolio.position.value;
      p := p.(barsHeld := p.barsHeld + 1);
      portfolio.position := Some(p);
      var long := p.side == Long;
      if (long && bar.low <= p.stopLoss) || (!long && bar.high >= p.stopLoss) {
        ExitPosition(p, bar.time, Leave(StopLoss, p.stopLoss));
        return;
      }
      if (long && bar.high >= p.takeProfit) || (!long && bar.low <= p.takeProfit) {
        ExitPosition(p, bar.time, Leave(TakeProfit, p.takeProfit));
        return;
      }
      if p.maxHoldBars != 0 && p.barsHeld >= p.maxHoldBars {
        ExitPosition(p, bar.time, Leave(TimeExit, bar.close));
        return;
      }
      portfolio.UpdateExcursion(bar.high, bar.low);
    }

    /** One bar of the event loop: execute the queued order, manage, cool down, mark, queue the next. */
    method StepBar(bar: Bar, atr: real, signal: Option<Signal>, pending: Option<Order>)
      returns (next: Option<Order>, raised: bool)
      modifies this, portfolio
      ensures raised == Step(settings, old(Snapshot(pending)), bar, atr, signal).None?
      ensures !raised ==> Snapshot(next) == Step(settings, old(Snapshot(pending)), bar, atr, signal).value
    {
      next := None;
      if cooldownRemaining > 0 {
        cooldownRemaining := cooldownRemaining - 1;
      }
      if pending.Some? {
        raised := ExecutePendingOrder(pending.value, bar);
        if raised {
          return;
        }
      }
      raised := false;
      if portfolio.position.Some? {
        ManagePosition(bar);
      }
      if |portfolio.trades| > tradesSeen {
        tradesSeen := |portfolio.trades|;
        cooldownRemaining := settings.setup.risk.cooldownBars;
      }
      portfolio.Mark(bar.time, bar.close);
      next := NextOrder(bar, atr, signal);
    }

    method NextOrder(bar: Bar, atr: real, signal: Option<Signal>) returns (order: Option<Order>)
      ensures order == GenerateOrder(settings, portfolio.Snapshot(), cooldownRemaining, bar, atr, signal)
      ensures portfolio.position.Some? ==>
                var p := portfolio.position.value;
                && (order.Some? <==> signal.Some? && signal.value.side !in {Flat, p.side})
                && (order.Some? ==> order.value.isExit && order.value.side == Opposite(p.side)
                                    && order.value.quantity == p.quantity)
      ensures portfolio.position.None? && order.Some? ==>
                && signal.Some? && cooldownRemaining == 0 && atr > 0.0
                && Risk.LargestEntry(settings.setup, signal.value, bar.close, portfolio.realizedEquity, order.value)
    {
      if signal.None? || signal.value.side == Flat {
        return None;
      }
      if portfolio.position.Some? {
        var p := portfolio.position.value;
        if signal.value.side != p.side {
          return Some(Order(bar.time, Opposite(p.side), p.quantity, Market, 0.0, 0.0, 0, true, 0.0));
        }
        return None;
      }
      if cooldownRemaining > 0 {
        return None;
      }
      var equity := portfolio.EquityAt(bar.close);
      order := Risk.SizeOrder(settings.setup, signal.value, bar, atr, equity, false);
      if order.Some? {
        Risk.AcceptedIsLargest(settings.setup, signal.value, bar, atr, equity, false);
      }
    }

    /** The whole backtest over `bars`, with one feature row per bar; it always finishes. */
    method Run(strat: StrategyConfig, predict: Row -> Prediction, bars: seq<Bar>, rows: seq<Row>)
      returns (raised: bool)
      requires |bars| == |rows|
      requires Snapshot(None) == Initial(settings)
      modifies this, portfolio
      ensures !raised
      ensures var end := RunTo(settings, strat, Table(Times(bars), rows, predict), bars, rows, |bars|);
              end.Some? && portfolio.Snapshot() == ForceClosed(settings, end.value.book, bars)
    {
      hide Step, QueueCoherent, Table, SignalAt;
      var table := Table(Times(bars), rows, predict);
      var pending: Option<Order> := None;
      var i := 0;
      raised := false;
      while i < |bars|
        invariant 0 <= i <= |bars|
        invariant RunTo(settings, strat, table, bars, rows, i) == Some(Snapshot(pending))
        invariant !raised
      {
        RunNeverRaises(settings, strat, table, bars, rows, i + 1);
        pending, raised := StepBar(bars[i], rows[i].atr, SignalAt(strat, table, bars[i].time), pending);
        i := i + 1;
      }
      if bars != [] && portfolio.position.Some? {
        ExitPosition(portfolio.position.value, bars[|bars| - 1].time, Leave(EndOfData, bars[|bars| - 1].close));
      }
    }
  }
}
