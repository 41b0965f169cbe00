/** The live engine's synchronous segments: what it does between two suspension points. */
module LiveEngine {
  import opened Types
  import opened PortfolioModel
  import CostModel
  import Risk

  datatype Eng = Eng(book: Book, halted: bool, lastBar: Option<Bar>, cooldown: nat, tradesSeen: nat)

  function NewEng(cfg: Settings): Eng {
    Eng(EmptyBook(cfg.accountEquity), false, None, 0, 0)
  }

  /** A bar arrives: the open position ages and meets the bar's range. An exit, if any, is still to be made. */
  function Arrived(e: Eng, bar: Bar): Eng {
    var e1 := e.(lastBar := Some(bar), cooldown := if e.cooldown > 0 then e.cooldown - 1 else 0);
    match e.book.position
    case None => e1
    case Some(p) =>
      var q := Aged(p);
      e1.(book := e.book.(position := Some(if BarrierExit(q, bar).Some? then q else Excursion(q, bar.high, bar.low))))
  }

  function ArrivalExit(e: Eng, bar: Bar): Option<Leave> {
    if e.book.position.None? then None else BarrierExit(Aged(e.book.position.value), bar)
  }

  /** A trade that closed since the last look starts the cooldown. */
  function TradesNoted(cfg: Settings, e: Eng): Eng {
    if |e.book.trades| > e.tradesSeen
    then e.(tradesSeen := |e.book.trades|, cooldown := cfg.setup.risk.cooldownBars) else e
  }

  datatype Decision = Stay | Enter(order: Order) | Exit(leave: Leave)

  function Decide(cfg: Settings, e: Eng, bar: Bar, signal: Option<Signal>, atr: real): Decision {
    if signal.None? || signal.value.side == Flat then Stay
    else if e.book.position.None? then
      if e.cooldown == 0 && !e.halted then
        var order := Risk.SizeOrder(cfg.setup, signal.value, bar, atr, Equity(e.book, bar.close), false);
        if order.Some? then Enter(order.value) else Stay
      else Stay
    else if signal.value.side != e.book.position.value.side then Exit(Leave(SignalExit, bar.close))
    else Stay
  }

  /** `None` is the portfolio's RuntimeError. */
  function EntryBooked(e: Eng, order: Order, fill: Fill, ref: real): Option<Eng> {
    match Open(e.book, fill, order.stopDistance, order.tpDistance, order.maxHoldBars, ref)
    case None => None
    case Some(b) => Some(e.(book := b))
  }

  function ExitBooked(e: Eng, fill: Fill, reason: Reason, ref: real): Option<Eng> {
    match Close(e.book, fill, reason, ref)
    case None => None
    case Some(b) => Some(e.(book := b))
  }

  function BarMarked(e: Eng, bar: Bar): Eng {
    e.(book := Marked(e.book, bar.time, bar.close))
  }

  /** What a flatten request has to close: the open position, at the last price seen. */
  function FlattenExit(e: Eng): Option<Leave> {
    if e.book.position.Some? && e.lastBar.Some? then Some(Leave(Flattened, e.lastBar.value.close)) else None
  }

  /** A paper exit: filled at once at the requested price, with costs. */
  function PaperExit(cfg: Settings, e: Eng, p: Position, time: int, leave: Leave): Option<Eng> {
    ExitBooked(e, CostModel.ApplyCosts(ExitOrder(p, time), leave.price, cfg.exec), leave.reason, leave.price)
  }

  /** A paper entry: filled at once at the bar's close, with costs. */
  function PaperEntry(cfg: Settings, e: Eng, order: Order, bar: Bar): Option<Eng> {
    EntryBooked(e, order, CostModel.ApplyCosts(order, bar.close, cfg.exec), bar.close)
  }

  // The whole of one bar with paper fills and nothing else running in between.

  function PaperManaged(cfg: Settings, e: Eng, bar: Bar): Eng {
    var e1 := Arrived(e, bar);
    var leave := ArrivalExit(e, bar);
    TradesNoted(cfg, if leave.None? then e1
                     else PaperExit(cfg, e1, e1.book.position.value, bar.time, leave.value).value)
  }

  function PaperActed(cfg: Settings, e: Eng, bar: Bar, signal: Option<Signal>, atr: real): Eng {
    match Decide(cfg, e, bar, signal, atr)
    case Stay => e
    case Enter(order) => PaperEntry(cfg, e, order, bar).value
    case Exit(leave) => PaperExit(cfg, e, e.book.position.value, bar.time, leave).value
  }

  function PaperBar(cfg: Settings, e: Eng, bar: Bar, signal: Option<Signal>, atr: real): Eng {
    BarMarked(PaperActed(cfg, PaperManaged(cfg, e, bar), bar, signal, atr), bar)
  }

  /** What the strategy and the ATR column say on a bar. */
  datatype Seen = Seen(signal: Option<Signal>, atr: real)

  /** The engine after bars `from .. to`. */
  function Followed(cfg: Settings, e: Eng, bars: seq<Bar>, seen: seq<Seen>, from: nat, to: nat): Eng
    requires from <= to <= |bars| == |seen|
  {
    if from == to then e
    else PaperBar(cfg, Followed(cfg, e, bars, seen, from, to - 1), bars[to - 1], seen[to - 1].signal,
                             seen[to - 1].atr)
  }

  class Engine {
    const settings: Settings
    const portfolio: Portfolio
    var halted: bool
    var lastBar: Option<Bar>
    var cooldownRemaining: nat
    var tradesSeen: nat

    constructor (cfg: Settings)
      ensures settings == cfg && fresh(portfolio)
      ensures Snapshot() == NewEng(cfg)
    {
      settings := cfg;
      portfolio := new Portfolio(cfg.accountEquity);
      halted, lastBar, cooldownRemaining, tradesSeen := false, None, 0, 0;
    }

    ghost function Snapshot(): Eng
      reads this, portfolio
    {
      Eng(portfolio.Snapshot(), halted, lastBar, cooldownRemaining, tradesSeen)
    }

    method Halt()
      modifies this`halted
      ensures Snapshot() == old(Snapshot()).(halted := true)
    {
      halted := true;
    }

    method Resume()
      modifies this`halted
      ensures Snapshot() == old(Snapshot()).(halted := false)
    {
      halted := false;
    }

    method ReceiveBar(bar: Bar) returns (leave: Option<Leave>)
      modifies this, portfolio
      ensures Snapshot() == Arrived(old(Snapshot()), bar)
      ensures leave == ArrivalExit(old(Snapshot()), bar)
    {
      lastBar := Some(bar);
      if cooldownRemaining > 0 {
        cooldownRemaining := cooldownRemaining - 1;
      }
      if portfolio.position.None? {
        return None;
      }
      var p := portfolio.position.value;
      p := p.(barsHeld := p.barsHeld + 1);
      portfolio.position := Some(p);
      var long := p.side == Long;
      if (long && bar.low <= p.stopLoss) || (!long && bar.high >= p.stopLoss) {
        return Some(Leave(StopLoss, p.stopLoss));
      }
      if (long && bar.high >= p.takeProfit) || (!long && bar.low <= p.takeProfit) {
        return Some(Leave(TakeProfit, p.takeProfit));
      }
      if p.maxHoldBars != 0 && p.barsHeld >= p.maxHoldBars {
        return Some(Leave(TimeExit, bar.close));
      }
      portfolio.UpdateExcursion(bar.high, bar.low);
      return None;
    }

    method NoteTrades()
      modifies this
      ensures Snapshot() == TradesNoted(settings, old(Snapshot()))
    {
      if |portfolio.trades| > tradesSeen {
        tradesSeen := |portfolio.trades|;
        cooldownRemaining := settings.setup.risk.cooldownBars;
      }
    }

    method ActOn(bar: Bar, signal: Option<Signal>, atr: real) returns (d: Decision)
      ensures d == Decide(settings, Snapshot(), bar, signal, atr)
      ensures d.Exit? <==> portfolio.position.Some? && signal.Some?
                           && signal.value.side !in {Flat, portfolio.position.value.side}
      ensures d.Exit? ==> d.leave == Leave(SignalExit, bar.close)
      ensures d.Enter? ==>
                && portfolio.position.None? && cooldownRemaining == 0 && !halted && signal.Some? && atr > 0.0
                && Risk.LargestEntry(settings.setup, signal.value, bar.close, portfolio.realizedEquity, d.order)
    {
      if signal.None? || signal.value.side == Flat {
        return Stay;
      }
      if portfolio.position.None? && cooldownRemaining == 0 && !halted {
        var equity := portfolio.EquityAt(bar.close);
        var order := Risk.SizeOrder(settings.setup, signal.value, bar, atr, equity, false);
        if order.Some? {
          Risk.AcceptedIsLargest(settings.setup, signal.value, bar, atr, equity, false);
          return Enter(order.value);
        }
      } else if portfolio.position.Some? && signal.value.side != portfolio.position.value.side {
        return Exit(Leave(SignalExit, bar.close));
      }
      return Stay;
    }

    method BookEntry(order: Order, fill: Fill, ghost ref: real) returns (raised: bool)
      modifies portfolio
      ensures raised == EntryBooked(old(Snapshot()), order, fill, ref).None?
      ensures Snapshot() == if raised then old(Snapshot()) else EntryBooked(old(Snapshot()), order, fill, ref).value
    {
      raised := portfolio.OpenPosition(fill, order.stopDistance, order.tpDistance, order.maxHoldBars, ref);
    }

    method BookExit(fill: Fill, reason: Reason, ghost ref: real) returns (raised: bool)
      modifies portfolio
      ensures raised == ExitBooked(old(Snapshot()), fill, reason, ref).None?
      ensures Snapshot() == if raised then old(Snapshot()) else ExitBooked(old(Snapshot()), fill, reason, ref).value
    {
      var closed := portfolio.ClosePosition(fill, reason, ref);
      raised := closed.None?;
    }

    method BeginFlatten() returns (leave: Option<Leave>)
      modifies this`halted
      ensures Snapshot() == old(Snapshot()).(halted := true)
      ensures leave == FlattenExit(old(Snapshot()))
      ensures leave.Some? <==> portfolio.position.Some? && lastBar.Some?
      ensures leave.Some? ==> leave.value == Leave(Flattened, lastBar.value.close)
    {
      halted := true;
      if portfolio.position.Some? && lastBar.Some? {
        return Some(Leave(Flattened, lastBar.value.close));
      }
      return None;
    }

    method SubmitPaperExit(time: int, leave: Leave)
      requires portfolio.position.Some?
      modifies portfolio
      ensures Some(Snapshot())
              == PaperExit(settings, old(Snapshot()), old(portfolio.position).value, time, leave)
    {
      var p := portfolio.position.value;
      var order := Order(time, Opposite(p.side), p.quantity, Market, 0.0, 0.0, 0, true, 0.0);
      var raised := BookExit(CostModel.ApplyCosts(order, leave.price, settings.exec), leave.reason, leave.price);
    }

    /** One closed bar through the paper handler: manage, note trades, act on the signal, mark. */
    method OnBar(bar: Bar, signal: Option<Signal>, atr: real)
      modifies this, portfolio
      ensures Snapshot() == PaperBar(settings, old(Snapshot()), bar, signal, atr)
    {
      var leave := ReceiveBar(bar);
      if leave.Some? {
        SubmitPaperExit(bar.time, leave.value);
      }
      NoteTrades();
      var d := ActOn(bar, signal, atr);
      match d {
        case Stay =>
        case Enter(order) =>
          var raised := BookEntry(order, CostModel.ApplyCosts(order, bar.close, settings.exec), bar.close);
        case Exit(l) =>
          SubmitPaperExit(bar.time, l);
      }
      portfolio.Mark(bar.time, bar.close);
    }
  }
}
