/** Realized equity, the single open position, closed trades and the equity curve;
    and the triple-barrier test that both engines apply to an open position. */
module PortfolioModel {
  import opened Types
  import opened Arith

  /** A fill together with the reference price it was costed from. */
  datatype Booked = Booked(fill: Fill, ref: real)

  /** The portfolio as a value. `booked` is a history variable: every fill that moved money. */
  datatype Book = Book(
    initial: real, realized: real, position: Option<Position>,
    trades: seq<Trade>, curve: seq<(int, real)>, booked: seq<Booked>)

  function EmptyBook(equity: real): Book {
    Book(equity, equity, None, [], [], [])
  }

  // ---------------------------------------------------------------- queries

  /** Profit of moving `quantity` on `side` from price `from` to price `to`. */
  function Gain(side: Side, quantity: real, from: real, to: real): real {
    Signed(side, to - from) * quantity
  }

  function Unrealized(p: Position, price: real): real {
    Gain(p.side, p.quantity, p.entryPrice, price)
  }

  function Equity(b: Book, price: real): real {
    b.realized + (if b.position.Some? then Unrealized(b.position.value, price) else 0.0)
  }

  function Marked(b: Book, time: int, price: real): Book {
    b.(curve := b.curve + [(time, Equity(b, price))])
  }

  // ---------------------------------------------------------------- lifecycle

  function OpenedPosition(fill: Fill, stop: real, tp: real, hold: nat): Position {
    Position(fill.side, fill.quantity, fill.price, fill.time,
             fill.price - Signed(fill.side, stop), fill.price + Signed(fill.side, tp), hold, 0, fill.price, fill.price)
  }

  /** `None` is the source's RuntimeError: a position is already open. */
  function Open(b: Book, fill: Fill, stop: real, tp: real, hold: nat, ref: real): Option<Book> {
    if b.position.Some? then None
    else Some(b.(realized := b.realized - fill.fee,
                 position := Some(OpenedPosition(fill, stop, tp, hold)),
                 booked := b.booked + [Booked(fill, ref)]))
  }

  function ClosedTrade(p: Position, fill: Fill, reason: Reason): Trade {
    var gross := Gain(p.side, p.quantity, p.entryPrice, fill.price);
    var potential := Signed(p.side, p.mfe - p.entryPrice);
    var efficiency :=
      if potential > EPS then Max(-1.0, Min(1.0, Signed(p.side, fill.price - p.entryPrice) / potential)) else 0.0;
    Trade(p.side, p.quantity, p.entryTime, p.entryPrice, fill.time, fill.price, fill.fee,
          gross, gross - fill.fee, p.mfe, reason, efficiency)
  }

  /** `None` is the source's RuntimeError: there is no position to close. */
  function Close(b: Book, fill: Fill, reason: Reason, ref: real): Option<Book> {
    match b.position
    case None => None
    case Some(p) =>
      var t := ClosedTrade(p, fill, reason);
      Some(b.(realized := b.realized + t.netPnl, position := None,
              trades := b.trades + [t], booked := b.booked + [Booked(fill, ref)]))
  }

  /** Realized equity once the open position, if any, has been closed at `price` without a fee. */
  function CashedOut(b: Book, price: real): real {
    if b.position.None? then b.realized
    else
      var p := b.position.value;
      Close(b, Fill(p.entryTime, Opposite(p.side), p.quantity, price, 0.0, 0.0, true), EndOfData, price).value.realized
  }

  /** Marked equity is what liquidating at the marked price without a fee would leave: realized equity plus
      what selling the units of a long brings over what they cost, or less what buying back a short costs over
      what it brought. */
  lemma EquityIsLiquidation(b: Book, price: real)
    ensures Equity(b, price) == CashedOut(b, price)
    ensures b.position.Some? ==>
              var p := b.position.value;
              Equity(b, price) == b.realized + Signed(p.side, p.quantity * price - p.quantity * p.entryPrice)
  {
    if b.position.Some? {
      var p := b.position.value;
      Distribute(price, p.entryPrice, p.quantity);
      Distribute(p.entryPrice, price, p.quantity);
    }
  }

  /** Any closing fill leaves the equity marked at its price, less its fee. */
  lemma LiquidationAt(b: Book, fill: Fill, reason: Reason, ref: real)
    requires b.position.Some?
    ensures Close(b, fill, reason, ref).value.realized == Equity(b, fill.price) - fill.fee
  {}

  function Excursion(p: Position, high: real, low: real): Position {
    if p.side == Long then p.(mfe := Max(p.mfe, high), mae := Min(p.mae, low))
    else p.(mfe := Min(p.mfe, low), mae := Max(p.mae, high))
  }

  // ---------------------------------------------------------------- triple barrier

  datatype Leave = Leave(reason: Reason, price: real)

  predicate StopHit(p: Position, bar: Bar) {
    if p.side == Long then bar.low <= p.stopLoss else bar.high >= p.stopLoss
  }

  predicate TargetHit(p: Position, bar: Bar) {
    if p.side == Long then bar.high >= p.takeProfit else bar.low <= p.takeProfit
  }

  function Aged(p: Position): Position { p.(barsHeld := p.barsHeld + 1) }

  /** The barrier, if any, that ends position `p` (already aged) on `bar`; stop before target before time. */
  function BarrierExit(p: Position, bar: Bar): Option<Leave> {
    if StopHit(p, bar) then Some(Leave(StopLoss, p.stopLoss))
    else if TargetHit(p, bar) then Some(Leave(TakeProfit, p.takeProfit))
    else if p.maxHoldBars != 0 && p.barsHeld >= p.maxHoldBars then Some(Leave(TimeExit, bar.close))
    else None
  }

  function ExitOrder(p: Position, time: int): Order {
    Order(time, Opposite(p.side), p.quantity, Market, 0.0, 0.0, 0, true, 0.0)
  }

  /** Prices of an open position are ordered: stop < adverse <= entry <= favourable < target
      for a long, mirrored for a short. */
  predicate Ordered(p: Position) {
    if p.side == Long then p.stopLoss < p.mae <= p.entryPrice <= p.mfe < p.takeProfit
    else p.takeProfit < p.mfe <= p.entryPrice <= p.mae < p.stopLoss
  }

  lemma OpenedIsOrdered(fill: Fill, stop: real, tp: real, hold: nat)
    requires fill.side != Flat
    ensures Ordered(OpenedPosition(fill, stop, tp, hold)) <==> stop > 0.0 && tp > 0.0
  {}

  /** Surviving a bar keeps the order, and the bar lay strictly between the barriers. */
  lemma SurvivorStaysOrdered(p: Position, bar: Bar)
    requires Ordered(p) && p.side != Flat && BarrierExit(Aged(p), bar) == None
    ensures Ordered(Excursion(Aged(p), bar.high, bar.low))
    ensures Aged(p).maxHoldBars != 0 ==> Aged(p).barsHeld < p.maxHoldBars
    ensures p.side == Long ==> p.stopLoss < bar.low && bar.high < p.takeProfit
    ensures p.side == Short ==> p.takeProfit < bar.low && bar.high < p.stopLoss
  {}

  /** The share of the best move that a trade captured is always in [-1, 1]. A trade that never moved in
      favour by more than EPS scores 0, losing or not; otherwise the share is 1 exactly for an exit at or
      beyond the best price seen, and negative exactly for a losing trade. */
  lemma EfficiencyMeaning(p: Position, fill: Fill, reason: Reason)
    requires p.side != Flat && p.quantity > 0.0
    ensures var t := ClosedTrade(p, fill, reason);
            && -1.0 <= t.efficiency <= 1.0
            && (Signed(p.side, t.bestPrice - p.entryPrice) <= EPS ==> t.efficiency == 0.0)
            && (Signed(p.side, t.bestPrice - p.entryPrice) > EPS ==>
                  && (t.efficiency == 1.0 <==> Signed(p.side, fill.price - t.bestPrice) >= 0.0)
                  && (t.efficiency < 0.0 <==> t.grossPnl < 0.0))
  {
    var potential, gained := Signed(p.side, p.mfe - p.entryPrice), Signed(p.side, fill.price - p.entryPrice);
    ProductSign(gained, p.quantity);
    if potential > EPS {
      QuotientTimes(gained, potential);
      ProductSign(gained / potential, potential);
      ProductSign(gained / potential - 1.0, potential);
      Distribute(gained / potential, 1.0, potential);
    }
  }

  /** The mutable portfolio. */
  class Portfolio {
    const initialEquity: real
    var realizedEquity: real
    var position: Option<Position>
    var trades: seq<Trade>
    var equityCurve: seq<(int, real)>
    ghost var booked: seq<Booked>

    constructor (equity: real)
      ensures Snapshot() == EmptyBook(equity)
    {
      initialEquity, realizedEquity := equity, equity;
      position, trades, equityCurve, booked := None, [], [], [];
    }

    ghost function Snapshot(): Book
      reads this
    {
      Book(initialEquity, realizedEquity, position, trades, equityCurve, booked)
    }

    function EquityAt(price: real): (equity: real)
      reads this
      ensures equity == Equity(Snapshot(), price)
    {
      realizedEquity + (if position.Some? then Unrealized(position.value, price) else 0.0)
    }

    method Mark(time: int, price: real)
      modifies this
      ensures Snapshot() == Marked(old(Snapshot()), time, price)
      ensures equityCurve == old(equityCurve) + [(time, CashedOut(old(Snapshot()), price))]
    {
      EquityIsLiquidation(Snapshot(), price);
      equityCurve := equityCurve + [(time, EquityAt(price))];
    }

    /** Refuses (`raised`) without touching anything when a position is already open. */
    method OpenPosition(fill: Fill, stopDistance: real, tpDistance: real, maxHoldBars: nat, ghost ref: real)
      returns (raised: bool)
      modifies this
      ensures raised == Open(old(Snapshot()), fill, stopDistance, tpDistance, maxHoldBars, ref).None?
      ensures Snapshot() == if raised then old(Snapshot())
                            else Open(old(Snapshot()), fill, stopDistance, tpDistance, maxHoldBars, ref).value
    {
      if position.Some? {
        return true;
      }
      realizedEquity := realizedEquity - fill.fee;
      var entry := fill.price;
      position := Some(Position(fill.side, fill.quantity, entry, fill.time,
                                entry - Signed(fill.side, stopDistance),
                                entry + Signed(fill.side, tpDistance),
                                maxHoldBars, 0, entry, entry));
      booked := booked + [Booked(fill, ref)];
      return false;
    }

    method UpdateExcursion(high: real, low: real)
      modifies this
      ensures Snapshot() == if old(position).None? then old(Snapshot())
                            else old(Snapshot()).(position := Some(Excursion(old(position).value, high, low)))
    {
      if position.Some? {
        var p := position.value;
        if p.side == Long {
          position := Some(p.(mfe := Max(p.mfe, high), mae := Min(p.mae, low)));
        } else {
          position := Some(p.(mfe := Min(p.mfe, low), mae := Max(p.mae, high)));
        }
      }
    }

    /** Refuses (`None`) without touching anything when there is nothing to close. */
    method ClosePosition(fill: Fill, reason: Reason, ghost ref: real) returns (closed: Option<Trade>)
      modifies this
      ensures closed.None? == Close(old(Snapshot()), fill, reason, ref).None?
      ensures closed.Some? ==>
                && Snapshot() == Close(old(Snapshot()), fill, reason, ref).value
                && trades == old(trades) + [closed.value]
      ensures closed.None? ==> Snapshot() == old(Snapshot())
    {
      if position.None? {
        return None;
      }
      var p := position.value;
      var gross := Gain(p.side, p.quantity, p.entryPrice, fill.price);
      var net := gross - fill.fee;
      realizedEquity := realizedEquity + net;
      var potential := Signed(p.side, p.mfe - p.entryPrice);
      var gained := Signed(p.side, fill.price - p.entryPrice);
      var efficiency := 0.0;
      if potential > EPS {
        efficiency := Max(-1.0, Min(1.0, gained / potential));
      }
      var trade := Trade(p.side, p.quantity, p.entryTime, p.entryPrice, fill.time, fill.price,
                         fill.fee, gross, net, p.mfe, reason, efficiency);
      trades := trades + [trade];
      position := None;
      booked := booked + [Booked(fill, ref)];
      assert trade == ClosedTrade(p, fill, reason);
      return Some(trade);
    }
  }
}
