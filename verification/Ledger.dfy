/** Conservation of money in the portfolio: realized equity against the fills that were booked. */
module Ledger {
  import opened Types
  import opened Arith
  import opened PortfolioModel
  import CostModel

  function TotalFees(bs: seq<Booked>): real {
    if bs == [] then 0.0 else TotalFees(bs[..|bs| - 1]) + bs[|bs| - 1].fill.fee
  }

  function EntryFees(bs: seq<Booked>): real {
    if bs == [] then 0.0
    else EntryFees(bs[..|bs| - 1]) + (if bs[|bs| - 1].fill.isExit then 0.0 else bs[|bs| - 1].fill.fee)
  }

  function TotalSlippage(bs: seq<Booked>): real {
    if bs == [] then 0.0 else TotalSlippage(bs[..|bs| - 1]) + bs[|bs| - 1].fill.slippage
  }

  function TotalNet(ts: seq<Trade>): real {
    if ts == [] then 0.0 else TotalNet(ts[..|ts| - 1]) + ts[|ts| - 1].netPnl
  }

  /** What the round trips (entry, exit, entry, exit, ...) would have made at their reference
      prices, with no slippage and no fees. */
  function FrictionlessPnl(bs: seq<Booked>): real {
    if |bs| < 2 then 0.0
    else
      var entry, exit := bs[|bs| - 2], bs[|bs| - 1];
      FrictionlessPnl(bs[..|bs| - 2]) + Gain(entry.fill.side, entry.fill.quantity, entry.ref, exit.ref)
  }

  /** A fill whose distance from its reference price is exactly its recorded slippage. */
  predicate Fair(b: Booked) {
    b.fill.side != Flat && CostModel.LosesSlippage(b.fill, b.ref)
  }

  /** By how much a fill did better than its recorded slippage says. */
  function Beat(b: Booked): real {
    b.fill.slippage
    - (Signed(b.fill.side, b.fill.quantity * b.fill.price) - Signed(b.fill.side, b.fill.quantity * b.ref))
  }

  function TotalBeat(bs: seq<Booked>): real {
    if bs == [] then 0.0 else TotalBeat(bs[..|bs| - 1]) + Beat(bs[|bs| - 1])
  }

  predicate AllFair(bs: seq<Booked>) {
    forall k :: 0 <= k < |bs| ==> Fair(bs[k])
  }

  function Settled(initial: real, bs: seq<Booked>): real {
    initial + FrictionlessPnl(bs) - TotalSlippage(bs) - TotalFees(bs) + TotalBeat(bs)
  }

  /** Equity accounted from the fills: two per trade, and one more while a position is open. */
  ghost predicate SettledOk(b: Book) {
    match b.position
    case None =>
      && |b.booked| == 2 * |b.trades|
      && b.realized == Settled(b.initial, b.booked)
    case Some(p) =>
      && |b.booked| == 2 * |b.trades| + 1
      && var prefix, entry := b.booked[..2 * |b.trades|], b.booked[2 * |b.trades|];
      && entry.fill.side != Flat && !entry.fill.isExit
      && entry.fill.side == p.side && entry.fill.quantity == p.quantity && entry.fill.price == p.entryPrice
      && b.realized == Settled(b.initial, prefix) - entry.fill.fee
  }

  /** Equity accounted from the trades. */
  ghost predicate NetOk(b: Book) {
    b.realized == b.initial + TotalNet(b.trades) - EntryFees(b.booked)
  }

  /** Both accounts, whatever the fills recorded. */
  ghost predicate Accounts(b: Book) {
    SettledOk(b) && NetOk(b)
  }

  /** Both accounts, with fills that lost exactly the slippage they recorded. */
  ghost predicate LedgerOk(b: Book) {
    Accounts(b) && AllFair(b.booked)
  }

  /** Over fair fills there is nothing to add. */
  lemma {:induction false} FairFillsBeatNothing(bs: seq<Booked>)
    requires AllFair(bs)
    ensures TotalBeat(bs) == 0.0
  {
    if bs != [] {
      FairFillsBeatNothing(bs[..|bs| - 1]);
      assert Fair(bs[|bs| - 1]);
    }
  }

  /** If no fill did worse than recorded, the total is nothing exactly when each did as recorded. */
  lemma {:induction false} BeatsAddUp(bs: seq<Booked>)
    requires forall k :: 0 <= k < |bs| ==> Beat(bs[k]) >= 0.0
    ensures TotalBeat(bs) >= 0.0
    ensures TotalBeat(bs) == 0.0 <==> forall k :: 0 <= k < |bs| ==> Beat(bs[k]) == 0.0
  {
    hide Beat;
    if bs != [] {
      var n := |bs| - 1;
      BeatsAddUp(bs[..n]);
      assert forall k :: 0 <= k < n ==> bs[..n][k] == bs[k];
    }
  }

  lemma AppendTotals(bs: seq<Booked>, x: Booked)
    ensures TotalFees(bs + [x]) == TotalFees(bs) + x.fill.fee
    ensures TotalSlippage(bs + [x]) == TotalSlippage(bs) + x.fill.slippage
    ensures EntryFees(bs + [x]) == EntryFees(bs) + (if x.fill.isExit then 0.0 else x.fill.fee)
    ensures TotalBeat(bs + [x]) == TotalBeat(bs) + Beat(x)
  {
    hide Beat;
    assert (bs + [x])[..|bs|] == bs;
  }

  lemma OpenKeepsAccounts(b: Book, fill: Fill, stop: real, tp: real, hold: nat, ref: real)
    requires Accounts(b) && b.position.None? && fill.side != Flat && !fill.isExit
    ensures Accounts(Open(b, fill, stop, tp, hold, ref).value)
  {
    var x := Booked(fill, ref);
    AppendTotals(b.booked, x);
    assert (b.booked + [x])[..|b.booked|] == b.booked;
  }

  lemma OpenKeepsLedger(b: Book, fill: Fill, stop: real, tp: real, hold: nat, ref: real)
    requires LedgerOk(b) && b.position.None?
    requires Fair(Booked(fill, ref)) && !fill.isExit
    ensures LedgerOk(Open(b, fill, stop, tp, hold, ref).value)
  {
    hide Accounts;
    OpenKeepsAccounts(b, fill, stop, tp, hold, ref);
  }

  /** The round trip's gross profit is its frictionless profit less the slippage of both legs, and by
      what they did better. */
  lemma RoundTripGross(entry: Booked, exit: Booked)
    requires entry.fill.side != Flat
    requires exit.fill.side == Opposite(entry.fill.side) && exit.fill.quantity == entry.fill.quantity
    ensures Gain(entry.fill.side, entry.fill.quantity, entry.fill.price, exit.fill.price)
            == Gain(entry.fill.side, entry.fill.quantity, entry.ref, exit.ref)
               - entry.fill.slippage - exit.fill.slippage + Beat(entry) + Beat(exit)
  {
    Distribute(exit.fill.price, entry.fill.price, entry.fill.quantity);
    Distribute(exit.ref, entry.ref, entry.fill.quantity);
  }

  /** Closing a round trip settles it. */
  lemma SettledAfterExit(initial: real, prefix: seq<Booked>, entry: Booked, exit: Booked)
    requires entry.fill.side != Flat
    requires exit.fill.side == Opposite(entry.fill.side) && exit.fill.quantity == entry.fill.quantity
    ensures Settled(initial, prefix + [entry] + [exit])
            == Settled(initial, prefix) - entry.fill.fee
               + Gain(entry.fill.side, entry.fill.quantity, entry.fill.price, exit.fill.price) - exit.fill.fee
  {
    hide Beat, Gain;
    var all := prefix + [entry] + [exit];
    AppendTotals(prefix, entry);
    AppendTotals(prefix + [entry], exit);
    RoundTripGross(entry, exit);
    assert all[..|all| - 2] == prefix && all[|all| - 2] == entry && all[|all| - 1] == exit;
  }

  lemma TradedKeepsAccounts(b: Book, p: Position, t: Trade, x: Booked, b': Book)
    requires Accounts(b) && b.position == Some(p)
    requires x.fill.isExit && x.fill.side == Opposite(p.side) && x.fill.quantity == p.quantity
    requires t.netPnl == Gain(p.side, p.quantity, p.entryPrice, x.fill.price) - x.fill.fee
    requires b' == b.(realized := b.realized + t.netPnl, position := None,
                      trades := b.trades + [t], booked := b.booked + [x])
    ensures Accounts(b')
  {
    hide Beat;
    var n := 2 * |b.trades|;
    var entry := b.booked[n];
    assert b.booked == b.booked[..n] + [entry];
    SettledAfterExit(b.initial, b.booked[..n], entry, x);
    AppendTotals(b.booked, x);
    assert (b.trades + [t])[..|b.trades|] == b.trades;
  }

  lemma CloseKeepsAccounts(b: Book, fill: Fill, reason: Reason, ref: real)
    requires Accounts(b) && b.position.Some? && fill.isExit
    requires fill.side == Opposite(b.position.value.side) && fill.quantity == b.position.value.quantity
    ensures Accounts(Close(b, fill, reason, ref).value)
  {
    TradedKeepsAccounts(b, b.position.value, ClosedTrade(b.position.value, fill, reason), Booked(fill, ref),
                        Close(b, fill, reason, ref).value);
  }

  lemma CloseKeepsLedger(b: Book, fill: Fill, reason: Reason, ref: real)
    requires LedgerOk(b) && b.position.Some?
    requires Fair(Booked(fill, ref)) && fill.isExit
    requires fill.side == Opposite(b.position.value.side) && fill.quantity == b.position.value.quantity
    ensures LedgerOk(Close(b, fill, reason, ref).value)
  {
    hide Accounts;
    CloseKeepsAccounts(b, fill, reason, ref);
  }

  /** The ledger does not depend on the equity curve. */
  lemma CurveIsNotLedger(b: Book, b': Book)
    requires Accounts(b) && b' == b.(curve := b'.curve)
    ensures Accounts(b') && (LedgerOk(b) ==> LedgerOk(b'))
  {}

  /** Conservation: when flat, equity is the start plus frictionless profit minus every slippage
      and fee paid, and also the start plus all net trade profits minus the entry fees. */
  lemma FlatLedger(b: Book)
    requires LedgerOk(b) && b.position.None?
    ensures b.realized == b.initial + FrictionlessPnl(b.booked) - TotalSlippage(b.booked) - TotalFees(b.booked)
    ensures b.realized == b.initial + TotalNet(b.trades) - EntryFees(b.booked)
    ensures |b.booked| == 2 * |b.trades|
  {
    FairFillsBeatNothing(b.booked);
  }

  lemma CostedFillIsFair(order: Order, ref: real, exec: ExecConfig)
    requires GoodCosts(exec) && order.side != Flat && ref >= 0.0 && order.quantity >= 0.0
    ensures Fair(Booked(CostModel.ApplyCosts(order, ref, exec), ref))
  {
    hide CostModel.LosesSlippage;
    CostModel.FillLosesItsSlippage(order, ref, exec);
  }

  /** The barrier a wild bar could reach below zero is above it. */
  predicate PositionPriced(p: Position) {
    && p.side != Flat && p.quantity > 0.0 && p.entryPrice > 0.0
    && (p.side == Short ==> p.stopLoss > 0.0) && (p.side == Long ==> p.takeProfit > 0.0)
  }

  lemma ExitPricePositive(p: Position, bar: Bar)
    requires WellFormedBar(bar) && BarrierExit(p, bar).Some? && PositionPriced(p)
    ensures BarrierExit(p, bar).value.price > 0.0
  {}
}
