/** The cost model shared by the backtest simulator and the paper handler. */
module CostModel {
  import opened Types
  import opened Arith

  function ApplyCosts(order: Order, basePrice: real, cfg: ExecConfig): (fill: Fill)
  {
    if order.kind == Limit then
      Fill(order.time, order.side, order.quantity, basePrice,
           basePrice * order.quantity * cfg.makerFee, 0.0, order.isExit)
    else
      var filled := Slipped(order.side, basePrice, Slip(cfg));
      Fill(order.time, order.side, order.quantity, filled,
           filled * order.quantity * cfg.takerFee, Abs(filled - basePrice) * order.quantity,
           order.isExit)
  }

  /** The price a market order fills at: slippage is a fraction of the base price. */
  function Slipped(side: Side, base: real, s: real): real {
    base * (1.0 + Signed(side, s))
  }

  /** The market price moves against the trader by exactly the slippage fraction. */
  lemma MarketPrice(side: Side, base: real, s: real)
    requires side != Flat && base >= 0.0 && 0.0 <= s < 1.0
    ensures var filled := Slipped(side, base, s);
            && filled == base + Signed(side, base * s)
            && Abs(filled - base) == base * s
            && filled >= 0.0 && (base > 0.0 ==> filled > 0.0)
  {
    Distribute(1.0, s, base);
    ProductNonNegative(base, s);
    ProductNonNegative(base, 1.0 - s);
    if base > 0.0 { ProductPositive(base, 1.0 - s); }
  }

  /** Trading `q` at a price moved against the trader by `d` costs `d q` more than at the base price. */
  lemma AdverseMove(side: Side, q: real, base: real, d: real, filled: real)
    requires side != Flat && filled == base + Signed(side, d)
    ensures Signed(side, q * filled) == Signed(side, q * base) + d * q
  {
    Distribute(base, d, q);
  }

  /** A market fill in terms of how far the price moved. */
  lemma MarketFill(order: Order, base: real, cfg: ExecConfig, move: real)
    requires GoodCosts(cfg) && order.side != Flat && order.kind == Market && base >= 0.0
    requires move == base * Slip(cfg)
    ensures var fill := ApplyCosts(order, base, cfg);
            && move >= 0.0 && fill.price == base + Signed(order.side, move) && fill.slippage == move * order.quantity
            && fill.price >= 0.0 && (base > 0.0 ==> fill.price > 0.0)
  {
    ProductNonNegative(base, Slip(cfg));
    MarketPrice(order.side, base, Slip(cfg));
  }

  /** Filling instead of trading at `ref` loses exactly the recorded slippage. */
  predicate LosesSlippage(fill: Fill, ref: real) {
    Signed(fill.side, fill.quantity * fill.price) == Signed(fill.side, fill.quantity * ref) + fill.slippage
  }

  /** A fill never beats its reference price: the money lost to the price difference is
      exactly the recorded slippage, whichever side trades. */
  lemma FillLosesItsSlippage(order: Order, basePrice: real, cfg: ExecConfig)
    requires GoodCosts(cfg) && order.side != Flat
    requires basePrice >= 0.0 && order.quantity >= 0.0
    ensures var fill := ApplyCosts(order, basePrice, cfg);
            && LosesSlippage(fill, basePrice)
            && fill.slippage >= 0.0 && fill.price >= 0.0
            && (basePrice > 0.0 ==> fill.price > 0.0)
  {
    hide Slipped, Slip, GoodCosts;
    if order.kind == Market {
      var fill := ApplyCosts(order, basePrice, cfg);
      MoveCosts(order, basePrice, cfg, basePrice * Slip(cfg), fill.price, fill.slippage);
    }
  }

  lemma MoveCosts(order: Order, base: real, cfg: ExecConfig, move: real, price: real, slippage: real)
    requires GoodCosts(cfg) && order.side != Flat && order.kind == Market && base >= 0.0 && order.quantity >= 0.0
    requires move == base * Slip(cfg)
    requires price == ApplyCosts(order, base, cfg).price && slippage == ApplyCosts(order, base, cfg).slippage
    ensures Signed(order.side, order.quantity * price) == Signed(order.side, order.quantity * base) + slippage
    ensures slippage >= 0.0 && price >= 0.0 && (base > 0.0 ==> price > 0.0)
  {
    MarketFill(order, base, cfg, move);
    AdverseMove(order.side, order.quantity, base, move, price);
    ProductNonNegative(move, order.quantity);
  }

  /** Fees are never paid back. */
  lemma FeeIsACost(order: Order, basePrice: real, cfg: ExecConfig)
    requires GoodCosts(cfg) && order.side != Flat && basePrice >= 0.0 && order.quantity >= 0.0
    ensures ApplyCosts(order, basePrice, cfg).fee >= 0.0
  {
    FillLosesItsSlippage(order, basePrice, cfg);
    var fill := ApplyCosts(order, basePrice, cfg);
    FeeSign(fill.price, order.quantity, if order.kind == Limit then cfg.makerFee else cfg.takerFee);
  }

  lemma FeeSign(price: real, q: real, rate: real)
    requires price >= 0.0 && q >= 0.0 && rate >= 0.0
    ensures price * q * rate >= 0.0
  {
    ProductNonNegative(price, q);
    ProductNonNegative(price * q, rate);
  }
}
