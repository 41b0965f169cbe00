/** ATR sizing with a leverage cap and an expected-value (or edge/cost) entry gate. */
module Risk {
  import opened Types
  import opened Arith
  import CostModel

  function RoundTripCostPerUnit(setup: RiskSetup, price: real): real {
    match setup.costs
    case None => 0.0
    case Some(c) => price * (2.0 * c.takerFee + 2.0 * Slip(c))
  }

  function ExpectedValue(pWin: real, tpDistance: real, stopDistance: real, cost: real): real {
    pWin * tpDistance - (1.0 - pWin) * stopDistance - cost
  }

  predicate GateAccepts(setup: RiskSetup, confidence: real, tp: real, stop: real, cost: real) {
    if setup.risk.useEvFilter then
      ExpectedValue(Max(0.0, Min(1.0, confidence)), tp, stop, cost) > setup.risk.minExpectedValue
    else
      setup.risk.minEdgeCostRatio > 0.0 ==> tp >= setup.risk.minEdgeCostRatio * cost
  }

  function StopOf(setup: RiskSetup, atr: real): real { setup.barriers.slMult * atr }

  function TargetOf(setup: RiskSetup, atr: real): real { setup.barriers.tpMult * atr }

  function SizeOrder(setup: RiskSetup, signal: Signal, bar: Bar, atr: real, equity: real,
                     hasOpenPosition: bool): Option<Order>
  {
    if hasOpenPosition || signal.side == Flat || atr <= 0.0 || equity <= 0.0 then None
    else SizeAt(setup, signal, bar, equity, StopOf(setup, atr), TargetOf(setup, atr))
  }

  /** The sized entry for a stop and a target that far away. */
  function SizeAt(setup: RiskSetup, signal: Signal, bar: Bar, equity: real, stop: real, tp: real): Option<Order> {
    if stop <= 0.0 then None
    else if !GateAccepts(setup, signal.confidence, tp, stop, RoundTripCostPerUnit(setup, bar.close)) then None
    else
      var quantity := Quantity(setup.risk, bar.close, equity, stop);
      if quantity <= 0.0 then None else Some(EntryOrder(setup, signal.side, bar, quantity, stop, tp))
  }

  function Quantity(risk: RiskConfig, price: real, equity: real, stop: real): real
    requires stop > 0.0
  {
    var byRisk := equity * risk.riskPerTrade / stop;
    if risk.maxLeverage > 0.0 && price > 0.0
    then Min(byRisk, risk.maxLeverage * equity / price) else byRisk
  }

  function EntryOrder(setup: RiskSetup, side: Side, bar: Bar, quantity: real, stop: real, tp: real): Order {
    if setup.costs.Some? && setup.costs.value.limitEntries then
      Order(bar.time, side, quantity, Limit, stop, tp, setup.barriers.horizon, false,
            bar.close * (1.0 - Signed(side, setup.costs.value.limitOffsetBps / 10000.0)))
    else
      Order(bar.time, side, quantity, Market, stop, tp, setup.barriers.horizon, false, 0.0)
  }

  /** Both sizing caps, as bounds on a quantity `q`. */
  predicate WithinCaps(risk: RiskConfig, price: real, equity: real, stop: real, q: real) {
    && q * stop <= equity * risk.riskPerTrade
    && (risk.maxLeverage > 0.0 && price > 0.0 ==> q * price <= risk.maxLeverage * equity)
  }

  /** The sized quantity is the largest one within both caps. */
  lemma QuantityIsLargest(risk: RiskConfig, price: real, equity: real, stop: real, q: real)
    requires stop > 0.0
    ensures WithinCaps(risk, price, equity, stop, q) <==> q <= Quantity(risk, price, equity, stop)
  {
    var byRisk := equity * risk.riskPerTrade / stop;
    QuotientTimes(equity * risk.riskPerTrade, stop);
    ScaleIff(q, byRisk, stop);
    if risk.maxLeverage > 0.0 && price > 0.0 {
      var byLeverage := risk.maxLeverage * equity / price;
      QuotientTimes(risk.maxLeverage * equity, price);
      ScaleIff(q, byLeverage, price);
    }
  }

  lemma ScaleIff(a: real, b: real, c: real)
    requires c > 0.0
    ensures a <= b <==> a * c <= b * c
  {
    if a <= b { ScaleLe(a, b, c); }
    if a * c <= b * c { CancelLe(a, b, c); }
  }

  /** An accepted order is a sized entry on the signal's side: it risks at most the configured
      fraction of equity at its stop, at most the leverage cap in notional, and no larger
      order does both. */
  lemma SizingIsTheLargestAllowed(setup: RiskSetup, signal: Signal, bar: Bar, atr: real, equity: real,
                                  hasOpen: bool, q: real)
    requires SizeOrder(setup, signal, bar, atr, equity, hasOpen).Some?
    ensures var o := SizeOrder(setup, signal, bar, atr, equity, hasOpen).value;
            && !hasOpen && atr > 0.0 && equity > 0.0 && !o.isExit && o.side == signal.side != Flat
            && o.quantity > 0.0 && o.stopDistance == setup.barriers.slMult * atr > 0.0
            && o.tpDistance == setup.barriers.tpMult * atr
            && (WithinCaps(setup.risk, bar.close, equity, o.stopDistance, q) <==> q <= o.quantity)
  {
    QuantityIsLargest(setup.risk, bar.close, equity, setup.barriers.slMult * atr, q);
  }

  /** `o` is a sized entry on the signal's side, as large as both caps allow and no larger. */
  ghost predicate LargestEntry(setup: RiskSetup, signal: Signal, price: real, equity: real, o: Order) {
    && !o.isExit && o.side == signal.side != Flat && o.quantity > 0.0 && o.stopDistance > 0.0 && equity > 0.0
    && forall q :: WithinCaps(setup.risk, price, equity, o.stopDistance, q) <==> q <= o.quantity
  }

  lemma AcceptedIsLargest(setup: RiskSetup, signal: Signal, bar: Bar, atr: real, equity: real, hasOpen: bool)
    requires SizeOrder(setup, signal, bar, atr, equity, hasOpen).Some?
    ensures LargestEntry(setup, signal, bar.close, equity, SizeOrder(setup, signal, bar, atr, equity, hasOpen).value)
  {
    hide SizeOrder, WithinCaps;
    var o := SizeOrder(setup, signal, bar, atr, equity, hasOpen).value;
    forall q: real ensures WithinCaps(setup.risk, bar.close, equity, o.stopDistance, q) <==> q <= o.quantity {
      SizingIsTheLargestAllowed(setup, signal, bar, atr, equity, hasOpen, q);
    }
    SizingIsTheLargestAllowed(setup, signal, bar, atr, equity, hasOpen, 0.0);
  }

  lemma ExpectedValueMonotone(p1: real, p2: real, tp: real, stop: real, cost: real)
    requires p1 <= p2 && tp >= 0.0 && stop >= 0.0
    ensures ExpectedValue(p1, tp, stop, cost) <= ExpectedValue(p2, tp, stop, cost)
  {
    ScaleLe(p1, p2, tp);
    ScaleLe(1.0 - p2, 1.0 - p1, stop);
  }

  lemma GateMonotone(setup: RiskSetup, c1: real, c2: real, tp: real, stop: real, cost: real)
    requires setup.risk.useEvFilter && c1 <= c2 && tp >= 0.0 && stop >= 0.0
    requires GateAccepts(setup, c1, tp, stop, cost)
    ensures GateAccepts(setup, c2, tp, stop, cost)
    ensures ExpectedValue(Max(0.0, Min(1.0, c1)), tp, stop, cost) > setup.risk.minExpectedValue
  {
    hide ExpectedValue;
    ExpectedValueMonotone(Max(0.0, Min(1.0, c1)), Max(0.0, Min(1.0, c2)), tp, stop, cost);
  }

  lemma SizedAlike(setup: RiskSetup, s1: Signal, s2: Signal, bar: Bar, equity: real, stop: real, tp: real)
    requires setup.risk.useEvFilter && tp >= 0.0 && s1.side == s2.side && s1.confidence <= s2.confidence
    requires SizeAt(setup, s1, bar, equity, stop, tp).Some?
    ensures SizeAt(setup, s2, bar, equity, stop, tp) == SizeAt(setup, s1, bar, equity, stop, tp)
    ensures ExpectedValue(Max(0.0, Min(1.0, s1.confidence)), tp, stop, RoundTripCostPerUnit(setup, bar.close))
            > setup.risk.minExpectedValue
  {
    hide ExpectedValue, GateAccepts, RoundTripCostPerUnit, Quantity, EntryOrder;
    GateMonotone(setup, s1.confidence, s2.confidence, tp, stop, RoundTripCostPerUnit(setup, bar.close));
  }

  /** Under the expected-value filter every accepted trade clears the threshold, and the gate
      is monotone: more confidence never turns an accepted trade away when barriers are positive. */
  lemma ExpectedValueGate(setup: RiskSetup, s1: Signal, s2: Signal, bar: Bar, atr: real, equity: real)
    requires setup.risk.useEvFilter && setup.barriers.tpMult > 0.0
    requires s1.side == s2.side && s1.confidence <= s2.confidence
    ensures SizeOrder(setup, s1, bar, atr, equity, false).Some?
            ==> SizeOrder(setup, s2, bar, atr, equity, false) == SizeOrder(setup, s1, bar, atr, equity, false)
    ensures SizeOrder(setup, s1, bar, atr, equity, false).Some? ==>
              ExpectedValue(Max(0.0, Min(1.0, s1.confidence)), TargetOf(setup, atr), StopOf(setup, atr),
                            RoundTripCostPerUnit(setup, bar.close))
              > setup.risk.minExpectedValue
  {
    hide SizeAt, ExpectedValue, StopOf, RoundTripCostPerUnit;
    if SizeOrder(setup, s1, bar, atr, equity, false).Some? {
      ProductPositive(setup.barriers.tpMult, atr);
      SizedAlike(setup, s1, s2, bar, equity, StopOf(setup, atr), TargetOf(setup, atr));
    }
  }

  // ---------------------------------------------------------------- acceptance, in money

  /** What a fill takes from the trader beside the move of the market. */
  function Charged(fill: Fill): real { fill.fee + fill.slippage }

  /** What entering `q` units at market and leaving them again at market is charged, both at `price`. */
  function RoundTripCharge(c: ExecConfig, side: Side, q: real, price: real): real {
    Charged(CostModel.ApplyCosts(Order(0, side, q, Market, 0.0, 0.0, 0, false, 0.0), price, c))
    + Charged(CostModel.ApplyCosts(Order(0, Opposite(side), q, Market, 0.0, 0.0, 0, true, 0.0), price, c))
  }

  lemma Charges(price: real, q: real, move: real, fee: real)
    ensures (price + move) * q * fee + (price - move) * q * fee + 2.0 * (move * q)
            == q * (price * (2.0 * fee) + 2.0 * move)
  {
    Distribute(price, move, q);
    Distribute(price * q, move * q, fee);
    assert price * (2.0 * fee) * q == 2.0 * (price * q * fee);
  }

  /** The cost the gate reckons with is, per unit, exactly what two market fills at that price are charged. */
  lemma CostIsTwoMarketFills(setup: RiskSetup, side: Side, q: real, price: real)
    requires setup.costs.Some? && GoodCosts(setup.costs.value) && side != Flat && price >= 0.0
    ensures RoundTripCharge(setup.costs.value, side, q, price) == q * RoundTripCostPerUnit(setup, price)
  {
    hide CostModel.Slipped;
    var c := setup.costs.value;
    CostModel.MarketPrice(side, price, Slip(c));
    CostModel.MarketPrice(Opposite(side), price, Slip(c));
    Charges(price, q, price * Slip(c), c.takerFee);
    Distribute(2.0 * c.takerFee, 2.0 * Slip(c), price);
  }

  /** What a trade is expected to make per unit: its target with probability `p`, its stop otherwise, and the
      cost either way. */
  predicate WorthIt(risk: RiskConfig, p: real, tp: real, stop: real, cost: real) {
    if risk.useEvFilter then p * (tp - cost) + (1.0 - p) * (-stop - cost) > risk.minExpectedValue
    else risk.minEdgeCostRatio <= 0.0 || tp >= risk.minEdgeCostRatio * cost
  }

  /** Some positive quantity is within both caps. */
  ghost predicate SomeWithinCaps(risk: RiskConfig, price: real, equity: real, stop: real) {
    exists q :: q > 0.0 && WithinCaps(risk, price, equity, stop, q)
  }

  /** A signal is accepted if and only if nothing is open, it has a side, ATR, equity and stop are positive,
      some quantity is within both caps, and the trade is worth its cost: by expected value with the signal's
      confidence cut to [0, 1] under that filter, by edge over cost otherwise. */
  lemma AcceptsExactly(setup: RiskSetup, signal: Signal, bar: Bar, atr: real, equity: real, hasOpen: bool,
                       stop: real, tp: real, cost: real)
    requires stop == setup.barriers.slMult * atr && tp == setup.barriers.tpMult * atr
    requires cost == (if setup.costs.None? then 0.0
                      else bar.close * (2.0 * setup.costs.value.takerFee
                                        + 2.0 * (setup.costs.value.slippageBps / 10000.0)))
    ensures var p := if signal.confidence < 0.0 then 0.0 else if signal.confidence > 1.0 then 1.0
                     else signal.confidence;
            SizeOrder(setup, signal, bar, atr, equity, hasOpen).Some?
            <==> !hasOpen && signal.side != Flat && atr > 0.0 && equity > 0.0 && stop > 0.0
                 && SomeWithinCaps(setup.risk, bar.close, equity, stop)
                 && WorthIt(setup.risk, p, tp, stop, cost)
  {
    hide SomeWithinCaps, WorthIt, SizeAt;
    assert stop == StopOf(setup, atr) && tp == TargetOf(setup, atr);
    SizesExactly(setup, signal, bar, equity, stop, tp);
    GateIsWorth(setup, signal.confidence, tp, stop, bar.close, cost);
    if stop > 0.0 { SomeQuantity(setup.risk, bar.close, equity, stop); }
  }

  lemma SizesExactly(setup: RiskSetup, signal: Signal, bar: Bar, equity: real, stop: real, tp: real)
    ensures SizeAt(setup, signal, bar, equity, stop, tp).Some?
            <==> stop > 0.0 && Quantity(setup.risk, bar.close, equity, stop) > 0.0
                 && GateAccepts(setup, signal.confidence, tp, stop, RoundTripCostPerUnit(setup, bar.close))
  {
    hide Quantity, GateAccepts, RoundTripCostPerUnit;
  }

  lemma CostIs(setup: RiskSetup, price: real, cost: real)
    requires cost == (if setup.costs.None? then 0.0
                      else price * (2.0 * setup.costs.value.takerFee
                                    + 2.0 * (setup.costs.value.slippageBps / 10000.0)))
    ensures RoundTripCostPerUnit(setup, price) == cost
  {
    if setup.costs.Some? { assert Slip(setup.costs.value) == setup.costs.value.slippageBps / 10000.0; }
  }

  lemma GateIsWorth(setup: RiskSetup, confidence: real, tp: real, stop: real, price: real, cost: real)
    requires cost == (if setup.costs.None? then 0.0
                      else price * (2.0 * setup.costs.value.takerFee
                                    + 2.0 * (setup.costs.value.slippageBps / 10000.0)))
    ensures var p := if confidence < 0.0 then 0.0 else if confidence > 1.0 then 1.0 else confidence;
            GateAccepts(setup, confidence, tp, stop, RoundTripCostPerUnit(setup, price))
            <==> WorthIt(setup.risk, p, tp, stop, cost)
  {
    hide ExpectedValue, RoundTripCostPerUnit;
    CostIs(setup, price, cost);
    ExpectedIsWeighted(Max(0.0, Min(1.0, confidence)), tp, stop, cost);
  }

  lemma SomeQuantity(risk: RiskConfig, price: real, equity: real, stop: real)
    requires stop > 0.0
    ensures Quantity(risk, price, equity, stop) > 0.0 <==> SomeWithinCaps(risk, price, equity, stop)
  {
    hide WithinCaps, Quantity;
    var most := Quantity(risk, price, equity, stop);
    QuantityIsLargest(risk, price, equity, stop, most);
    forall q | WithinCaps(risk, price, equity, stop, q) ensures q <= most {
      QuantityIsLargest(risk, price, equity, stop, q);
    }
  }

  lemma ExpectedIsWeighted(p: real, tp: real, stop: real, cost: real)
    ensures ExpectedValue(p, tp, stop, cost) == p * (tp - cost) + (1.0 - p) * (-stop - cost)
  {
    Distribute(tp, cost, p);
    Distribute(-stop, cost, 1.0 - p);
    Distribute(1.0, p, cost);
  }

  /** A limit entry waits on the passive side of the close: below it to buy, above it to sell, by the
      configured fraction; it is charged the maker fee on what changes hands and nothing else. */
  lemma LimitIsPassive(setup: RiskSetup, signal: Signal, bar: Bar, atr: real, equity: real,
                       exec: ExecConfig, price: real)
    requires SizeOrder(setup, signal, bar, atr, equity, false).Some?
    requires setup.costs.Some? && setup.costs.value.limitEntries
    ensures var o := SizeOrder(setup, signal, bar, atr, equity, false).value;
            && Signed(o.side, bar.close - o.limitPrice) == bar.close * (setup.costs.value.limitOffsetBps / 10000.0)
            && var fill := CostModel.ApplyCosts(o, price, exec);
            fill.price == price && Charged(fill) == exec.makerFee * (o.quantity * price)
  {
    var offset := setup.costs.value.limitOffsetBps / 10000.0;
    Distribute(1.0, Signed(signal.side, offset), bar.close);
  }
}
