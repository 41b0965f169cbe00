/** Value types shared by every component: bars, orders, fills, positions, trades and settings.
    Prices, quantities and money are `real`; timestamps are integers. */
module Types {

  datatype Option<+T> = None | Some(value: T)

  datatype Side = Flat | Long | Short

  /** `int(side) * x`: x for a long, -x for a short, nothing for flat. */
  function Signed(s: Side, x: real): real {
    match s
    case Flat => 0.0
    case Long => x
    case Short => -x
  }

  function Opposite(s: Side): Side {
    if s == Long then Short else Long
  }

  /** What the source adds to a denominator, or asks of it, so as not to divide by zero. */
  const EPS: real := 0.000000000001

  function Min(a: real, b: real): real { if a <= b then a else b }

  function Max(a: real, b: real): real { if a >= b then a else b }

  function Abs(a: real): real { if a >= 0.0 then a else -a }

  /** A closed OHLCV candle. */
  datatype Bar = Bar(time: int, open: real, high: real, low: real, close: real, volume: real)

  /** Positive prices, with open and close inside [low, high]. */
  predicate WellFormedBar(b: Bar) {
    0.0 < b.low <= b.open <= b.high && b.low <= b.close <= b.high
  }

  datatype Signal = Signal(side: Side, confidence: real)

  datatype OrderType = Market | Limit

  datatype Order = Order(
    time: int, side: Side, quantity: real, kind: OrderType,
    stopDistance: real, tpDistance: real, maxHoldBars: nat,
    isExit: bool, limitPrice: real)

  datatype Fill = Fill(
    time: int, side: Side, quantity: real, price: real, fee: real, slippage: real, isExit: bool)

  datatype Position = Position(
    side: Side, quantity: real, entryPrice: real, entryTime: int,
    stopLoss: real, takeProfit: real, maxHoldBars: nat, barsHeld: nat,
    mfe: real, mae: real)

  datatype Reason = StopLoss | TakeProfit | TimeExit | SignalExit | EndOfData | Flattened

  datatype Trade = Trade(
    side: Side, quantity: real, entryTime: int, entryPrice: real,
    exitTime: int, exitPrice: real, fees: real, grossPnl: real, netPnl: real,
    bestPrice: real, reason: Reason, efficiency: real)

  datatype ExecConfig = ExecConfig(
    takerFee: real, slippageBps: real, limitEntries: bool, makerFee: real, limitOffsetBps: real)

  datatype RiskConfig = RiskConfig(
    riskPerTrade: real, maxLeverage: real, minEdgeCostRatio: real,
    useEvFilter: bool, minExpectedValue: real, cooldownBars: nat)

  datatype Barriers = Barriers(tpMult: real, slMult: real, horizon: nat)

  /** What the risk manager is built from; it may be given no execution settings. */
  datatype RiskSetup = RiskSetup(risk: RiskConfig, barriers: Barriers, costs: Option<ExecConfig>)

  /** Settings of an engine: its risk manager, its execution handler's cost model, and
      whether that handler fills at once (`paper`) or awaits an exchange. */
  datatype Settings = Settings(accountEquity: real, setup: RiskSetup, exec: ExecConfig, paper: bool)

  function Slip(cfg: ExecConfig): real { cfg.slippageBps / 10000.0 }

  /** Cost settings that describe a cost: nothing is paid back to the trader. */
  predicate GoodCosts(cfg: ExecConfig) {
    && 0.0 <= cfg.slippageBps < 10000.0
    && 0.0 <= cfg.takerFee <= 1.0
    && 0.0 <= cfg.makerFee <= 1.0
    && 0.0 <= cfg.limitOffsetBps < 10000.0
  }

  /** Settings under which both price barriers lie on their own side of the entry. */
  predicate GoodSettings(cfg: Settings) {
    && GoodCosts(cfg.exec)
    && cfg.setup.barriers.tpMult > 0.0
    && (cfg.setup.costs.Some? ==> GoodCosts(cfg.setup.costs.value))
  }

  /** Settings for concrete runs: no costs, 1 percent of equity at risk, target 2 and stop 1 ATR away, no
      cooldown, orders awaited. */
  const PLAIN := Settings(1000.0, RiskSetup(RiskConfig(0.01, 1.0, 0.0, false, 0.0, 0), Barriers(2.0, 1.0, 18), None),
                          ExecConfig(0.0, 0.0, false, 0.0, 0.0), false)
}
