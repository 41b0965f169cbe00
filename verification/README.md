# Trading core: models and proofs

This project models the trading core of the repository as state machines over exact values, and the
numeric and data algorithms that feed it, and proves what every run of them keeps.

- `Types`, `Arith`: bars, orders, fills, positions, settings; facts about products, sums and set sizes.
- `CostModel`, `Risk`, `PortfolioModel`, `Ledger`: fills with costs, sizing, the position lifecycle and
  the two accounts of realised equity.
- `Strategy`, `Backtest`, `BacktestTheorems`, `TradeOutcomes`: signals, the event-driven backtester, what
  holds over every backtest (envelope, cooldown, conservation, no look-ahead), and every trade told from the
  bars and signals alone.
- `LiveEngine`, `LiveTasks`, `LiveSafety`, `LiveOutcomes`, `ExitOwnership`, `LiveCooldown`, `LiveLedger`,
  `ExchangeLedger`, `LossFloor`: the live engine's synchronous segments, one bar task and any number of
  flatten requests interleaved at their suspension points over a ghost exchange, what single events do, and
  what holds over every interleaving.
- `PaperRefinement`, `EngineAgreement`: the uninterrupted paper engine as one schedule of the interleaved
  one, and the live engine against the backtester.
- `ProtectiveProtocol`, `ProtectiveOverlaps`, `ProtectiveStages`, `CcxtHandlerModel`: native protective
  orders over every schedule, the guards that keep them under control, what a close leaves behind at each
  stage of another task, and the handler that places them. `LiveSchedules`: concrete schedules from start-up.
- `TripleBarrier`, `TrendScanning`, `TrendDirection`, `SampleWeights`, `LabelExits`, `WalkForward`: labels,
  what they say about the prices that follow, their weights, their agreement with the engine's exits, and the
  walk-forward folds.
- `FractionalDifference`, `Smoothing`, `Columns`, `BufferedFeatures`, `HigherTimeframe`, `FeatureFrame`,
  `FeatureMeaning`, `LiveParity`: feature arithmetic, which inputs a column depends on, leak-free
  higher-timeframe columns, a frame of modelled columns that does not look ahead, what single columns say
  about their bars, and the newest row live and over the whole history.
- `BarCapture`, `TradeStoreModel`: the capture file and the batched store, against a map and a write log.
- `Drawdown`, `CircuitBreaker`: the drawdown scan and the controller's breaker.

Code that works step by step (portfolio, both engines, handler, label and weight loops, feature engine,
capture file, store, controller) is a class or a method whose contract ties the new state to a
specification function of the old one; the whole-run theorems are lemmas about those functions.
Floats are `real`, timestamps `int`, a NaN is `None`. `dafny verify dfyconfig.toml` checks everything.

## Where the code and what it promises differ

- A repeated timestamp is accepted by the backtester, and its batch prediction table then serves an
  earlier bar a later row's forecast: `NoLookAhead` therefore asks that no later row changes what the first
  k timestamps are served, `ServedAlikeExactly` shows that this is what it takes at the lookup, and
  `RepeatedTimestampLooksAhead` is a run that fails.
- `labels.index[: len(labels) - lookahead]` wraps around when the slice is shorter than the lookahead
  but longer than half of it: `TrimIsSound` is an equivalence, `WrappedTrimKeepsUnstableRow` the failure.
- "No native order rests while flat" fails whenever a position is closed while an id is still kept:
  inside another task's cancels (exactly the ids not yet cancelled still rest), inside a placement at any
  stage (exactly the orders it gets accepted rest), or after a placement that outlived the start of the exit
  (`FlattenAcrossPlacement`). `NothingRestsWhileFlatExactly` is the condition, `SettledClosesAreGuarded` a
  guard that `flatten` could check and does not, `CloseInsideCancel`, `FlattenInsidePlacement` and
  `CloseLeavesWhatIsOwned` the failures, and two schedules reach them from start-up.
- No resting order loses its keeper exactly when no cancel of a resting order fails and no task is killed with
  ids in hand (`NoOrderIsForgottenExactly`). The code ensures neither: the handler swallows every cancel error
  (src/cryptotrader/execution/live.py:223-227), and the controller's `stop()` cancels tasks after a timeout
  (src/cryptotrader/api/controller.py:190-200); `KilledHolderOrphans` is what follows.
- After `close()` the handler has no client, and cancelling untracks orders that keep resting.
- "What you backtest is what you trade" holds for market entries exactly as long as every bar that meets a
  queued order, entry or exit, opens at the last close; after the first that does not, the engines' books
  never agree again (`EnginesAgreeExactly`). The price moves with the gap (`GapMovesTheEntry`,
  `GapMovesTheExit`); bars that meet no order may open anywhere. Limit entries agree only when posted at the
  close, with a zero offset, and touched by the next bar (`LimitEntriesAgreeExactly`, `PostedAtTheClose`):
  the paper engine fills them at the close at once, the backtester at their price and only when touched.
- An exit closes whatever position is open when its order fills. `FilledExitOutcome` says exactly when that is
  the one it captured; after another close it raises, or closes a position opened later
  (`StaleFlattenClosesLaterPosition`).
- A failed exit is said to be attempted again by the next bar (src/cryptotrader/live/engine.py:337-343). An exit for
  time is; one at a stop or target only when the next bar reaches a barrier itself (`FailedExitIsRetriedExactly`).
- Labels put the target above and the stop below for both sides, the engine mirrors them: a long leaves as its
  label says under any multipliers, a short only when they are equal (`ShortNeedsEqualMultipliers`).
- The cooldown does not always follow a flatten: `EntriesWaitAfterFlatten` is the condition under which it
  does, `DecisionIgnoresFlatten` the failure, `FlattenBeforeDecisionSchedule` a schedule from start-up that
  reaches it. A bar suspends right before its decision only when recorded features are on and a store is
  connected (src/cryptotrader/live/engine.py:246-252); without them no flatten can land there.
- A crash can lose a whole batch of equity samples, not fewer: `CrashDurability` names the moment,
  `FullBatchLostExactly` makes it exact for one call at a time, `FullBatchCanBeLost` reaches it for every
  batch size.
- `_max_drawdown` is the pairwise maximum unless a negative sample follows two different positive ones:
  `PeaksSufficeExactly` is the exact condition sample by sample, `NegativeEquityBreaksPairs` the failure.
- The breaker ignores a wiped-out account (`WipedOutAccountIsIgnored`) and fires again right after a
  resume while the day's loss persists (`ResumeKeepsTheDaysLoss`).
- An exchange fill that beats the close is recorded with positive slippage (`ExchangeFillIsFair`). The
  account in terms of slippage is therefore short of equity by what such fills did better, and holds if and
  only if there is none (`ExchangeRunConservesCosts`); the account in terms of trades holds for all.
- The settings classes do not exclude cost rates outside [0, 1), non-positive target multipliers, or a
  round-trip share K above 1; conservation and the loss floor state the settings they need.

## Model

| member | source | states |
|---|---|---|
| `CostModel.FillLosesItsSlippage` | src/cryptotrader/execution/base.py:28-57 | whichever side trades, the money a fill loses against its reference price is exactly the slippage it records, which is never negative; a positive price stays positive |
| `CostModel.MarketFill` | src/cryptotrader/execution/base.py:43-57 | a market fill moves against the trader by exactly the slippage fraction of the base price |
| `CostModel.FeeIsACost` | src/cryptotrader/execution/base.py:28-47 | under cost settings that describe a cost, no fee is negative, limit or market |
| `Risk.QuantityIsLargest` | src/cryptotrader/risk/manager.py:83-86 | a quantity satisfies both sizing caps (risk at the stop, leverage) if and only if it is at most the sized one |
| `Risk.SizingIsTheLargestAllowed` | src/cryptotrader/risk/manager.py:61-111 | an accepted order needs a flat book, positive ATR and equity, trades the signal's side with the configured distances, and no larger order satisfies both caps |
| `Risk.AcceptedIsLargest` | src/cryptotrader/risk/manager.py:61-111 | an accepted order is an entry of positive size and stop distance on the signal's side, and a quantity is within both caps exactly when it is no larger |
| `Risk.ExpectedValueGate` | src/cryptotrader/risk/manager.py:72-78 | under the expected-value filter an accepted trade clears the threshold, and raising the confidence never changes or rejects it |
| `Risk.AcceptsExactly` | src/cryptotrader/risk/manager.py:61-86 | a signal is accepted if and only if nothing is open, side, ATR, equity and stop are positive, some quantity is within both caps, and the trade is worth its cost: under the filter p (target - cost) + (1 - p)(-stop - cost) above the minimum with the confidence cut to [0, 1], otherwise target at least the ratio times cost |
| `Risk.CostIsTwoMarketFills` | src/cryptotrader/risk/manager.py:44-50 | the cost the gate reckons with is, for any quantity, exactly the fees and slippage that two market fills at that price are charged |
| `Risk.LimitIsPassive` | src/cryptotrader/risk/manager.py:88-97 | a limit entry waits on the passive side of the close by the configured fraction, and is charged the maker fee on what changes hands and nothing else |
| `PortfolioModel.Portfolio.OpenPosition` | src/cryptotrader/backtest/portfolio.py:59-90 | raises exactly when a position is open, changing nothing; otherwise books the entry fee and the position with both barriers anchored at the fill |
| `PortfolioModel.Portfolio.ClosePosition` | src/cryptotrader/backtest/portfolio.py:130-171 | raises exactly when there is no position; otherwise realises gross profit less the exit fee and appends the trade |
| `PortfolioModel.Portfolio.UpdateExcursion` | src/cryptotrader/backtest/portfolio.py:92-102 | extends the favourable and adverse excursions by a bar's range, mirrored for a short |
| `PortfolioModel.Portfolio.Mark` | src/cryptotrader/backtest/portfolio.py:47-54 | appends what closing at the marked price without a fee would leave, and changes nothing else |
| `PortfolioModel.EquityIsLiquidation` | src/cryptotrader/backtest/portfolio.py:47-54 | marked equity is the realised equity a costless close at that price leaves: realised plus what the units bring over what they cost, mirrored for a short |
| `PortfolioModel.LiquidationAt` | src/cryptotrader/backtest/portfolio.py:130-140 | any closing fill leaves the equity marked at its price, less its fee |
| `PortfolioModel.OpenedIsOrdered` | src/cryptotrader/backtest/portfolio.py:76-90 | a fresh position has stop < adverse <= entry <= favourable < target (mirrored for a short) if and only if both distances are positive |
| `PortfolioModel.SurvivorStaysOrdered` | src/cryptotrader/backtest/engine.py:194-221 | a bar that ends nothing lay strictly between the barriers, keeps that order, and leaves bars_held below its limit |
| `PortfolioModel.EfficiencyMeaning` | src/cryptotrader/backtest/portfolio.py:142-152 | the efficiency ratio lies in [-1, 1]; a trade that never moved in favour by more than EPS scores 0, a losing one too; otherwise it is 1 exactly for an exit at or beyond the best price seen, and negative exactly for a losing trade |
| `Ledger.CloseKeepsLedger` | src/cryptotrader/backtest/portfolio.py:136-140 | closing a round trip keeps both accounts of realised equity: from the fills (frictionless profit, slippage, fees) and from the trades |
| `Ledger.OpenKeepsLedger` | src/cryptotrader/backtest/portfolio.py:75-90 | opening a position keeps both accounts |
| `Strategy.SignalExactly` | src/cryptotrader/strategy/ml_strategy.py:89-112 | a prediction becomes a signal, unchanged, if and only if it has a direction, does not fight the trend under the filter, meets a volatility rank inside the gate, is a long or an allowed short, and clears its side's threshold |
| `Strategy.TableServesLastValid` | src/cryptotrader/strategy/ml_strategy.py:51-63 | the batch table serves a bar the forecast of the last valid row carrying its timestamp, and nothing when there is none |
| `Strategy.ServedSignalExactly` | src/cryptotrader/strategy/ml_strategy.py:51-112 | a bar is given a signal if and only if a valid row carries its timestamp and the last of them predicts a direction that its own trend, volatility rank and confidence let through |
| `Strategy.UnrepeatedTimeIgnoresLaterRows` | src/cryptotrader/strategy/ml_strategy.py:57-62 | rows after the k-th are invisible to a timestamp none of them repeats |
| `Strategy.ServedAlikeExactly` | src/cryptotrader/strategy/ml_strategy.py:51-63 | every predictor is served the same forecast for a timestamp by the first k rows and by all of them, if and only if both have the same last valid row for it |
| `Strategy.RepeatedTimeSeesLaterRows` | src/cryptotrader/strategy/ml_strategy.py:57-62 | conversely, wherever a later row changes the last valid row of a timestamp, some predictor makes the served forecast change |
| `Backtest.Backtester.ExecutePendingOrder` | src/cryptotrader/backtest/engine.py:154-179 | fills a queued order at the open, or at its posted limit only when the bar trades through it; raises only if the portfolio's guard does |
| `Backtest.Backtester.ManagePosition` | src/cryptotrader/backtest/engine.py:194-221 | stop before target before time, the exit booked at the barrier (or the close for time), excursions extended only when none is hit |
| `Backtest.Backtester.StepBar` | src/cryptotrader/backtest/engine.py:129-152 | one bar in the source's order: execute, manage, start the cooldown, mark, queue the next order |
| `Backtest.Backtester.NextOrder` | src/cryptotrader/backtest/engine.py:223-251 | with a position open something is queued exactly on an opposite signal, and then an exit of all of it on the other side; with none, only after the cooldown, and then the largest entry both caps allow on the signal's side |
| `Backtest.Backtester.Run` | src/cryptotrader/backtest/engine.py:94-124 | on any bars and rows the loop finishes without raising, in the state of the specification's run with the last position liquidated at the final close |
| `Backtest.RunNeverRaises` | src/cryptotrader/backtest/engine.py:129-251 | over every backtest a queued order is an exit exactly when a position is open (and then closes all of it), so neither portfolio guard ever raises |
| `BacktestTheorems.RunEnveloped` | src/cryptotrader/backtest/engine.py:194-221 | in every reachable state an open position is ordered, was managed for bars_held bars each strictly inside its barriers and its recorded excursions, which some bar (or the entry) attains, and is younger than its horizon |
| `BacktestTheorems.CooldownSpacing` | src/cryptotrader/backtest/engine.py:132-152 | a trade closed on bar i keeps every entry off until bar i + cooldown_bars + 1 |
| `BacktestTheorems.CooldownIsExact` | src/cryptotrader/backtest/engine.py:132-146 | and with no further trade the cooldown is exactly cooldown_bars less the bars since, never below zero |
| `BacktestTheorems.BacktestConservesCosts` | src/cryptotrader/backtest/engine.py:94-107 | after the forced close the account is flat and its equity is initial + frictionless profit - slippage - fees = initial + net trade profits - entry fees, with two fills per trade |
| `BacktestTheorems.NoLookAhead` | src/cryptotrader/backtest/engine.py:94-152 | two backtests with a row-wise predictor that agree on the first k bars, on features whose first k rows are those of the first k bars, and in which no later row changes the last valid row of their timestamps, are in the same state after k bars: portfolio, trades, curve, cooldown, queued order |
| `BacktestTheorems.NoRepeatSettles` | src/cryptotrader/strategy/ml_strategy.py:57-62 | no later row changes those last valid rows when no valid later row repeats one of the timestamps |
| `FeatureFrame.SourceLayoutIsStable` | src/cryptotrader/data/features.py:192-437 | ATR, trend, volatility, volatility rank, price and OBV z-scores, return, fractional difference and the three higher-timeframe columns have the prefix property on time-ordered bars, for any window statistics |
| `FeatureFrame.SourceFrameDoesNotLookAhead` | src/cryptotrader/backtest/engine.py:94-152 | hence two backtests on those columns whose time-ordered bars agree up to k, without a repeated timestamp, are in the same state after k bars |
| `BacktestTheorems.HistoryOnlyGrows` | src/cryptotrader/backtest/engine.py:129-152 | later bars never rewrite recorded trades, fills or equity samples, and every bar adds one sample |
| `BacktestTheorems.SampleIsEquity` | src/cryptotrader/backtest/engine.py:148-149 | sample k of the equity curve is, at bar k's time, what liquidating the portfolio at bar k's close without a fee would have left after that bar |
| `BacktestTheorems.RepeatedTimestampLooksAhead` | src/cryptotrader/strategy/ml_strategy.py:57-62 | a concrete pair of runs: with a repeated timestamp the second bar decides what is queued after the first, so the no-repeat condition of NoLookAhead is needed |
| `TradeOutcomes.BacktestTradesAreTold` | src/cryptotrader/backtest/engine.py:94-251 | every trade of every backtest, the final liquidation included, is told by its bars and signals: called on a bar, entered at the next open or at the posted limit that bar reached, held while neither barrier is reached nor the time up, and left at the stop, else the target, else the close when the time is up, at the open after an opposite signal, or at the last close; with its exit slippage, fee, profit and best price |
| `TradeOutcomes.RunIsRecounted` | src/cryptotrader/backtest/engine.py:129-251 | and after every bar the open position, too, has been called on some bar and held through every bar since, with its barriers at the configured multiples of that bar's ATR |
| `TradeOutcomes.PaperTradesAreTold` | src/cryptotrader/live/engine.py:227-317 | so is every trade of every undisturbed paper run, entered at the close of the bar that called it and left at the close of the bar that recalls it |
| `TradeOutcomes.CostlessPayoff` | src/cryptotrader/backtest/engine.py:194-221 | without slippage a trade left by target made quantity times target distance of its call, one left by stop lost quantity times stop distance, one left by time, signal or the end of the data made quantity times the move to the price it names |
| `LiveEngine.Engine.ReceiveBar` | src/cryptotrader/live/engine.py:227-289 | the synchronous start of a bar: cooldown counts down, the position ages and meets stop, target, time in that order |
| `LiveEngine.Engine.ActOn` | src/cryptotrader/live/engine.py:257-262 | an exit is chosen exactly when a position is open and the signal is against it, at the close; an entry only when flat, cooled down and not halted, and then the largest both caps allow on the signal's side |
| `LiveEngine.Engine.OnBar` | src/cryptotrader/live/engine.py:227-266 | one whole bar with paper fills equals the specification: manage, note trades, act, mark |
| `LiveEngine.Engine.BeginFlatten` | src/cryptotrader/live/engine.py:179-188 | halts first, and asks for an exit exactly when a position is open and a bar has been seen, at that bar's close |
| `PaperRefinement.BarRefines` | src/cryptotrader/live/engine.py:227-266 | an undisturbed paper bar, run through the suspension points of the interleaved engine, leaves the engine exactly as the uninterrupted bar does and its task ready for the next |
| `PaperRefinement.PaperRunIsASchedule` | src/cryptotrader/live/engine.py:105-134 | over any bars in time order the uninterrupted engine is one of the schedules of the interleaved one |
| `EngineAgreement.EnginesAgreeExactly` | src/cryptotrader/live/engine.py:1-10 | with entries at market and the same signals and ATR, after n bars the live paper engine is the backtester with its queued order executed at the last close (position, equity, trades, booked fills, cooldown) if and only if no bar before that met a queued order, entry or exit, and opened away from the last close |
| `EngineAgreement.GaplessAgrees` | src/cryptotrader/live/engine.py:1-10 | in particular after every bar of a series without gaps |
| `EngineAgreement.TradesAgree` | src/cryptotrader/live/engine.py:1-10 | under that same condition the live trades are the backtest's, plus at most the one exit the backtester still has queued |
| `EngineAgreement.BacktestIsASchedule` | src/cryptotrader/live/engine.py:1-10 | the schedule of the interleaved engine that the same bars and signals make agrees with the backtest under exactly that condition |
| `EngineAgreement.GapMovesTheEntry` | src/cryptotrader/backtest/engine.py:154-179 | a queued market entry fills at the live engine's price if and only if the next bar opens at the last close |
| `EngineAgreement.GapMovesTheExit` | src/cryptotrader/backtest/engine.py:154-179 | the trade a queued exit books leaves at the live engine's price if and only if the next bar opens at the last close |
| `EngineAgreement.LimitEntriesAgreeExactly` | src/cryptotrader/backtest/engine.py:154-179 | a queued limit entry, filled at the close by the paper engine and at its price by the backtester, leaves the same position and the same account if and only if it is posted at that close and the next bar touches it |
| `EngineAgreement.PostedAtTheClose` | src/cryptotrader/risk/manager.py:61-111 | a sized limit entry is posted at the close exactly when the configured offset is zero |
| `LiveSafety.ReachedTyped` | src/cryptotrader/live/engine.py:105-355 | over every interleaving a bar task refers to the last bar only, holds an entry order only while flat, and flatten tasks stay in flatten code |
| `LiveSafety.OpensOnlyWhenFlat` | src/cryptotrader/live/engine.py:258-307 | over every interleaving open_position runs only while flat, never raises, and nothing else opens a position |
| `LiveSafety.HaltAdmitsOneEntry` | src/cryptotrader/live/engine.py:179-188 | between a halt and the next resume at most one position opens (adoption apart), none unless an entry order was in flight at the halt |
| `LiveSafety.OnlyTheEntryInFlight` | src/cryptotrader/live/engine.py:297-307 | that position opens while the bar task still waits for the very order in flight at the halt |
| `LiveSafety.PositionStaysOrdered` | src/cryptotrader/live/engine.py:268-289 | the price order of an open position survives every interleaving, failed exits, overlapping flattens and adoption |
| `LiveSafety.CurveInTimeOrder` | src/cryptotrader/live/engine.py:179-188 | equity samples are recorded in time order over every interleaving |
| `ExitOwnership.FilledExitOutcome` | src/cryptotrader/live/engine.py:319-345 | over every schedule a filled exit, a bar's or a flatten's, closes the position its task captured (side, quantity, entry price and time) if and only if no trade was booked since it began; otherwise that position is already the trade of that number, and the fill raises while flat, ending its task and booking nothing, or closes a position opened later; the trade carries the reason the exit was asked for and the fill's price, time and fee |
| `ExitOwnership.OwnExactlyWithoutCloses` | src/cryptotrader/live/engine.py:319-345 | an exit that began after one schedule and fills after more events closes its own position exactly when none of those events closed a position |
| `ExitOwnership.ExitsAreFreshExactly` | src/cryptotrader/live/engine.py:319-345 | over a run every exit under way would always close its own position if it filled, if and only if no position is closed while another exit is under way |
| `ExitOwnership.ExitsCloseTheirOwn` | src/cryptotrader/live/engine.py:319-345 | on such runs every exit that fills closes the position it captured and books that trade |
| `LiveOutcomes.AdoptionOpens` | src/cryptotrader/live/engine.py:151-170 | start-up adoption opens the exchange's position at its entry price and absolute quantity, with barriers at the configured multiples of the ATR and no fee, and goes on to protect it |
| `LiveOutcomes.StaleBarIsIgnored` | src/cryptotrader/live/engine.py:120-126 | a bar not newer than the last, or while one is handled, changes nothing; any other becomes the last bar |
| `LiveOutcomes.BarExitsExactly` | src/cryptotrader/live/engine.py:268-289 | a bar begins a barrier exit of the open position if and only if it reaches the stop or the target or uses up the time, whatever went before; it asks for the stop before the target before the close |
| `LiveOutcomes.FailedExitGoesOn` | src/cryptotrader/live/engine.py:337-343 | a failed exit leaves portfolio and exchange alone and its task goes on: a barrier's to the decision, a signal's and a flatten's to the equity sample, marked at the close |
| `LiveOutcomes.FailedEntrySkips` | src/cryptotrader/live/engine.py:299-304 | a failed entry leaves everything alone but the bar's equity sample |
| `LiveOutcomes.FailedExitIsRetriedExactly` | src/cryptotrader/live/engine.py:337-343 | the next bar attempts a failed barrier exit again if and only if it too reaches a barrier or the time is up; for a time exit it always is |
| `LiveOutcomes.BarTaskEndsExactly` | src/cryptotrader/live/engine.py:105-134 | over every schedule the bar task ends exactly when it is killed, the store refuses a write it waits for, or its exit fills after another close |
| `LiveOutcomes.FlattenEndsExactly` | src/cryptotrader/live/engine.py:179-188 | and a flatten fails exactly when the store refuses its trade, or its exit fills after another close |
| `LiveSchedules.StaleFlattenClosesLaterPosition` | src/cryptotrader/live/engine.py:179-188 | a concrete schedule from start-up: a flatten's exit of a position of 1 outlives a stop-out and a resumed entry, and its fill closes the new position of 10 |
| `LiveCooldown.EntriesAreSpaced` | src/cryptotrader/live/engine.py:231-262 | over every interleaving no entry fills before bar c + cooldown_bars after a barrier exit on bar c, nor before c + cooldown_bars + 1 after a signal exit |
| `LiveCooldown.EntriesWaitAfterFlatten` | src/cryptotrader/live/engine.py:179-188 | after a flatten's close on bar c, whatever resumes and follows, no position opens before bar c + cooldown_bars if it overtook a barrier exit and c + cooldown_bars + 1 otherwise, unless the bar task was about to decide with no cooldown left |
| `LiveCooldown.DecisionIgnoresFlatten` | src/cryptotrader/live/engine.py:231-262 | if it was, the engine, on an exchange or on paper, once resumed enters on the same bar exactly when the signal is sized, however long the cooldown |
| `LiveSchedules.FlattenBeforeDecisionSchedule` | src/cryptotrader/live/engine.py:231-262 | a concrete schedule from start-up that does so: with five bars of cooldown configured, an entry is ordered on the bar of the flatten's close |
| `LiveLedger.PaperRunConservesCosts` | src/cryptotrader/live/engine.py:227-317 | whenever a paper run is flat, equity is initial + frictionless profit - slippage - fees = initial + net trade profits - entry fees, over every interleaving |
| `LiveLedger.EveryRunNets` | src/cryptotrader/backtest/portfolio.py:75-140 | with any exchange fills, failures and adopted positions, realised equity is initial + net trade profits - fees of all entries, at every moment of every interleaving |
| `LiveLedger.ExchangeFillIsFair` | src/cryptotrader/execution/live.py:250-266 | the slippage recorded for an exchange fill is what it lost against the close if and only if it did no better than the close |
| `ExchangeLedger.ExchangeRunConservesCosts` | src/cryptotrader/live/engine.py:291-345 | over every schedule of exchange fills at any prices, with exits that fill in full for the position they captured, adopted positions, failures and overlaps included: whenever flat, equity is initial + net trade profits - entry fees, and initial + frictionless profit at the closes - slippage - fees + what the fills did better than recorded, which is never negative; without that last term the identity holds if and only if no fill did better than its close |
| `LossFloor.RoundTripKeepsShare` | src/cryptotrader/risk/manager.py:83-88 | one round trip left at the stop or better, or no worse than its entry reference, keeps (1 - K) of the equity it started from, K from risk_per_trade, max_leverage, slippage and fees only |
| `LossFloor.LossFloor` | src/cryptotrader/live/engine.py:258-317 | over every interleaving of bars, flattens, resumes and store failures with paper fills, an engine flat after N round trips has at least (1 - K)^N of its starting equity |
| `ProtectiveProtocol.NoOrderIsForgotten` | src/cryptotrader/execution/live.py:185-227 | on every schedule in which a failed cancel finds nothing to cancel and no task is killed with ids in hand, every resting order is tracked or in exactly one task's hands; without native fills those are all the ids kept |
| `ProtectiveProtocol.NoOrderIsForgottenExactly` | src/cryptotrader/execution/live.py:218-227 | without native fills that is exact: no resting order is ever without a keeper if and only if no cancel of a resting order fails and no task is killed with ids in hand |
| `ProtectiveProtocol.NativeOrdersAreControlled` | src/cryptotrader/execution/live.py:185-227 | on every such schedule that keeps no id at a close and accepts no order while flat, whatever else overlaps or fails: at most two native orders rest, none rests, is tracked or is in hand while flat, and with no ids in hand every resting order is tracked |
| `ProtectiveProtocol.NothingRestsWhileFlatExactly` | src/cryptotrader/live/engine.py:319-345 | without native fills that guard is exact: nothing ever rests while flat if and only if at every close no id is tracked or in hand and no order is accepted while flat |
| `ProtectiveOverlaps.SettledClosesAreGuarded` | src/cryptotrader/live/engine.py:179-188 | a guard a flatten can check is enough: positions are closed only while nothing is tracked and no task is cancelling or placing |
| `ProtectiveOverlaps.ExclusiveIsSettled` | src/cryptotrader/live/engine.py:179-347 | schedules whose exits and placements never overlap meet both guards |
| `ProtectiveOverlaps.PaperIsSettled` | src/cryptotrader/live/engine.py:227-347 | every schedule of a paper engine meets both guards |
| `ProtectiveStages.CloseLeavesWhatIsOwned` | src/cryptotrader/live/engine.py:319-345 | a close leaves the engine flat with exactly the orders resting whose ids were tracked or in hand, so something rests exactly when an id was kept |
| `ProtectiveStages.CloseInsideCancel` | src/cryptotrader/execution/live.py:218-227 | a close booked inside another task's cancel phase is flat with exactly the ids not yet cancelled still resting |
| `ProtectiveStages.FlattenInsidePlacement` | src/cryptotrader/execution/live.py:185-216 | a flatten that fills inside a placement with nothing tracked, while it loads markets, clears earlier orders or creates the stop or the target, ends flat with exactly the orders that placement got accepted resting and tracked; something rests if and only if one was accepted |
| `ProtectiveStages.FlattenAcrossPlacement` | src/cryptotrader/execution/live.py:185-216 | a flatten that orders its exit inside a placement and fills after the placement has ended also ends flat with exactly the accepted orders resting and tracked, although no task is placing at the close |
| `ProtectiveStages.KilledHolderOrphans` | src/cryptotrader/api/controller.py:190-200 | if the bar task is cancelled with ids in hand, the next flatten ends flat with exactly their orders still resting, at least one, and no id kept anywhere |
| `LiveSchedules.OverlapLeavesOrdersWhileFlat` | src/cryptotrader/execution/live.py:198-216 | a concrete schedule from start-up in which a flatten lands inside a placement: flat, both orders resting |
| `LiveSchedules.FlattenInsideCancelSchedule` | src/cryptotrader/live/engine.py:319-326 | a concrete schedule from start-up in which a flatten lands inside a stop-out's cancels: flat, both orders resting, none tracked |
| `CcxtHandlerModel.CcxtHandler.PlaceProtective` | src/cryptotrader/execution/live.py:185-216 | never stacks: afterwards exactly the newly accepted orders of the symbol rest and are tracked; other symbols are untouched |
| `CcxtHandlerModel.CcxtHandler.CancelProtective` | src/cryptotrader/execution/live.py:218-227 | untracks the symbol and cancels everything tracked for it, and nothing else; without a client it cancels nothing, and then every order stays tracked exactly when none of the symbol's rests |
| `TripleBarrier.MakeTripleBarrierLabels` | src/cryptotrader/ml/model.py:40-70 | every bar gets the first barrier its window touches (upper wins a tie), 0 at the window's end without a touch or a usable ATR, and the last bar when the window does not fit |
| `TripleBarrier.LabelIsUnique` | src/cryptotrader/ml/model.py:48-70 | that description leaves one label and one window end per bar |
| `TripleBarrier.LabelSpan` | src/cryptotrader/ml/model.py:46-70 | i <= t1 <= n - 1 and t1 <= i + horizon |
| `TripleBarrier.FullWindowIsStable` | src/cryptotrader/ml/model.py:48-66 | a bar whose window fits has the same label and end on any longer series |
| `TripleBarrier.ShortWindowIsNotStable` | src/cryptotrader/ml/model.py:68-70 | a bar whose window does not fit changes its label or its end as soon as the window fits, and without a usable ATR the end moves later |
| `TripleBarrier.FinalExactly` | src/cryptotrader/ml/model.py:68-70 | a label is the one of any longer series that holds the whole window if and only if the shorter series held it already |
| `TrendScanning.SlopeIsLeastSquares` | src/cryptotrader/ml/model.py:103-112 | the window slope is the least-squares slope: no line of any height and slope leaves a smaller squared error, and the error left is the one the t-statistic uses |
| `TrendScanning.BestIsMostSignificant` | src/cryptotrader/ml/model.py:98-118 | the scan keeps, per bar, the shortest of the fitting windows of greatest squared t-statistic |
| `TrendScanning.MakeTrendScanningLabels` | src/cryptotrader/ml/model.py:98-128 | the loops compute, for every bar, the label and window end that `TrendDirection.LabelIsDirection` describes |
| `TrendScanning.TrendSpan` | src/cryptotrader/ml/model.py:120-124 | labels are -1, 0 or 1 and i <= t1 <= n - 1 |
| `TrendDirection.LabelIsDirection` | src/cryptotrader/ml/model.py:98-128 | a label of +1 (-1) means that the shortest of the most significant allowed windows clears the threshold and its least-squares line ends above (below) where it starts, 0 that no allowed window clears it or every one is flat, each if and only if; the span ends with that window, or on the next bar without one |
| `TrendDirection.MovingPricesAreLabelled` | src/cryptotrader/ml/model.py:98-128 | at threshold 0 a bar followed by strictly rising log prices is labelled +1 and one followed by falling ones -1, as soon as a window fits |
| `TrendDirection.LeastSquaresIsUnique` | src/cryptotrader/ml/model.py:103-112 | a window has one least-squares slope |
| `TrendDirection.SlopeOverItsError` | src/cryptotrader/ml/model.py:109-114 | the squared t-statistic is the squared slope over its squared standard error, from the error the least-squares line leaves |
| `TrendScanning.FullWindowIsStable` | src/cryptotrader/ml/model.py:101-124 | a bar with its longest window inside the series has the same label and end on any longer series |
| `LabelExits.ShortTradeIsTheLabel` | src/cryptotrader/ml/model.py:48-66 | a short entered at the labelled close, stopped at the label's upper level with its target at the lower one, leaves on bar t1, by stop, target or time exactly as the label is +1, -1 or 0 |
| `LabelExits.LongTradeIsTheLabel` | src/cryptotrader/ml/model.py:48-66 | a long with the label's own two multipliers leaves on bar t1 with the signs swapped, except that a bar straddling both levels, labelled +1, stops it out |
| `LabelExits.ShortNeedsEqualMultipliers` | src/cryptotrader/ml/model.py:48-66 | the engine's own short, whose stop is the stop multiple away, leaves for another reason than the label on some two bars as soon as the multipliers differ |
| `LabelExits.EngineLeavesOnExitBar` | src/cryptotrader/live/engine.py:268-289 | the live engine, under any signals that never oppose the position before its exit bar, keeps it through every earlier bar and books one trade with that reason on the exit bar, whatever the signal there |
| `LabelExits.EngineTradeIsTheLabel` | src/cryptotrader/live/engine.py:227-317 | end to end without slippage: the trade the engine enters on bar i, a long with any multipliers or a short with equal ones, stays open until t1 when no signal before opposes it, and leaves for the reason the label names |
| `SampleWeights.InformationIsConserved` | src/cryptotrader/ml/model.py:152-163 | the sum over labels of span length times uniqueness is the number of bars some span covers |
| `SampleWeights.LabelSpansCoverAll` | src/cryptotrader/ml/model.py:123-124 | spans that start at their own bar and do not run backwards cover every bar |
| `SampleWeights.UniquenessRange` | src/cryptotrader/ml/model.py:160-163 | every unnormalised weight lies in (0, 1] |
| `SampleWeights.CountConcurrency` | src/cryptotrader/ml/model.py:156-159 | the slice-increment loop counts, for every bar, the spans that cover it |
| `SampleWeights.MakeSampleWeights` | src/cryptotrader/ml/model.py:152-167 | weights are the uniqueness values over one common positive mean, and sum to n; no labels give no weights |
| `WalkForward.TrimIsSound` | scripts/walkforward.py:107 | trimming the last `lookahead` rows keeps exactly the rows whose window fits, if and only if not n < lookahead < 2n (there the slice wraps around) |
| `WalkForward.WrappedTrimKeepsUnstableRow` | scripts/walkforward.py:107 | in that range row 0 is kept although its label or its window end still changes |
| `WalkForward.KeptTripleLabelsAreFinal` | scripts/walkforward.py:98-108 | outside it every kept triple-barrier label equals the one on any longer series, and its window ends before the fold's test start |
| `WalkForward.KeptTripleLabelsAreFinalExactly` | scripts/walkforward.py:98-108 | against any longer series that holds every window, all kept rows have their final label if and only if the slice does not wrap around |
| `WalkForward.KeptTrendLabelsAreFinal` | scripts/walkforward.py:98-108 | the same for trend-scanning labels |
| `WalkForward.Folds` | scripts/walkforward.py:215-236 | folds train on everything before their own test slice, follow one another without a gap, their test slices laid end to end are exactly the bars after the first training window, all but the last have one length, the last that length and less than one bar per fold more, and none is empty when there is a bar for each |
| `FractionalDifference.FracWeights` | src/cryptotrader/data/features.py:75-79 | the weight loop yields the coefficients of (1 - L)^d |
| `FractionalDifference.OrdersAdd` | src/cryptotrader/data/features.py:75-79 | convolving the weights of orders a and b gives those of order a + b |
| `FractionalDifference.OppositeOrdersCancel` | src/cryptotrader/data/features.py:75-79 | the weights of orders d and -d convolve to the unit |
| `FractionalDifference.PartialSum` | src/cryptotrader/data/features.py:75-79 | the weights of order d up to n sum to weight n of order d - 1 |
| `FractionalDifference.TailIsNegative` | src/cryptotrader/data/features.py:75-79 | for 0 < d < 1 every weight after the first is negative |
| `FractionalDifference.PartialSumsStayPositive` | src/cryptotrader/data/features.py:75-79 | for 0 < d < 1 the partial sums are positive and strictly decreasing |
| `FractionalDifference.FilterSeesItsWindow` | src/cryptotrader/data/features.py:82-89 | past the warm-up a value is the backward dot product with exactly the last `window` inputs; before it there is none |
| `FractionalDifference.LongWindowIsWhole` | src/cryptotrader/data/features.py:82-89 | with a window as long as the history the filter is the whole-history filter, up to the mask |
| `FractionalDifference.FiltersCompose` | src/cryptotrader/data/features.py:82-89 | whole-history filters compose by adding orders |
| `FractionalDifference.DifferencingIsInvertible` | src/cryptotrader/data/features.py:82-89 | differencing of order -d undoes differencing of order d, for every series |
| `Smoothing.SeedFades` | src/cryptotrader/data/features.py:32-33 | two smoothings that agree after a cut differ by exactly (1 - alpha)^m times their difference at the cut |
| `Smoothing.EmaStaysInRange` | src/cryptotrader/data/features.py:32-33 | a smoothing never leaves the range of its inputs |
| `Smoothing.BufferError` | src/cryptotrader/data/features.py:32-33 | a buffer of m + 1 values is off by at most (1 - alpha)^m times the range of the inputs |
| `Smoothing.WilderBufferError` | src/cryptotrader/data/features.py:32-33 | a Wilder mean over the buffer is defined exactly when its period fits, and is then off by no more |
| `FeatureMeaning.EmaLags` | src/cryptotrader/data/features.py:32-33 | a smoothing of a rising series is below its newest value, of a falling one above it |
| `FeatureMeaning.SpanIsAge` | src/cryptotrader/data/features.py:437 | a span of n weighs its values as if they were (n - 1) / 2 bars old |
| `FeatureMeaning.TrendFollowsPrices` | src/cryptotrader/data/features.py:437-438 | the trend sign is +1 on rising closes and -1 on falling ones |
| `FeatureMeaning.TrueRangeIsHull` | src/cryptotrader/data/features.py:36-40 | true range is the length of the shortest interval that holds the bar's range and the previous close |
| `FeatureMeaning.ObvFollowsClose` | src/cryptotrader/data/features.py:277-278 | on-balance volume gains a bar's volume when its close rises, loses it when it falls, and stays otherwise |
| `FeatureMeaning.ReturnsAddUp` | src/cryptotrader/data/features.py:211-212 | log returns add up to the log return of the whole span |
| `FeatureMeaning.RolledSum` | src/cryptotrader/data/features.py:247-253 | a rolling sum of w values is what the running total gained over them, and is undefined before the w-th |
| `FeatureMeaning.LagsAdd` | src/cryptotrader/data/features.py:218 | lags add, and a lag of k leaves the first k values undefined |
| `FeatureMeaning.PriceZReadsCloses` | src/cryptotrader/data/features.py:253 | the price z-score is the statistic of exactly the newest window of closes, undefined before |
| `FeatureMeaning.ObvZReadsVolumes` | src/cryptotrader/data/features.py:277-278 | the volume z-score is the statistic of exactly the newest window of signed volumes |
| `FeatureMeaning.VolatilityReadsReturns` | src/cryptotrader/data/features.py:239 | volatility is the deviation of exactly the newest window of returns |
| `FeatureMeaning.VolRankReadsVolatility` | src/cryptotrader/data/features.py:443-446 | its rank is that among the newest window of volatilities, one half where undefined |
| `FeatureMeaning.WholeOrders` | src/cryptotrader/data/features.py:272 | of order 1 the fractional difference is the difference of log closes, of order 0 the log close |
| `FeatureMeaning.RowsAreValidFrom` | src/cryptotrader/data/features.py:448-452 | a row of the modelled columns is valid exactly from the bar on that every window and Wilder's period fit and the first return, volume change and volatility exist |
| `FeatureMeaning.WarmUpSuffices` | src/cryptotrader/data/features.py:183-191 | so the engine's warm-up suffices: from then on the row it computes is complete |
| `FeatureMeaning.RsiIsShare` | src/cryptotrader/data/features.py:47-52 | RSI is the share of average gain in average gain and loss, in percent, and is defined exactly after one period of changes |
| `FeatureMeaning.RsiFollowsCandles` | src/cryptotrader/data/features.py:47-52 | closes that each gain at least d have an RSI of at least 100 d / (d + EPS); closes that never gain have one of 0 |
| `FeatureMeaning.CandlesMoveTheColumns` | src/cryptotrader/data/features.py:356-364 | on candles that move one way trend and return carry that sign, and the centred RSI is at the end of [-1, 1] it points to |
| `Columns.LocalComposes` | src/cryptotrader/data/features.py:247-253 | a feature of width r2 over one of width r1 is a function of the last r1 + r2 - 1 inputs up to its own bar, of nothing before and nothing after |
| `Columns.RolledIsLocal` | src/cryptotrader/data/features.py:55-58 | a rolling statistic with min_periods equal to its window is a function of that window only, undefined inputs included |
| `Columns.LaggedIsLocal` | src/cryptotrader/data/features.py:218 | a lag of k bars is a function of the last k + 1 inputs |
| `Columns.ObvChangeIsLocal` | src/cryptotrader/data/features.py:277-278 | on-balance volume depends on where the frame starts, its differences on the last two bars only |
| `Columns.FracdiffIsLocal` | src/cryptotrader/data/features.py:82-89 | the fractional difference is a function of its window only |
| `Columns.SmoothedIsCausal` | src/cryptotrader/data/features.py:32-33 | exponential and Wilder smoothing are functions of the inputs up to their own bar |
| `BufferedFeatures.FeatureEngine.Update` | src/cryptotrader/data/features.py:454-465 | a row is computed from the warmup-th bar on, from the last max(5 warmup, 700) bars of the history, and handed out exactly when complete |
| `BufferedFeatures.FeatureEngine.Reset` | src/cryptotrader/data/features.py:471-473 | forgets the bars and the last row, keeps the external observation |
| `BufferedFeatures.FeatureEngine.SetExternal` | src/cryptotrader/data/features.py:467-469 | keeps the observation, an empty one counting as none |
| `BufferedFeatures.LiveSmoothing` | src/cryptotrader/data/features.py:454-465 | live smoothing equals whole-history smoothing while the history fits the buffer, then differs by exactly the faded difference at the cut |
| `BufferedFeatures.LocalFeatureIsExact` | src/cryptotrader/data/features.py:454-465 | a feature of width r is the same live and over the whole history once r bars fit the buffer |
| `LiveParity.LiveRowIsBatchRow` | src/cryptotrader/data/features.py:454-465 | the newest live row is valid exactly when the whole history's is; return, price and OBV z-scores, fractional difference, volatility and volatility rank are equal; ATR is off by at most the faded largest true range; the trend sign is equal wherever the close is further from its average than the faded range of closes; while the history fits the buffer nothing differs in these columns |
| `LiveParity.CapacityFits` | src/cryptotrader/data/features.py:183-192 | the engine's own buffer, five warm-ups of at least every window plus two, holds all those columns need |
| `HigherTimeframe.CandlesAreLastCloses` | src/cryptotrader/data/features.py:356 | resampling gives every candle with a bar in it, in order, the close of its last bar |
| `HigherTimeframe.OnlyCompletedCandles` | src/cryptotrader/data/features.py:351-370 | for any indicators silent on one candle, the columns of a bar are the indicators of the candles completed before its own, zero where undefined, on short frames and long ones |
| `HigherTimeframe.LeakFree` | src/cryptotrader/data/features.py:351-370 | two frames whose completed candles before a bar's own have the same closes give it the same columns |
| `HigherTimeframe.TruncationChangesNothing` | src/cryptotrader/data/features.py:351-370 | cutting the frame off right after a bar changes nothing at that bar, across the len(htf) > 2 branch included |
| `HigherTimeframe.IndicatorsNeedTwo` | src/cryptotrader/data/features.py:356-370 | trend, return and RSI of a single candle all fill to zero, which is why the short-frame branch agrees with the long one |
| `HigherTimeframe.SourceColumnsAreLeakFree` | src/cryptotrader/data/features.py:355-370 | both results for the source's own trend, return and RSI |
| `HigherTimeframe.FixedGridIsValid` | src/cryptotrader/data/features.py:356 | candles of fixed width from a fixed origin meet the condition the theorems put on the resampling grid |
| `BarCapture.CaptureFile.AppendBars` | src/cryptotrader/integrations/mt5/store.py:32-55 | an empty frame or a failing file system changes nothing and reports 0; otherwise the file is the merged, de-duplicated, sorted, capped table and its size is reported |
| `BarCapture.CleanLists` | src/cryptotrader/integrations/mt5/store.py:47 | de-duplicating (last row wins) and sorting lists the table of the writes in strictly increasing time order |
| `BarCapture.CaptureIsIncremental` | src/cryptotrader/integrations/mt5/store.py:42-52 | capping after every append equals merging every batch and capping once |
| `BarCapture.FileIsTheNewestOfEverything` | src/cryptotrader/integrations/mt5/store.py:42-52 | after any appends the file holds exactly the newest cap times ever written, each with its last-written row; all of them without a positive cap |
| `BarCapture.NewestIsUnique` | src/cryptotrader/integrations/mt5/store.py:42-52 | that description leaves one possible file |
| `BarCapture.ResendChangesNothing` | src/cryptotrader/integrations/mt5/store.py:42-52 | appending the newest batch again changes nothing |
| `TradeStoreModel.TradeStore.RecordTrade` | src/cryptotrader/persistence/database.py:210-236 | a trade commits itself and everything buffered; on a store that is not connected it raises and changes nothing |
| `TradeStoreModel.TradeStore.RecordEquity` | src/cryptotrader/persistence/database.py:238-247 | a sample commits the buffer exactly when it is the batch's last; on a store that is not connected it raises |
| `TradeStoreModel.TradeStore.Flush` | src/cryptotrader/persistence/database.py:249-253 | commits the buffer and resets the counter when connected |
| `TradeStoreModel.TradeStore.Close` | src/cryptotrader/persistence/database.py:163-167 | commits the buffer before disconnecting |
| `TradeStoreModel.CallRefines` | src/cryptotrader/persistence/database.py:210-247 | a call that goes through its suspension points undisturbed does what the uninterrupted method does |
| `TradeStoreModel.CrashDurability` | src/cryptotrader/persistence/database.py:210-253 | at any crash point of any interleaving the durable rows are a prefix of the write log, every trade whose call returned is durable, and fewer than a batch of samples is lost unless some call is between its insert and its commit |
| `TradeStoreModel.SequentialLoss` | src/cryptotrader/persistence/database.py:238-253 | with one call at a time at most one full batch of samples is lost |
| `TradeStoreModel.FullBatchLostExactly` | src/cryptotrader/persistence/database.py:238-253 | with one call at a time, among samples, trades and flushes, exactly n samples are lost if and only if the call in flight is past its insert and is the batch's n-th sample, or is already committing n of them |
| `TradeStoreModel.FullBatchCanBeLost` | src/cryptotrader/persistence/database.py:238-247 | for every batch size a crash between the n-th insert and its commit loses all n samples |
| `Drawdown.ScanDrawdown` | src/cryptotrader/backtest/metrics.py:70-78 | the single pass computes the largest drawdown from a positive running peak |
| `Drawdown.DrawdownIsAttained` | src/cryptotrader/backtest/metrics.py:70-78 | on every curve the result is the loss between two actual samples, or zero without a positive one |
| `Drawdown.PeakBoundsExactly` | src/cryptotrader/backtest/metrics.py:70-78 | at a sample the loss from the running peak bounds the loss from every earlier positive sample, if and only if the sample is not negative or all positive samples up to it are equal |
| `Drawdown.PeaksSufficeExactly` | src/cryptotrader/backtest/metrics.py:70-78 | it does so at every sample exactly when no negative sample follows two different positive ones |
| `Drawdown.DrawdownIsPairwise` | src/cryptotrader/backtest/metrics.py:70-78 | on every such curve, non-negative ones in particular, the result is the maximum of (e_i - e_j) / e_i over i <= j |
| `Drawdown.NegativeEquityBreaksPairs` | src/cryptotrader/backtest/metrics.py:70-78 | for any a < b positive and c negative, the curve [a, b, c] has a pair that loses more than the result |
| `CircuitBreaker.Controller.Breached` | src/cryptotrader/api/controller.py:218-241 | the risk check with its day and peak baselines: halted, empty and non-positive equity report nothing |
| `CircuitBreaker.Controller.CheckCircuitBreaker` | src/cryptotrader/api/controller.py:244-251 | schedules a flatten exactly when idle and breached, and becomes active |
| `CircuitBreaker.Controller.Resume` | src/cryptotrader/api/controller.py:272-281 | clears halt and breaker and re-bases the peak only |
| `CircuitBreaker.RiskBreachExactly` | src/cryptotrader/api/controller.py:218-241 | a breach is reported if and only if nothing is halted, some engine reports, their sum is positive, the day is the baselines' own and the loss from the day's start or from the running peak reaches its limit; halted, without an engine or a positive sum no baseline moves |
| `CircuitBreaker.FiresAtFirstCrossing` | src/cryptotrader/api/controller.py:218-251 | within a day with positive equity an idle breaker, whatever its day and peak baselines, fires at exactly the first update where the loss since the day's start, or the maximum drawdown of the peak baseline and all updates, reaches its limit |
| `CircuitBreaker.FiresAfterResume` | src/cryptotrader/api/controller.py:218-281 | the same for the rest of a day after a resume: the drawdown counts from the equity resumed at, the day's loss still from the day's start |
| `CircuitBreaker.NewDayRearms` | src/cryptotrader/api/controller.py:228-230 | the first update of a new day never fires and re-bases both limits on its own equity |
| `CircuitBreaker.WipedOutAccountIsIgnored` | src/cryptotrader/api/controller.py:225-227 | at non-positive aggregate equity nothing fires and no baseline moves |
| `CircuitBreaker.ResumeKeepsTheDaysLoss` | src/cryptotrader/api/controller.py:272-281 | after a resume the same equity fires again if and only if the day's loss is still at its limit |
| `CircuitBreaker.OneFlattenPerRearm` | src/cryptotrader/api/controller.py:244-281 | over every schedule the breaker schedules at most one flatten per start or resume |

## Left out

- PortfolioModel.Portfolio.OpenPosition: models the position as a value replaced in the portfolio, so aliasing of the mutable position object is not captured.
- BacktestTheorems.NoLookAhead: takes the feature frame as a function with the prefix property at k; `FeatureFrame` proves that property for the modelled columns, the remaining feature formulas are not modelled.
- FeatureFrame.SourceLayoutIsStable: takes the statistics of a window, the logarithm and the resampling grid as arbitrary functions, and a row as valid when all its modelled columns are.
- BacktestTheorems.BacktestConservesCosts: needs bars with positive prices and open and close inside the range, and cost rates in [0, 1]; the source checks neither.
- LossFloor.LossFloor: needs paper fills, well-formed bars, a positive leverage cap, K <= 1 and no adopted position; gaps through the stop on a real exchange are unbounded.
- ProtectiveProtocol.NativeOrdersAreControlled: covers one symbol; a failed cancel means the order was already gone, accepted orders carry an id, and no task is killed with ids in hand.
- ProtectiveProtocol.NothingRestsWhileFlatExactly: is stated for schedules without native fills; a native order that fires leaves the engine's position open, so with them only the guard's sufficiency is claimed.
- LabelExits.EngineTradeIsTheLabel: needs zero slippage, no opposing signal before t1 and, for a short, equal multipliers, since the engine mirrors its barriers and the labels do not; horizon 0, where the engine has no time exit, is excluded.
- EngineAgreement.EnginesAgreeExactly: covers market entries, paper fills, no halts and no adopted position (limit entries agree only as `LimitEntriesAgreeExactly` says); the equity curve is left out, since the engines sample it on different sides of a fill.
- ExchangeLedger.ExchangeRunConservesCosts: needs exits that fill in full for the position they captured, and entries of non-negative quantity; no price is excluded.
- LiveParity.LiveRowIsBatchRow: says nothing of the three higher-timeframe columns beyond their being defined; bars have low <= high and the trend span is at least 1.
- TrendScanning.MakeTrendScanningLabels: compares squared t-statistics, which order windows as their absolute values do, so no square root is modelled; log prices are the input.
- TradeOutcomes.PaperTradesAreTold: covers the undisturbed paper run; on an exchange the fill's price and quantity are the exchange's.
- HigherTimeframe.LeakFree: takes the logarithm of a price ratio as an arbitrary function and any resampling grid whose labels are left edges; closes are defined numbers.
- BufferedFeatures.FeatureEngine.Update: takes the row computation as an arbitrary function of the buffered bars and the external observation.
- BarCapture.CaptureFile.AppendBars: a failing file system leaves the file as it was; a write torn in the middle is not modelled.
- TradeStoreModel.CrashDurability: allows any order in which queued statements execute, and assumes that commits succeed; foreign keys and reads are left out.
- CircuitBreaker.FiresAtFirstCrossing: is stated within one UTC day with positive aggregate equity and a positive start of the day; a new day starts it afresh.
- IEEE rounding, NaN propagation inside formulas, and partial exit fills: values are exact and fills are full.
- Order rounding, minimum sizes, retries, market loading, and the prices and sizes of native orders in the ccxt handler: an order fills or fails, a native order is accepted or not.
- The trailing stop: its distance is always 0, so it only feeds a display field.
- Warm-up priming, the ATR fallbacks and recorded observations of the live engine: the signal and ATR of a bar are inputs.
- `stop()` and cancellation of a task: one event that ends the task at a suspension point; the engine's own graceful stop between bars is not modelled.
- Model fitting, temperature scaling, the remaining feature formulas, Sharpe and trade statistics, HTTP, notifications, dashboards, configuration loading and the broker's own script: easy or without visible semantics here.
- Compounding and printing of fold results in the walk-forward script, and the pooled extra symbols.
