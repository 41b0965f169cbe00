/** What single events do to the live engine, spelled out: adoption, filled and failed orders, stale bars, and
    what ends a task. */
module LiveOutcomes {
  import opened Types
  import opened PortfolioModel
  import opened LiveEngine
  import opened LiveTasks
  import opened LiveSafety
  import CostModel
  import Risk

  /** Start-up adoption opens the exchange's position at its entry price with barriers at the configured
      multiples of the ATR, charges nothing, and goes on to protect it. */
  lemma AdoptionOpens(cfg: Settings, ev: Event)
    requires ev.Adopt?
    ensures var s := Step(cfg, InitialSys(cfg), ev);
            && s.eng.book.position.Some? && s.eng.book.realized == cfg.accountEquity && s.eng.book.trades == []
            && s.bar == (if cfg.paper then Idle else PlaceBegin(None))
            && var p := s.eng.book.position.value;
            && p.side == ev.side && p.quantity == (if ev.quantity >= 0.0 then ev.quantity else -ev.quantity)
            && p.entryPrice == ev.entry && p.barsHeld == 0 && p.maxHoldBars == cfg.setup.barriers.horizon
            && p.stopLoss == ev.entry - Signed(ev.side, cfg.setup.barriers.slMult * ev.atr)
            && p.takeProfit == ev.entry + Signed(ev.side, cfg.setup.barriers.tpMult * ev.atr)
  {}

  // ---------------------------------------------------------------- bars in order

  /** A bar that is not newer than the last one, or comes while one is being handled, changes nothing; any
      other becomes the last bar. */
  lemma StaleBarIsIgnored(cfg: Settings, s: Sys, bar: Bar)
    ensures s.bar != Idle || (s.eng.lastBar.Some? && bar.time <= s.eng.lastBar.value.time)
            ==> Step(cfg, s, BarArrives(bar)) == s
    ensures s.bar == Idle && (s.eng.lastBar.None? || s.eng.lastBar.value.time < bar.time)
            ==> Step(cfg, s, BarArrives(bar)).eng.lastBar == Some(bar)
                && Step(cfg, s, BarArrives(bar)).clock == s.clock + 1
  {
    hide BarrierExit, ClosedTrade, CostModel.ApplyCosts, Excursion;
  }

  // ---------------------------------------------------------------- what ends a task

  /** The store refuses a write that the task waits for. */
  predicate StoreFails(t: Task, out: Outcome, recordingOnly: bool) {
    out.Failed? && (t.Recording? || (t.Syncing? && !recordingOnly))
  }

  /** An exit order fills when nothing is open any more. */
  predicate NothingToClose(s: Sys, t: Task, out: Outcome) {
    out.Filled? && t.ExitOrdered? && s.eng.book.position.None?
  }

  /** Over every schedule the bar task ends only when it is killed, when the store fails, or when its exit fills
      after another close: no failed order and no failed cancel ends it. */
  lemma BarTaskEndsExactly(cfg: Settings, es: seq<Event>, ev: Event)
    requires Reached(cfg, es).bar != Dead
    ensures var s := Reached(cfg, es);
            Step(cfg, s, ev).bar == Dead
            <==> || ev.BarDies?
                 || (ev.BarTick? && (StoreFails(s.bar, ev.out, false) || NothingToClose(s, s.bar, ev.out)))
  {
    ReachedTyped(cfg, es);
    BarTaskEnds(cfg, Reached(cfg, es), ev);
  }

  lemma BarTaskEnds(cfg: Settings, s: Sys, ev: Event)
    requires s.bar != Dead && Typed(s)
    ensures Step(cfg, s, ev).bar == Dead
            <==> || ev.BarDies?
                 || (ev.BarTick? && (StoreFails(s.bar, ev.out, false) || NothingToClose(s, s.bar, ev.out)))
  {
    hide BarrierExit, ClosedTrade, CostModel.ApplyCosts, Excursion, Risk.SizeOrder, FlatTask, OpenedPosition;
    if ev.FlatTick? { FlatTickKeepsBar(cfg, s, ev.k, ev.out); }
  }

  lemma FlatTickKeepsBar(cfg: Settings, s: Sys, k: nat, out: Outcome)
    requires Typed(s)
    ensures Step(cfg, s, FlatTick(k, out)).bar == s.bar
  {
    if k < |s.flats| { FlatTickTyped(cfg, s, s.flats[k], out); }
  }

  /** A flatten that waits ends badly only in the same three ways; its own equity sample may fail. */
  lemma FlattenEndsExactly(cfg: Settings, es: seq<Event>, k: nat, out: Outcome)
    requires var s := Reached(cfg, es); k < |s.flats| && s.flats[k] != Dead
    ensures var s := Reached(cfg, es);
            Step(cfg, s, FlatTick(k, out)).flats[k] == Dead
            <==> StoreFails(s.flats[k], out, true) || NothingToClose(s, s.flats[k], out)
  {
    hide Step, Reached;
    var s := Reached(cfg, es);
    ReachedTyped(cfg, es);
    FlattenEnds(cfg, s, k, out);
  }

  lemma FlattenEnds(cfg: Settings, s: Sys, k: nat, out: Outcome)
    requires Typed(s) && k < |s.flats| && s.flats[k] != Dead
    ensures |Step(cfg, s, FlatTick(k, out)).flats| == |s.flats|
    ensures Step(cfg, s, FlatTick(k, out)).flats[k] == Dead
            <==> StoreFails(s.flats[k], out, true) || NothingToClose(s, s.flats[k], out)
  {
    hide ClosedTrade;
    FlatTickTyped(cfg, s, s.flats[k], out);
  }

  // ---------------------------------------------------------------- orders that fail

  /** What a failed order leaves: the portfolio but for an equity sample, and nothing new on the exchange. */
  predicate Untouched(s: Sys, s': Sys) {
    && s'.eng.book == s.eng.book.(curve := s'.eng.book.curve) && s'.resting == s.resting && s'.tracked == s.tracked
    && s'.eng.lastBar == s.eng.lastBar && s'.eng.halted == s.eng.halted
  }

  /** A failed exit leaves the position open and its task going: a barrier's on to the decision, a signal's and a
      flatten's on to the equity sample, which is marked at the bar's close. */
  lemma FailedExitGoesOn(cfg: Settings, s: Sys, t: Task)
    requires t.ExitOrdered?
    ensures var (s', t') := Tick(cfg, s, t, Failed);
            && Untouched(s, s')
            && match t.call.origin
               case FromBarrier(bar) => t' == Observing(bar) && s'.eng.book.curve == s.eng.book.curve
               case FromSignal(bar) =>
                 t' == Syncing
                 && s'.eng.book.curve == s.eng.book.curve + [(bar.time, CashedOut(s.eng.book, bar.close))]
               case FromFlatten =>
                 t' == FlatSyncing
                 && s'.eng.book.curve
                    == if s.eng.lastBar.None? then s.eng.book.curve
                       else s.eng.book.curve
                            + [(s.eng.lastBar.value.time, CashedOut(s.eng.book, s.eng.lastBar.value.close))]
  {
    hide Equity;
    if t.call.origin.FromSignal? { EquityIsLiquidation(s.eng.book, t.call.origin.bar.close); }
    if s.eng.lastBar.Some? { EquityIsLiquidation(s.eng.book, s.eng.lastBar.value.close); }
  }

  /** A failed entry skips the bar. */
  lemma FailedEntrySkips(cfg: Settings, s: Sys, t: Task)
    requires t.EntryOrdered?
    ensures var (s', t') := Tick(cfg, s, t, Failed);
            && Untouched(s, s') && t' == Syncing
            && s'.eng.book.curve == s.eng.book.curve + [(t.bar.time, CashedOut(s.eng.book, t.bar.close))]
  {
    hide Equity;
    EquityIsLiquidation(s.eng.book, t.bar.close);
  }

  /** Bar `bar`, met by position `p`, reaches its stop or its target, or is the last it is held for. */
  predicate Due(p: Position, bar: Bar) {
    || (if p.side == Long then bar.low <= p.stopLoss || bar.high >= p.takeProfit
        else bar.high >= p.stopLoss || bar.low <= p.takeProfit)
    || (p.maxHoldBars != 0 && p.barsHeld + 1 >= p.maxHoldBars)
  }

  /** Why it ends there: the stop before the target, both before the time. */
  function DueReason(p: Position, bar: Bar): Reason {
    if p.side == Long then
      if bar.low <= p.stopLoss then StopLoss else if bar.high >= p.takeProfit then TakeProfit else TimeExit
    else if bar.high >= p.stopLoss then StopLoss else if bar.low <= p.takeProfit then TakeProfit else TimeExit
  }

  /** What the bar task asks of an exit in flight. */
  function Asked(t: Task): Option<Leave> {
    match t
    case CancelOld(call, _) => Some(call.leave)
    case ExitOrdered(call) => Some(call.leave)
    case _ => None
  }

  /** An exit is under way for the bar, or on paper has been made. */
  predicate Exits(s: Sys, bar: Bar) {
    match s.bar
    case CancelOld(call, _) => call.origin == FromBarrier(bar)
    case ExitOrdered(call) => call.origin == FromBarrier(bar)
    case Recording(origin) => origin == FromBarrier(bar)
    case _ => false
  }

  /** Whatever went before, a bar begins a barrier exit of the open position if and only if that bar itself reaches a
      barrier or uses up the time; it asks for the stop before the target before the close. */
  lemma BarExitsExactly(cfg: Settings, s: Sys, bar: Bar)
    requires s.bar == Idle && s.eng.book.position.Some?
    requires s.eng.lastBar.None? || s.eng.lastBar.value.time < bar.time
    ensures Exits(Step(cfg, s, BarArrives(bar)), bar) <==> Due(s.eng.book.position.value, bar)
    ensures !cfg.paper && Due(s.eng.book.position.value, bar) ==>
              var p, leave := s.eng.book.position.value, Asked(Step(cfg, s, BarArrives(bar)).bar);
              && leave.Some? && leave.value.reason == DueReason(p, bar)
              && leave.value.price == (match leave.value.reason
                                       case StopLoss => p.stopLoss
                                       case TakeProfit => p.takeProfit
                                       case _ => bar.close)
  {
    hide ClosedTrade, CostModel.ApplyCosts, Excursion;
  }

  /** The bar whose barrier exit fails, brings no signal and is recorded. */
  function AfterFailedExit(cfg: Settings, s: Sys, bar: Bar): Sys {
    var failed := Step(cfg, Step(cfg, s, BarArrives(bar)), BarTick(Failed));
    Step(cfg, Step(cfg, failed, BarTick(Observed(None, 0.0))), BarTick(Ack))
  }

  lemma FailedBarKeepsPosition(cfg: Settings, s: Sys, bar: Bar)
    requires !cfg.paper && s.bar == Idle && s.tracked == [] && s.eng.book.position.Some?
    requires s.eng.lastBar.None? || s.eng.lastBar.value.time < bar.time
    requires Due(s.eng.book.position.value, bar)
    ensures var s' := AfterFailedExit(cfg, s, bar);
            && s'.bar == Idle && s'.eng.lastBar == Some(bar) && s'.eng.book.trades == s.eng.book.trades
            && s'.eng.book.position == Some(Aged(s.eng.book.position.value))
  {
    hide Step, Equity;
    var p, s1 := s.eng.book.position.value, Step(cfg, s, BarArrives(bar));
    DueBarOrders(cfg, s, bar);
    var s2 := Step(cfg, s1, BarTick(Failed));
    OrderFails(cfg, s1);
    var s3 := Step(cfg, s2, BarTick(Observed(None, 0.0)));
    NothingSignalled(cfg, s2);
    SampleStored(cfg, s3);
  }

  lemma DueBarOrders(cfg: Settings, s: Sys, bar: Bar)
    requires !cfg.paper && s.bar == Idle && s.tracked == [] && s.eng.book.position.Some?
    requires s.eng.lastBar.None? || s.eng.lastBar.value.time < bar.time
    requires Due(s.eng.book.position.value, bar)
    ensures var s' := Step(cfg, s, BarArrives(bar));
            && s'.bar.ExitOrdered? && s'.bar.call.origin == FromBarrier(bar) && s'.eng.lastBar == Some(bar)
            && s'.eng.book == s.eng.book.(position := Some(Aged(s.eng.book.position.value)))
  {
    hide Excursion;
  }

  lemma OrderFails(cfg: Settings, s: Sys)
    requires s.bar.ExitOrdered? && s.bar.call.origin.FromBarrier?
    ensures var s' := Step(cfg, s, BarTick(Failed));
            s'.bar == Observing(s.bar.call.origin.bar) && s'.eng.book == s.eng.book && s'.eng.lastBar == s.eng.lastBar
  {}

  lemma NothingSignalled(cfg: Settings, s: Sys)
    requires s.bar.Observing?
    ensures var s' := Step(cfg, s, BarTick(Observed(None, 0.0)));
            && s'.bar == Syncing && s'.eng.lastBar == s.eng.lastBar
            && s'.eng.book == s.eng.book.(curve := s'.eng.book.curve)
  {
    hide Equity;
  }

  lemma SampleStored(cfg: Settings, s: Sys)
    requires s.bar == Syncing
    ensures Step(cfg, s, BarTick(Ack)) == s.(bar := Idle)
  {}

  /** A barrier exit whose order failed is attempted again by the next bar if and only if that bar too reaches
      the stop or the target or the time is up: an exit for time always is, one for a price only when the price
      comes back. */
  lemma FailedExitIsRetriedExactly(cfg: Settings, s: Sys, bar: Bar, next: Bar)
    requires !cfg.paper && s.bar == Idle && s.tracked == [] && s.eng.book.position.Some? && bar.time < next.time
    requires s.eng.lastBar.None? || s.eng.lastBar.value.time < bar.time
    requires Due(s.eng.book.position.value, bar)
    ensures var p, s' := s.eng.book.position.value, AfterFailedExit(cfg, s, bar);
            && (Exits(Step(cfg, s', BarArrives(next)), next) <==> Due(Aged(p), next))
            && (p.maxHoldBars != 0 && p.barsHeld + 1 >= p.maxHoldBars ==>
                  Exits(Step(cfg, s', BarArrives(next)), next))
  {
    hide Step, Exits, AfterFailedExit;
    FailedBarKeepsPosition(cfg, s, bar);
    BarExitsExactly(cfg, AfterFailedExit(cfg, s, bar), next);
  }
}
