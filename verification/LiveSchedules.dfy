/** Concrete schedules from start-up that reach the failures the theorems describe. */
module LiveSchedules {
  import opened Types
  import opened PortfolioModel
  import opened LiveEngine
  import opened LiveTasks
  import opened ExitOwnership
  import opened LiveCooldown
  import opened LiveSafety
  import opened ProtectiveStages
  import Risk

  lemma PlainEntry(bar: Bar, e: Eng)
    requires bar.close == 100.0 && e.book.position.None? && e.book.realized == 1000.0 && e.cooldown == 0 && !e.halted
    ensures Decide(PLAIN, e, bar, Some(Signal(Long, 1.0)), 1.0).Enter?
  {
    assert Equity(e.book, bar.close) == 1000.0;
    Risk.QuantityIsLargest(PLAIN.setup.risk, 100.0, 1000.0, 1.0, 1.0);
  }

  lemma ThreeSteps(cfg: Settings, es: seq<Event>, a: Event, b: Event, c: Event)
    ensures Reached(cfg, es + [a, b, c]) == Step(cfg, Step(cfg, Step(cfg, Reached(cfg, es), a), b), c)
    ensures [] + [a, b, c] == [a, b, c]
  {
    var s := InitialSys(cfg);
    var all := es + [a, b, c];
    assert all[..|all| - 1] == es + [a, b];
    assert (es + [a, b])[..|es| + 1] == es + [a];
    assert (es + [a])[..|es|] == es;
    assert Run(cfg, s, es + [a]) == Step(cfg, Run(cfg, s, es), a);
    assert Run(cfg, s, es + [a, b]) == Step(cfg, Run(cfg, s, es + [a]), b);
  }

  lemma OneStep(cfg: Settings, ev: Event)
    ensures Reached(cfg, [ev]) == Step(cfg, InitialSys(cfg), ev)
  {
    assert [ev][..|[ev]| - 1] == [];
    assert Run(cfg, InitialSys(cfg), []) == InitialSys(cfg);
  }

  // ---------------------------------------------------------------- native orders while flat

  /** A filled entry whose native stop is accepted is waiting for its target. */
  lemma EntryReachesPlacement(cfg: Settings, s: Sys, time: int, price: real, quantity: real, fee: real)
    requires !cfg.paper && s.bar.EntryOrdered? && s.tracked == [] && s.eng.book.position.None?
    requires s.eng.lastBar.Some? && s.nextId == 0 && s.resting == {}
    ensures var entered := Step(cfg, s, BarTick(Filled(time, price, quantity, fee)));
            var s' := Step(cfg, Step(cfg, entered, BarTick(Ack)), BarTick(Ack));
            && s'.bar.PlaceTarget? && s'.tracked == [] && s'.eng.lastBar.Some? && s'.eng.book.position.Some?
            && s'.bar.ids == [0] && s'.resting == {0} && s'.nextId == 1
  {
    var s1 := Step(cfg, s, BarTick(Filled(time, price, quantity, fee)));
    assert s1.bar == PlaceBegin(Some(s.bar.bar)) && s1.tracked == [];
    var s2 := Step(cfg, s1, BarTick(Ack));
    assert s2.bar == PlaceStop(Some(s.bar.bar)) && s2.nextId == 0;
  }

  /** The first bar of a run can put an entry in flight. */
  lemma FirstBarCanEnter(bar: Bar)
    requires bar.close == 100.0
    ensures var s := Step(PLAIN, Step(PLAIN, Step(PLAIN, InitialSys(PLAIN), Begin), BarArrives(bar)),
                          BarTick(Observed(Some(Signal(Long, 1.0)), 1.0)));
            && s.bar.EntryOrdered? && s.tracked == [] && s.eng.book.position.None?
            && s.eng.lastBar.Some? && s.nextId == 0 && s.resting == {}
  {
    hide Decide;
    var s2 := Step(PLAIN, Step(PLAIN, InitialSys(PLAIN), Begin), BarArrives(bar));
    assert s2.bar == Observing(bar);
    PlainEntry(bar, s2.eng);
  }

  /** A schedule from start-up to that point. */
  lemma EntrySchedule() returns (cfg: Settings, es: seq<Event>)
    ensures !cfg.paper
    ensures var s := Reached(cfg, es);
            && s.bar.PlaceTarget? && s.tracked == [] && s.eng.lastBar.Some? && s.eng.book.position.Some?
            && s.bar.ids == [0] && s.resting == {0} && s.nextId == 1
  {
    cfg := PLAIN;
    var bar := Bar(1, 100.0, 100.0, 100.0, 100.0, 1.0);
    es := [Begin, BarArrives(bar), BarTick(Observed(Some(Signal(Long, 1.0)), 1.0))];
    FirstBarCanEnter(bar);
    ThreeSteps(cfg, [], es[0], es[1], es[2]);
    var s := Reached(cfg, es);
    var filled := BarTick(Filled(1, 100.0, 10.0, 0.0));
    EntryReachesPlacement(cfg, s, 1, 100.0, 10.0, 0.0);
    ThreeSteps(cfg, es, filled, BarTick(Ack), BarTick(Ack));
    es := es + [filled, BarTick(Ack), BarTick(Ack)];
  }

  /** From start-up: enter, place the stop, flatten before the target's placement returns. The engine
      ends flat with both native orders resting. */
  lemma OverlapLeavesOrdersWhileFlat() returns (cfg: Settings, es: seq<Event>)
    ensures Reached(cfg, es).eng.book.position.None? && Reached(cfg, es).resting == {0, 1}
  {
    cfg, es := EntrySchedule();
    var s := Reached(cfg, es);
    FlattenInsidePlacement(cfg, s, 1, 100.0, 0.0, true, true);
    var closing := FlatTick(|s.flats|, Filled(1, 100.0, s.eng.book.position.value.quantity, 0.0));
    ThreeSteps(cfg, es, FlattenStarts, closing, BarTick(Ack));
    es := es + [FlattenStarts, closing, BarTick(Ack)];
  }

  lemma AdoptionOpens(cfg: Settings, side: Side, quantity: real, entry: real, atr: real, time: int)
    requires !cfg.paper
    ensures var s := Step(cfg, InitialSys(cfg), Adopt(side, quantity, entry, atr, time));
            && s.bar == PlaceBegin(None) && s.tracked == [] && s.resting == {} && s.nextId == 0 && s.flats == []
            && s.eng == NewEng(cfg).(book := s.eng.book)
            && s.eng.book.realized == cfg.accountEquity && s.eng.book.trades == []
            && var order := AdoptedOrder(cfg, Adopt(side, quantity, entry, atr, time));
            && s.eng.book.position
               == Some(OpenedPosition(Fill(time, side, order.quantity, entry, 0.0, 0.0, false),
                                      order.stopDistance, order.tpDistance, order.maxHoldBars))
            && s.eng.lastBar.None?
  {
    hide OpenedPosition, Abs;
    var ev := Adopt(side, quantity, entry, atr, time);
    var order := AdoptedOrder(cfg, ev);
    var fill := Fill(time, side, order.quantity, entry, 0.0, 0.0, false);
    var entered := EntryBooked(InitialSys(cfg).eng, order, fill, entry).value;
    assert Step(cfg, InitialSys(cfg), ev).eng == entered;
    assert entered.book.position == Some(OpenedPosition(fill, order.stopDistance, order.tpDistance, order.maxHoldBars));
  }

  /** An adopted position whose native orders are both accepted. */
  lemma AdoptionProtects(cfg: Settings, side: Side, quantity: real, entry: real, atr: real, time: int)
    requires !cfg.paper
    ensures var s := Step(cfg, Step(cfg, Step(cfg, Step(cfg, InitialSys(cfg), Adopt(side, quantity, entry, atr, time)),
                                              BarTick(Ack)), BarTick(Ack)), BarTick(Ack));
            && s.bar == Idle && s.tracked == [0, 1] && s.resting == {0, 1} && s.flats == []
            && var order := AdoptedOrder(cfg, Adopt(side, quantity, entry, atr, time));
            && s.eng.book.position
               == Some(OpenedPosition(Fill(time, side, order.quantity, entry, 0.0, 0.0, false),
                                      order.stopDistance, order.tpDistance, order.maxHoldBars))
            && s.eng.lastBar.None?
  {
    hide Step;
    var s := Step(cfg, InitialSys(cfg), Adopt(side, quantity, entry, atr, time));
    AdoptionOpens(cfg, side, quantity, entry, atr, time);
    BeginReturns(cfg, s);
    var s2 := Step(cfg, s, BarTick(Ack));
    StopReturns(cfg, s2, true);
    var s3 := Step(cfg, s2, BarTick(Ack));
    assert s3 == Created(s2).(bar := PlaceTarget(None, [0])) && s3.resting == {0} && s3.nextId == 1;
    AdoptedTarget(cfg, s3);
    assert [0] + [1] == [0, 1];
  }

  lemma AdoptedTarget(cfg: Settings, s: Sys)
    requires s.bar.PlaceTarget? && s.bar.after.None?
    ensures Step(cfg, s, BarTick(Ack)) == Created(s).(tracked := s.bar.ids + [s.nextId], bar := Idle)
  {}

  /** A bar that ends the position takes every tracked id in hand. */
  lemma ArrivalCancels(cfg: Settings, s: Sys, bar: Bar)
    requires !cfg.paper && s.bar == Idle && s.tracked != [] && s.eng.lastBar.None?
    requires ArrivalExit(s.eng, bar).Some?
    ensures var s' := Step(cfg, s, BarArrives(bar));
            && s'.bar.CancelOld? && s'.bar.left == s.tracked && s'.tracked == [] && s'.resting == s.resting
            && s'.eng.lastBar.Some? && s'.eng.book.position.Some? && s'.flats == s.flats
  {
    hide BarrierExit;
  }

  /** From start-up: a bar takes out the stop of an adopted position and begins to cancel the native
      orders; a flatten finds none tracked, and fills while both still rest. */
  lemma FlattenInsideCancelSchedule() returns (cfg: Settings, es: seq<Event>)
    ensures var s := Reached(cfg, es);
            && s.eng.book.position.None? && s.resting == {0, 1} && s.tracked == []
            && s.bar.CancelOld? && s.bar.left == [0, 1]
  {
    hide Step, Reached, ArrivalExit;
    cfg := PLAIN;
    var adopt := Adopt(Long, 1.0, 100.0, 1.0, 0);
    var bar := Bar(1, 95.0, 95.0, 90.0, 95.0, 1.0);
    var fill := Filled(1, 95.0, 1.0, 0.0);
    AdoptionProtects(cfg, Long, 1.0, 100.0, 1.0, 0);
    es := [adopt, BarTick(Ack), BarTick(Ack), BarTick(Ack), BarArrives(bar), FlattenStarts, FlatTick(0, fill)];
    ThreeSteps(cfg, [adopt], BarTick(Ack), BarTick(Ack), BarTick(Ack));
    OneStep(cfg, adopt);
    var placed := [adopt] + [BarTick(Ack), BarTick(Ack), BarTick(Ack)];
    var s := Reached(cfg, placed);
    StopIsHit(s.eng, bar);
    ArrivalCancels(cfg, s, bar);
    FlattenFills(cfg, Step(cfg, s, BarArrives(bar)), fill);
    ThreeSteps(cfg, placed, BarArrives(bar), FlattenStarts, FlatTick(0, fill));
    assert es == placed + [BarArrives(bar), FlattenStarts, FlatTick(0, fill)];
  }

  lemma StopIsHit(e: Eng, bar: Bar)
    requires e.book.position.Some? && StopHit(e.book.position.value, bar)
    ensures ArrivalExit(e, bar).Some?
  {}

  // ---------------------------------------------------------------- a stale flatten

  /** An adopted position whose native orders are both rejected. */
  lemma AdoptionUnprotected(cfg: Settings, side: Side, quantity: real, entry: real, atr: real, time: int)
    requires !cfg.paper
    ensures var s := Step(cfg, Step(cfg, Step(cfg, Step(cfg, InitialSys(cfg), Adopt(side, quantity, entry, atr, time)),
                                              BarTick(Ack)), BarTick(Failed)), BarTick(Failed));
            && s == Step(cfg, InitialSys(cfg), Adopt(side, quantity, entry, atr, time)).(bar := Idle)
  {
    hide Step;
    var s := Step(cfg, InitialSys(cfg), Adopt(side, quantity, entry, atr, time));
    AdoptionOpens(cfg, side, quantity, entry, atr, time);
    BeginReturns(cfg, s);
    StopReturns(cfg, s.(bar := PlaceStop(None)), false);
    RejectedTarget(cfg, s.(bar := PlaceTarget(None, [])));
  }

  lemma RejectedTarget(cfg: Settings, s: Sys)
    requires s.bar.PlaceTarget? && s.bar.after.None? && s.tracked == s.bar.ids
    ensures Step(cfg, s, BarTick(Failed)) == s.(bar := Idle)
  {}

  /** A bar that ends nothing and brings no signal. */
  lemma QuietBar(cfg: Settings, s: Sys, bar: Bar)
    requires s.bar == Idle && s.eng.lastBar.None? && s.eng.book.position.Some? && ArrivalExit(s.eng, bar).None?
    requires s.eng.tradesSeen == |s.eng.book.trades| && s.eng.cooldown == 0
    ensures var s' := Step(cfg, Step(cfg, Step(cfg, s, BarArrives(bar)), BarTick(Observed(None, 0.0))), BarTick(Ack));
            && s' == s.(eng := s'.eng, clock := s'.clock) && PositionKept(s.eng.book, s'.eng.book)
            && s'.eng == s.eng.(book := s'.eng.book, lastBar := Some(bar))
            && s'.eng.book.realized == s.eng.book.realized
            && s'.eng.book.position.value.stopLoss == s.eng.book.position.value.stopLoss
  {
    hide BarrierExit, Equity;
  }

  /** A barrier exit whose order fills, recorded; nothing was tracked. */
  lemma BarrierExitFills(cfg: Settings, s: Sys, bar: Bar, fill: Outcome)
    requires !cfg.paper && s.bar == Idle && s.tracked == [] && fill.Filled?
    requires s.eng.lastBar.Some? && s.eng.lastBar.value.time < bar.time
    requires ArrivalExit(s.eng, bar).Some? && s.eng.tradesSeen == |s.eng.book.trades|
    ensures var s' := Step(cfg, Step(cfg, Step(cfg, s, BarArrives(bar)), BarTick(fill)), BarTick(Ack));
            var p := s.eng.book.position.value;
            && s'.bar == Observing(bar) && s'.flats == s.flats && s'.tracked == [] && s'.eng.book.position.None?
            && s'.eng.cooldown == cfg.setup.risk.cooldownBars && |s'.eng.book.trades| == |s.eng.book.trades| + 1
            && s'.eng.book.realized
               == s.eng.book.realized + Gain(p.side, p.quantity, p.entryPrice, fill.price) - fill.fee
  {
    hide BarrierExit, Gain;
    var s1 := Step(cfg, s, BarArrives(bar));
    assert s1.bar.ExitOrdered?;
    var s2 := Step(cfg, s1, BarTick(fill));
    assert s2.bar == Recording(FromBarrier(bar));
  }

  /** Resumed while deciding, the engine enters again. */
  lemma ResumedEntry(s: Sys, fill: Outcome)
    requires s.bar.Observing? && s.bar.bar.close == 100.0 && s.eng.book.position.None? && fill.Filled?
    requires s.eng.book.realized == 1000.0 && s.eng.cooldown == 0
    ensures var s' := Step(PLAIN, Step(PLAIN, Step(PLAIN, s, Resumed), BarTick(Observed(Some(Signal(Long, 1.0)), 1.0))),
                           BarTick(fill));
            && s'.flats == s.flats && s'.eng.book.trades == s.eng.book.trades
            && s'.eng.book.position.Some? && s'.eng.book.position.value.quantity == fill.quantity
  {
    hide Decide;
    PlainEntry(s.bar.bar, s.eng.(halted := false));
  }

  lemma PlainBarriers(e: Eng, bar1: Bar, bar2: Bar)
    requires e.book.position.Some? && bar1.high == bar1.low == 100.0 && bar2.low == 90.0
    requires var order := AdoptedOrder(PLAIN, Adopt(Long, 1.0, 100.0, 1.0, 0));
             e.book.position.value == OpenedPosition(Fill(0, Long, order.quantity, 100.0, 0.0, 0.0, false),
                                                     order.stopDistance, order.tpDistance, order.maxHoldBars)
    ensures var p := e.book.position.value;
            && p.side == Long && p.quantity == 1.0 && p.entryPrice == 100.0 && bar2.low <= p.stopLoss
    ensures ArrivalExit(e, bar1).None?
  {}

  lemma NoGain(p: Position)
    requires p.side == Long && p.entryPrice == 100.0
    ensures Gain(p.side, p.quantity, p.entryPrice, 100.0) == 0.0
  {}

  /** From start-up: a flatten orders its exit of an adopted position of 1, a bar's stop closes that position
      first, and after a resume the bar enters again, for 10. When the flatten's order fills it closes
      the new position, and records that trade as its own. */
  lemma StaleFlattenClosesLaterPosition() returns (es: seq<Event>)
    ensures es != []
    ensures var s := Reached(PLAIN, es[..|es| - 1]);
            && |s.flats| == 1 && s.flats[0].ExitOrdered? && s.flats[0].call.p.quantity == 1.0
    ensures var s := Reached(PLAIN, es);
            && s.eng.book.position.None? && |s.eng.book.trades| == 2 && s.eng.book.trades[1].quantity == 10.0
            && s.flats == [Recording(FromFlatten)]
  {
    hide Step, Run, Decide;
    var adopt := Adopt(Long, 1.0, 100.0, 1.0, 0);
    var bar1, bar2 := Bar(1, 100.0, 100.0, 100.0, 100.0, 1.0), Bar(2, 100.0, 100.0, 90.0, 100.0, 1.0);
    var exit, entry := Filled(2, 100.0, 1.0, 0.0), Filled(2, 100.0, 10.0, 0.0);
    AdoptionOpens(PLAIN, Long, 1.0, 100.0, 1.0, 0);
    AdoptionUnprotected(PLAIN, Long, 1.0, 100.0, 1.0, 0);
    OneStep(PLAIN, adopt);
    ThreeSteps(PLAIN, [adopt], BarTick(Ack), BarTick(Failed), BarTick(Failed));
    var es1 := [adopt] + [BarTick(Ack), BarTick(Failed), BarTick(Failed)];
    var s1 := Reached(PLAIN, es1);
    var p := s1.eng.book.position.value;
    PlainBarriers(s1.eng, bar1, bar2);
    QuietBar(PLAIN, s1, bar1);
    ThreeSteps(PLAIN, es1, BarArrives(bar1), BarTick(Observed(None, 0.0)), BarTick(Ack));
    var es2 := es1 + [BarArrives(bar1), BarTick(Observed(None, 0.0)), BarTick(Ack)];
    var s2 := Reached(PLAIN, es2);
    FlattenOrders(PLAIN, s2);
    RunAppends(PLAIN, InitialSys(PLAIN), es2, FlattenStarts);
    var es3 := es2 + [FlattenStarts];
    var s3 := Reached(PLAIN, es3);
    StopIsHit(s3.eng, bar2);
    BarrierExitFills(PLAIN, s3, bar2, exit);
    ThreeSteps(PLAIN, es3, BarArrives(bar2), BarTick(exit), BarTick(Ack));
    var es4 := es3 + [BarArrives(bar2), BarTick(exit), BarTick(Ack)];
    var s4 := Reached(PLAIN, es4);
    NoGain(p);
    ResumedEntry(s4, entry);
    ThreeSteps(PLAIN, es4, Resumed, BarTick(Observed(Some(Signal(Long, 1.0)), 1.0)), BarTick(entry));
    var es5 := es4 + [Resumed, BarTick(Observed(Some(Signal(Long, 1.0)), 1.0)), BarTick(entry)];
    var s5 := Reached(PLAIN, es5);
    LateFill(PLAIN, s5, Filled(2, 100.0, 1.0, 0.0));
    RunAppends(PLAIN, InitialSys(PLAIN), es5, FlatTick(0, Filled(2, 100.0, 1.0, 0.0)));
    es := es5 + [FlatTick(0, Filled(2, 100.0, 1.0, 0.0))];
    assert es[..|es| - 1] == es5;
  }

  lemma LateFill(cfg: Settings, s: Sys, fill: Outcome)
    requires |s.flats| == 1 && s.flats[0].ExitOrdered? && s.flats[0].call.origin == FromFlatten && fill.Filled?
    requires s.eng.book.position.Some?
    ensures var s', n := Step(cfg, s, FlatTick(0, fill)), |s.eng.book.trades|;
            && s'.eng.book.position.None? && |s'.eng.book.trades| == n + 1
            && s'.eng.book.trades[n].quantity == s.eng.book.position.value.quantity
            && s'.flats == [Recording(FromFlatten)]
            && var p := s.eng.book.position.value;
            && s'.eng.book.realized
               == s.eng.book.realized + Gain(p.side, p.quantity, p.entryPrice, fill.price) - fill.fee
  {
    hide Gain;
    ExitFillBooks(cfg, s, s.flats[0], fill);
  }

  // ---------------------------------------------------------------- a flatten before the decision

  /** The same settings with five bars of cooldown. */
  const COOLING := PLAIN.(setup := PLAIN.setup.(risk := PLAIN.setup.risk.(cooldownBars := 5)))

  lemma CoolingIsSized(bar: Bar)
    requires bar.close == 100.0
    ensures Risk.SizeOrder(COOLING.setup, Signal(Long, 1.0), bar, 1.0, 1000.0, false).Some?
  {
    Risk.QuantityIsLargest(COOLING.setup.risk, 100.0, 1000.0, 1.0, 1.0);
  }

  /** A first bar that ends nothing has reached its decision, and a flatten then orders its exit. */
  lemma QuietArrival(cfg: Settings, s: Sys, bar: Bar)
    requires !cfg.paper && s.bar == Idle && s.eng.lastBar.None? && s.eng.book.position.Some?
    requires s.tracked == [] && s.flats == [] && ArrivalExit(s.eng, bar).None?
    requires s.eng.tradesSeen == |s.eng.book.trades| && s.eng.cooldown == 0
    ensures var s' := Step(cfg, Step(cfg, s, BarArrives(bar)), FlattenStarts);
            && s'.bar == Observing(bar) && Undecided(s') && PositionKept(s.eng.book, s'.eng.book)
            && s'.eng.book.realized == s.eng.book.realized && |s'.flats| == 1 && s'.flats[0].ExitOrdered?
            && s'.flats[0].call.origin == FromFlatten
  {
    hide BarrierExit;
    FlattenOrders(cfg, Step(cfg, s, BarArrives(bar)));
  }

  /** From start-up: a flatten's exit fills after a bar has begun and before it decides; resumed, the bar
      enters at once, although five bars of cooldown are configured. */
  lemma FlattenBeforeDecisionSchedule() returns (es: seq<Event>)
    ensures |es| >= 3 && COOLING.setup.risk.cooldownBars == 5
    ensures var s, n := Reached(COOLING, es[..|es| - 3]), |es|;
            && FlattenCloses(COOLING, s, es[n - 3]) && Undecided(s) && es[n - 2] == Resumed
            && Reached(COOLING, es).bar.EntryOrdered? && Reached(COOLING, es).clock == s.clock
  {
    hide Step, Run, Decide, Risk.SizeOrder;
    var adopt, bar := Adopt(Long, 1.0, 100.0, 1.0, 0), Bar(1, 100.0, 100.0, 100.0, 100.0, 1.0);
    var close, decision := FlatTick(0, Filled(1, 100.0, 1.0, 0.0)), BarTick(Observed(Some(Signal(Long, 1.0)), 1.0));
    AdoptionOpens(COOLING, Long, 1.0, 100.0, 1.0, 0);
    AdoptionUnprotected(COOLING, Long, 1.0, 100.0, 1.0, 0);
    OneStep(COOLING, adopt);
    ThreeSteps(COOLING, [adopt], BarTick(Ack), BarTick(Failed), BarTick(Failed));
    var es1 := [adopt] + [BarTick(Ack), BarTick(Failed), BarTick(Failed)];
    var s1 := Reached(COOLING, es1);
    PlainBarriers(s1.eng, bar, bar.(low := 90.0));
    QuietArrival(COOLING, s1, bar);
    RunAppends(COOLING, InitialSys(COOLING), es1, BarArrives(bar));
    RunAppends(COOLING, InitialSys(COOLING), es1 + [BarArrives(bar)], FlattenStarts);
    var es2 := es1 + [BarArrives(bar)] + [FlattenStarts];
    var s2 := Reached(COOLING, es2);
    NoGain(s2.eng.book.position.value);
    LateFill(COOLING, s2, close.out);
    CoolingIsSized(bar);
    ReachedTyped(COOLING, es2);
    DecisionIgnoresFlatten(COOLING, s2, close, Signal(Long, 1.0), 1.0);
    ThreeSteps(COOLING, es2, close, Resumed, decision);
    es := es2 + [close, Resumed, decision];
    assert es[..|es| - 3] == es2;
  }
}
