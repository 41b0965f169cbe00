/** Conservation of money in the live engine with paper fills, over every interleaving. */
module LiveLedger {
  import opened Types
  import opened Arith
  import opened PortfolioModel
  import opened LiveEngine
  import opened LiveTasks
  import opened LiveSafety
  import opened Ledger
  import CostModel
  import Risk
  import LossFloor

  ghost predicate Accounted(e: Eng) {
    && LedgerOk(e.book)
    && (e.book.position.Some? ==> PositionPriced(e.book.position.value))
    && (e.book.position.Some? ==> e.lastBar.Some?)
    && (e.lastBar.Some? ==> WellFormedBar(e.lastBar.value))
  }

  lemma PaperExitAccounted(cfg: Settings, e: Eng, p: Position, time: int, leave: Leave)
    requires GoodCosts(cfg.exec) && e.book.position == Some(p) && leave.price > 0.0
    requires LedgerOk(e.book) && PositionPriced(p)
    ensures var e' := PaperExit(cfg, e, p, time, leave);
            e'.Some? && LedgerOk(e'.value.book) && e'.value.book.position.None? && e'.value.lastBar == e.lastBar
  {
    CostedFillIsFair(ExitOrder(p, time), leave.price, cfg.exec);
    CloseKeepsLedger(e.book, CostModel.ApplyCosts(ExitOrder(p, time), leave.price, cfg.exec), leave.reason,
                     leave.price);
  }

  lemma PaperEntryAccounted(cfg: Settings, e: Eng, bar: Bar, signal: Option<Signal>, atr: real)
    requires GoodSettings(cfg) && Accounted(e) && e.lastBar == Some(bar)
    requires Decide(cfg, e, bar, signal, atr).Enter?
    ensures var e' := PaperEntry(cfg, e, Decide(cfg, e, bar, signal, atr).order, bar);
            e'.Some? && Accounted(e'.value)
  {
    DecidedEntry(cfg, e, bar, signal, atr);
    var o := Decide(cfg, e, bar, signal, atr).order;
    CostedFillIsFair(o, bar.close, cfg.exec);
    CostModel.FillLosesItsSlippage(o, bar.close, cfg.exec);
    OpenKeepsLedger(e.book, CostModel.ApplyCosts(o, bar.close, cfg.exec), o.stopDistance, o.tpDistance, o.maxHoldBars,
                    bar.close);
  }

  lemma ArrivalAccounted(cfg: Settings, s: Sys, bar: Bar)
    requires GoodSettings(cfg) && cfg.paper && WellFormedBar(bar) && s.bar == Idle && Accounted(s.eng)
    ensures Accounted(OnArrival(cfg, s, bar).eng)
  {
    if s.eng.book.position.Some? && ArrivalExit(s.eng, bar).Some? {
      var q := Aged(s.eng.book.position.value);
      ExitPricePositive(q, bar);
      PaperExitAccounted(cfg, Arrived(s.eng, bar), q, bar.time, ArrivalExit(s.eng, bar).value);
    }
  }

  lemma MarkAccounted(e: Eng, bar: Bar)
    requires Accounted(e)
    ensures Accounted(BarMarked(e, bar))
  {
    CurveIsNotLedger(e.book, BarMarked(e, bar).book);
  }

  lemma ActedAccounted(cfg: Settings, s: Sys, bar: Bar, signal: Option<Signal>, atr: real)
    requires GoodSettings(cfg) && cfg.paper && Accounted(s.eng) && s.eng.lastBar == Some(bar)
    ensures Accounted(Acted(cfg, s, bar, signal, atr).0.eng)
  {
    match Decide(cfg, s.eng, bar, signal, atr)
    case Stay => MarkAccounted(s.eng, bar);
    case Enter(order) =>
      PaperEntryAccounted(cfg, s.eng, bar, signal, atr);
      MarkAccounted(PaperEntry(cfg, s.eng, order, bar).value, bar);
    case Exit(leave) => PaperExitAccounted(cfg, s.eng, s.eng.book.position.value, bar.time, leave);
  }

  lemma AfterExitAccounted(cfg: Settings, s: Sys, origin: Origin)
    requires Accounted(s.eng)
    ensures Accounted(AfterExit(cfg, s, origin).0.eng)
  {
    match origin
    case FromBarrier(bar) =>
    case FromSignal(bar) => MarkAccounted(s.eng, bar);
    case FromFlatten => if s.eng.lastBar.Some? { MarkAccounted(s.eng, s.eng.lastBar.value); }
  }

  lemma TickAccounted(cfg: Settings, s: Sys, t: Task, out: Outcome)
    requires GoodSettings(cfg) && cfg.paper && Accounted(s.eng)
    requires !Critical(t) && !t.EntryOrdered? && (FlatTask(t) || BarTask(s.eng, t))
    ensures Accounted(Tick(cfg, s, t, out).0.eng)
  {
    if t.Observing? && out.Observed? {
      ActedAccounted(cfg, s, t.bar, out.signal, out.atr);
    } else if t.Recording? && out.Ack? {
      AfterExitAccounted(cfg, s, t.origin);
    }
  }

  lemma StepAccounted(cfg: Settings, s: Sys, ev: Event)
    requires GoodSettings(cfg) && cfg.paper && LossFloor.PaperEvent(ev)
    requires Typed(s) && Instant(s) && Accounted(s.eng)
    ensures Accounted(Step(cfg, s, ev).eng) && Instant(Step(cfg, s, ev))
  {
    StepInstant(cfg, s, ev);
    match ev {
      case BarTick(out) => TickAccounted(cfg, s, s.bar, out);
      case FlatTick(k, out) => if k < |s.flats| { TickAccounted(cfg, s, s.flats[k], out); }
      case BarArrives(bar) => if s.bar == Idle { ArrivalAccounted(cfg, s, bar); }
      case FlattenStarts =>
        var leave := FlattenExit(s.eng);
        if leave.Some? {
          PaperExitAccounted(cfg, s.eng.(halted := true), s.eng.book.position.value, s.eng.lastBar.value.time,
                             leave.value);
        }
      case _ =>
    }
  }

  lemma {:induction false} RunAccounted(cfg: Settings, es: seq<Event>)
    requires GoodSettings(cfg) && cfg.paper && forall i :: 0 <= i < |es| ==> LossFloor.PaperEvent(es[i])
    ensures Accounted(Reached(cfg, es).eng) && Instant(Reached(cfg, es))
    ensures Reached(cfg, es).eng.book.initial == cfg.accountEquity
  {
    if es != [] {
      var n := |es| - 1;
      RunAccounted(cfg, es[..n]);
      ReachedTyped(cfg, es[..n]);
      StepAccounted(cfg, Reached(cfg, es[..n]), es[n]);
      StepKeepsInitial(cfg, Reached(cfg, es[..n]), es[n]);
    }
  }

  lemma TickKeepsInitial(cfg: Settings, s: Sys, t: Task, out: Outcome)
    ensures Tick(cfg, s, t, out).0.eng.book.initial == s.eng.book.initial
  {}

  lemma StepKeepsInitial(cfg: Settings, s: Sys, ev: Event)
    ensures Step(cfg, s, ev).eng.book.initial == s.eng.book.initial
  {
    match ev {
      case BarTick(out) => TickKeepsInitial(cfg, s, s.bar, out);
      case FlatTick(k, out) => if k < |s.flats| { TickKeepsInitial(cfg, s, s.flats[k], out); }
      case _ =>
    }
  }

  /** Cost conservation of a live paper run: whenever the engine is flat, equity is its start plus
      frictionless profit minus every slippage and fee, and also its start plus all net trade
      profits minus the entry fees. */
  lemma PaperRunConservesCosts(cfg: Settings, es: seq<Event>)
    requires GoodSettings(cfg) && cfg.paper && forall i :: 0 <= i < |es| ==> LossFloor.PaperEvent(es[i])
    ensures var b := Reached(cfg, es).eng.book;
            b.position.None? ==>
              && b.realized == cfg.accountEquity + FrictionlessPnl(b.booked) - TotalSlippage(b.booked)
                 - TotalFees(b.booked)
              && b.realized == cfg.accountEquity + TotalNet(b.trades) - EntryFees(b.booked)
              && |b.booked| == 2 * |b.trades|
  {
    RunAccounted(cfg, es);
    if Reached(cfg, es).eng.book.position.None? { FlatLedger(Reached(cfg, es).eng.book); }
  }

  // ---------------------------------------------------------------- with real exchange fills

  lemma OpenNets(b: Book, fill: Fill, stop: real, tp: real, hold: nat, ref: real)
    requires NetOk(b) && !fill.isExit
    ensures Open(b, fill, stop, tp, hold, ref).Some? ==> NetOk(Open(b, fill, stop, tp, hold, ref).value)
  {
    AppendTotals(b.booked, Booked(fill, ref));
  }

  lemma CloseNets(b: Book, fill: Fill, reason: Reason, ref: real)
    requires NetOk(b) && fill.isExit
    ensures Close(b, fill, reason, ref).Some? ==> NetOk(Close(b, fill, reason, ref).value)
  {
    AppendTotals(b.booked, Booked(fill, ref));
    if b.position.Some? {
      var t := ClosedTrade(b.position.value, fill, reason);
      assert (b.trades + [t])[..|b.trades|] == b.trades;
    }
  }

  lemma BeginExitNets(cfg: Settings, s: Sys, call: Call)
    requires NetOk(s.eng.book)
    ensures NetOk(BeginExit(cfg, s, call).0.eng.book)
  {
    hide NetOk, ClosedTrade;
    CloseNets(s.eng.book, CostModel.ApplyCosts(ExitOrder(call.p, call.bar.time), call.leave.price, cfg.exec),
              call.leave.reason, call.leave.price);
  }

  lemma EntryIsNoExit(cfg: Settings, e: Eng, bar: Bar, signal: Option<Signal>, atr: real)
    requires Decide(cfg, e, bar, signal, atr).Enter?
    ensures !Decide(cfg, e, bar, signal, atr).order.isExit
  {
    hide Equity;
  }

  lemma ActedNets(cfg: Settings, s: Sys, bar: Bar, signal: Option<Signal>, atr: real)
    requires NetOk(s.eng.book)
    ensures NetOk(Acted(cfg, s, bar, signal, atr).0.eng.book)
  {
    hide NetOk, ClosedTrade, OpenedPosition, BeginExit;
    MarkNets();
    match Decide(cfg, s.eng, bar, signal, atr)
    case Stay =>
    case Enter(o) =>
      EntryIsNoExit(cfg, s.eng, bar, signal, atr);
      OpenNets(s.eng.book, CostModel.ApplyCosts(o, bar.close, cfg.exec), o.stopDistance, o.tpDistance, o.maxHoldBars,
               bar.close);
    case Exit(leave) =>
      if s.eng.book.position.Some? {
        BeginExitNets(cfg, s, ExitCall(s.eng, bar, leave, FromSignal(bar)));
      }
  }

  lemma MarkNets()
    ensures forall e: Eng, bar: Bar :: NetOk(e.book) ==> NetOk(BarMarked(e, bar).book)
  {}

  /** An order in flight is what `_try_enter` sent: never an exit. */
  predicate EntryPending(t: Task) { t.EntryOrdered? ==> !t.order.isExit }

  lemma TickNets(cfg: Settings, s: Sys, t: Task, out: Outcome)
    requires NetOk(s.eng.book) && EntryPending(t)
    ensures NetOk(Tick(cfg, s, t, out).0.eng.book)
  {
    hide NetOk, ClosedTrade, OpenedPosition, Acted, BarMarked, ExchangeFill, TradesNoted;
    MarkNets();
    NotingNets();
    match t
    case Observing(bar) => if out.Observed? { ActedNets(cfg, s, bar, out.signal, out.atr); }
    case ExitOrdered(call) =>
      if out.Filled? {
        ExchangeFillSide(ExitOrder(call.p, call.bar.time), out, call.bar);
        CloseNets(s.eng.book, ExchangeFill(ExitOrder(call.p, call.bar.time), out, call.bar), call.leave.reason,
                  call.bar.close);
      }
    case EntryOrdered(bar, o) =>
      if out.Filled? {
        ExchangeFillSide(o, out, bar);
        OpenNets(s.eng.book, ExchangeFill(o, out, bar), o.stopDistance, o.tpDistance, o.maxHoldBars, bar.close);
      }
    case _ =>
  }

  lemma ExchangeFillSide(order: Order, out: Outcome, bar: Bar)
    requires out.Filled?
    ensures ExchangeFill(order, out, bar).isExit == order.isExit
  {}

  lemma NotingNets()
    ensures forall cfg: Settings, e: Eng :: TradesNoted(cfg, e).book == e.book
  {}

  lemma TickEntryPending(cfg: Settings, s: Sys, t: Task, out: Outcome)
    requires EntryPending(t)
    ensures EntryPending(Tick(cfg, s, t, out).1)
  {
    hide ClosedTrade, OpenedPosition, BarMarked, ExchangeFill, Risk.SizeOrder;
    if t.Observing? && out.Observed? && Decide(cfg, s.eng, t.bar, out.signal, out.atr).Enter? {
      EntryIsNoExit(cfg, s.eng, t.bar, out.signal, out.atr);
    }
  }

  lemma StepNets(cfg: Settings, s: Sys, ev: Event)
    requires Typed(s) && NetOk(s.eng.book) && EntryPending(s.bar)
    ensures NetOk(Step(cfg, s, ev).eng.book) && EntryPending(Step(cfg, s, ev).bar)
  {
    hide NetOk, Tick, BeginExit, ClosedTrade, OpenedPosition;
    match ev
    case BarTick(out) =>
      TickNets(cfg, s, s.bar, out);
      TickEntryPending(cfg, s, s.bar, out);
    case FlatTick(k, out) =>
      if k < |s.flats| {
        TickNets(cfg, s, s.flats[k], out);
        FlatTickTyped(cfg, s, s.flats[k], out);
      }
    case BarArrives(bar) => if s.bar == Idle { ArrivalNets(cfg, s, bar); }
    case FlattenStarts => FlattenNets(cfg, s);
    case Adopt(_, _, _, _, _) => AdoptNets(cfg, s, ev);
    case _ =>
  }

  lemma ArrivalNets(cfg: Settings, s: Sys, bar: Bar)
    requires NetOk(s.eng.book)
    ensures NetOk(OnArrival(cfg, s, bar).eng.book) && EntryPending(OnArrival(cfg, s, bar).bar)
  {
    var s1 := s.(eng := Arrived(s.eng, bar), clock := s.clock + 1);
    if ArrivalExit(s.eng, bar).Some? {
      BeginExitNets(cfg, s1, ExitCall(s1.eng, bar, ArrivalExit(s.eng, bar).value, FromBarrier(bar)));
    }
  }

  lemma FlattenNets(cfg: Settings, s: Sys)
    requires NetOk(s.eng.book)
    ensures NetOk(OnFlatten(cfg, s).eng.book) && OnFlatten(cfg, s).bar == s.bar
  {
    var s1 := s.(eng := s.eng.(halted := true));
    if FlattenExit(s.eng).Some? {
      BeginExitNets(cfg, s1, ExitCall(s.eng, s.eng.lastBar.value, FlattenExit(s.eng).value, FromFlatten));
    }
  }

  lemma AdoptNets(cfg: Settings, s: Sys, ev: Event)
    requires ev.Adopt? && NetOk(s.eng.book)
    ensures NetOk(Adopted(cfg, s, ev).eng.book) && EntryPending(Adopted(cfg, s, ev).bar)
  {
    hide OpenedPosition;
    var order := AdoptedOrder(cfg, ev);
    OpenNets(s.eng.book, Fill(ev.time, ev.side, order.quantity, ev.entry, 0.0, 0.0, false), order.stopDistance,
             order.tpDistance, order.maxHoldBars, ev.entry);
  }

  /** Over every interleaving, with any exchange fills, fees, failures and adopted positions, realized
      equity is its start plus all net trade profits minus the fees of all entries, open or closed. */
  lemma {:induction false} EveryRunNets(cfg: Settings, es: seq<Event>)
    ensures var b := Reached(cfg, es).eng.book;
            b.realized == cfg.accountEquity + TotalNet(b.trades) - EntryFees(b.booked)
    ensures Reached(cfg, es).eng.book.initial == cfg.accountEquity && EntryPending(Reached(cfg, es).bar)
  {
    hide Step;
    if es != [] {
      var n := |es| - 1;
      EveryRunNets(cfg, es[..n]);
      ReachedTyped(cfg, es[..n]);
      StepNets(cfg, Reached(cfg, es[..n]), es[n]);
      StepKeepsInitial(cfg, Reached(cfg, es[..n]), es[n]);
    }
  }

  /** The frictionless identity has no such reach: an exchange fill records the size of its distance
      from the close as slippage, which is what it lost exactly when it did no better than the close. */
  lemma ExchangeFillIsFair(order: Order, out: Outcome, bar: Bar)
    requires out.Filled? && order.side != Flat && out.quantity > 0.0
    ensures Fair(Booked(ExchangeFill(order, out, bar), bar.close)) <==> Signed(order.side, out.price - bar.close) >= 0.0
  {
    var d := Signed(order.side, out.price - bar.close);
    SideTimes(order.side, out.quantity, out.price, bar.close);
    AbsoluteOf(d, out.quantity);
  }

  lemma SideTimes(side: Side, q: real, price: real, ref: real)
    ensures Signed(side, q * price) == Signed(side, q * ref) + Signed(side, price - ref) * q
  {
    Distribute(price, ref, q);
  }

  lemma AbsoluteOf(d: real, q: real)
    requires q > 0.0
    ensures d * q == Abs(d) * q <==> d >= 0.0
  {
    if d < 0.0 { ProductPositive(-d, q); }
  }
}
