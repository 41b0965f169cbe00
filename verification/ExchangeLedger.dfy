/** Conservation of money in the live engine over exchange fills, better and worse than the close. */
module ExchangeLedger {
  import opened Types
  import opened Arith
  import opened PortfolioModel
  import opened LiveEngine
  import opened LiveTasks
  import opened LiveSafety
  import opened Ledger
  import opened ExitOwnership
  import LiveLedger

  /** An entry fills with no negative quantity; an exit fills in full, and finds the position it captured
      or none. The prices are the exchange's. */
  predicate Full(s: Sys, t: Task, out: Outcome) {
    out.Filled? ==>
      && (t.EntryOrdered? ==> out.quantity >= 0.0)
      && (t.ExitOrdered? ==>
            && out.quantity == t.call.p.quantity
            && (s.eng.book.position.Some? ==> t.call.since == |s.eng.book.trades|))
  }

  predicate FullEvent(s: Sys, ev: Event) {
    match ev
    case BarTick(out) => Full(s, s.bar, out)
    case FlatTick(k, out) => k < |s.flats| ==> Full(s, s.flats[k], out)
    case Adopt(side, _, _, _, _) => side != Flat
    case _ => true
  }

  ghost predicate FullRun(cfg: Settings, es: seq<Event>) {
    forall n :: 0 <= n < |es| ==> FullEvent(Reached(cfg, es[..n]), es[n])
  }

  /** A fill as the exchange handler records it: its distance from the reference price is slippage. */
  predicate Recorded(b: Booked) {
    b.fill.side != Flat && b.fill.quantity >= 0.0 && b.fill.slippage == Abs(b.fill.price - b.ref) * b.fill.quantity
  }

  /** The fill did no better than its reference price. */
  predicate NoBetter(b: Booked) {
    b.fill.quantity == 0.0 || Signed(b.fill.side, b.fill.price - b.ref) >= 0.0
  }

  lemma Excess(d: real, q: real)
    requires q >= 0.0
    ensures Abs(d) * q - d * q >= 0.0
    ensures Abs(d) * q - d * q == 0.0 <==> q == 0.0 || d >= 0.0
  {
    if d < 0.0 && q > 0.0 { ProductPositive(-d, q); }
  }

  /** Such a fill never loses more than it records, and exactly that when it did no better. */
  lemma RecordedBeat(b: Booked)
    requires Recorded(b)
    ensures Beat(b) >= 0.0 && (Beat(b) == 0.0 <==> NoBetter(b))
  {
    var d := Signed(b.fill.side, b.fill.price - b.ref);
    assert Abs(b.fill.price - b.ref) == Abs(d);
    LiveLedger.SideTimes(b.fill.side, b.fill.quantity, b.fill.price, b.ref);
    Excess(d, b.fill.quantity);
  }

  predicate AllRecorded(bs: seq<Booked>) {
    forall k :: 0 <= k < |bs| ==> Recorded(bs[k])
  }

  lemma ExchangeFillIsRecorded(order: Order, out: Outcome, bar: Bar)
    requires out.Filled? && order.side != Flat && out.quantity >= 0.0
    ensures Recorded(Booked(ExchangeFill(order, out, bar), bar.close))
  {}

  /** A position that was entered by a recorded fill. */
  predicate Entered(b: Book) {
    b.position.Some? ==> b.position.value.side != Flat && b.position.value.quantity >= 0.0
  }

  ghost predicate Balanced(s: Sys) {
    && Accounts(s.eng.book) && AllRecorded(s.eng.book.booked) && Entered(s.eng.book)
    && (s.bar.EntryOrdered? ==> s.bar.order.side != Flat && !s.bar.order.isExit)
  }

  lemma MarkBalances(e: Eng, bar: Bar)
    requires Accounts(e.book)
    ensures Accounts(BarMarked(e, bar).book) && BarMarked(e, bar).book.position == e.book.position
    ensures BarMarked(e, bar).book.booked == e.book.booked
  {
    CurveIsNotLedger(e.book, BarMarked(e, bar).book);
  }

  lemma ExitBalances(b: Book, call: Call, out: Outcome)
    requires Accounts(b) && AllRecorded(b.booked) && Entered(b) && out.Filled? && b.position.Some?
    requires SamePosition(call.p, b.position.value) && out.quantity == call.p.quantity
    ensures var fill := ExchangeFill(ExitOrder(call.p, call.bar.time), out, call.bar);
            var b' := Close(b, fill, call.leave.reason, call.bar.close).value;
            Accounts(b') && AllRecorded(b'.booked) && b'.position.None?
  {
    hide Accounts, Recorded;
    var order := ExitOrder(call.p, call.bar.time);
    ExchangeFillIsRecorded(order, out, call.bar);
    CloseKeepsAccounts(b, ExchangeFill(order, out, call.bar), call.leave.reason, call.bar.close);
  }

  lemma EntryBalances(b: Book, order: Order, out: Outcome, bar: Bar)
    requires Accounts(b) && AllRecorded(b.booked) && out.Filled? && out.quantity >= 0.0
    requires b.position.None? && order.side != Flat && !order.isExit
    ensures var b' := Open(b, ExchangeFill(order, out, bar), order.stopDistance, order.tpDistance, order.maxHoldBars,
                           bar.close);
            b'.Some? && Accounts(b'.value) && AllRecorded(b'.value.booked) && Entered(b'.value)
  {
    hide Accounts, Recorded;
    ExchangeFillIsRecorded(order, out, bar);
    OpenKeepsAccounts(b, ExchangeFill(order, out, bar), order.stopDistance, order.tpDistance, order.maxHoldBars,
                      bar.close);
  }

  lemma ActedBalances(cfg: Settings, s: Sys, bar: Bar, signal: Option<Signal>, atr: real)
    requires !cfg.paper && Accounts(s.eng.book)
    ensures var (s', t') := Acted(cfg, s, bar, signal, atr);
            && Accounts(s'.eng.book) && s'.eng.book.position == s.eng.book.position
            && s'.eng.book.booked == s.eng.book.booked
            && (t'.EntryOrdered? ==> t'.order.side != Flat && !t'.order.isExit)
  {
    hide Accounts, BarMarked, Equity;
    MarkBalances(s.eng, bar);
  }

  lemma AfterExitBalances(cfg: Settings, s: Sys, origin: Origin)
    requires Accounts(s.eng.book)
    ensures var (s', t') := AfterExit(cfg, s, origin);
            && Accounts(s'.eng.book) && s'.eng.book.position == s.eng.book.position
            && s'.eng.book.booked == s.eng.book.booked && !t'.EntryOrdered?
  {
    hide Accounts, BarMarked;
    match origin
    case FromBarrier(bar) =>
    case FromSignal(bar) => MarkBalances(s.eng, bar);
    case FromFlatten => if s.eng.lastBar.Some? { MarkBalances(s.eng, s.eng.lastBar.value); }
  }

  lemma TickBalances(cfg: Settings, s: Sys, t: Task, out: Outcome)
    requires !cfg.paper && Balanced(s) && (t == s.bar || FlatTask(t)) && Full(s, t, out)
    requires t.ExitOrdered? ==> Knows(s.eng.book, t.call)
    requires t.EntryOrdered? ==> s.eng.book.position.None?
    ensures var (s', t') := Tick(cfg, s, t, out);
            && Accounts(s'.eng.book) && AllRecorded(s'.eng.book.booked) && Entered(s'.eng.book)
            && (t'.EntryOrdered? ==> t'.order.side != Flat && !t'.order.isExit)
  {
    hide Accounts, AllRecorded, Acted, AfterExit, BarMarked, ExchangeFill, OpenedPosition, ClosedTrade, Equity;
    match t {
      case Observing(bar) => if out.Observed? { ActedBalances(cfg, s, bar, out.signal, out.atr); }
      case ExitOrdered(call) =>
        if out.Filled? && s.eng.book.position.Some? { ExitBalances(s.eng.book, call, out); }
        if out.Failed? { AfterExitBalances(cfg, s, call.origin); }
      case Recording(origin) => AfterExitBalances(cfg, s, origin);
      case EntryOrdered(bar, order) =>
        if out.Filled? { EntryBalances(s.eng.book, order, out, bar); }
        MarkBalances(s.eng, bar);
      case PlaceTarget(after, ids) => if after.Some? { MarkBalances(s.eng, after.value); }
      case _ =>
    }
  }

  lemma AgeingBalances(e: Eng, bar: Bar)
    requires Accounts(e.book) && Entered(e.book)
    ensures var b := Arrived(e, bar).book; Accounts(b) && Entered(b) && b.booked == e.book.booked
  {
    hide BarrierExit, FrictionlessPnl, TotalSlippage, TotalFees, TotalBeat, EntryFees, TotalNet;
  }

  lemma ExitKeepsEngine(cfg: Settings, s: Sys, call: Call)
    requires !cfg.paper
    ensures var (s', t') := BeginExit(cfg, s, call); s'.eng == s.eng && Exiting(t') && s'.bar == s.bar
  {}

  lemma ArrivalBalances(cfg: Settings, s: Sys, bar: Bar)
    requires !cfg.paper && Balanced(s) && s.bar == Idle
    ensures Balanced(OnArrival(cfg, s, bar))
  {
    hide Accounts, AllRecorded, BeginExit, BarrierExit;
    AgeingBalances(s.eng, bar);
    var s1 := s.(eng := Arrived(s.eng, bar), clock := s.clock + 1);
    if ArrivalExit(s.eng, bar).Some? {
      ExitKeepsEngine(cfg, s1, ExitCall(s1.eng, bar, ArrivalExit(s.eng, bar).value, FromBarrier(bar)));
    }
  }

  lemma FlattenBalances(cfg: Settings, s: Sys)
    requires !cfg.paper && Balanced(s)
    ensures Balanced(OnFlatten(cfg, s))
  {
    hide Accounts, AllRecorded, BeginExit;
    var s1 := s.(eng := s.eng.(halted := true));
    if FlattenExit(s.eng).Some? {
      ExitKeepsEngine(cfg, s1, ExitCall(s.eng, s.eng.lastBar.value, FlattenExit(s.eng).value, FromFlatten));
    }
  }

  lemma AdoptionBalances(cfg: Settings, s: Sys, ev: Event)
    requires ev.Adopt? && ev.side != Flat && Balanced(s) && s.bar.Start?
    ensures Balanced(Adopted(cfg, s, ev))
  {
    hide Accounts;
    var order := AdoptedOrder(cfg, ev);
    var fill := Fill(ev.time, ev.side, order.quantity, ev.entry, 0.0, 0.0, false);
    if s.eng.book.position.None? {
      OpenKeepsAccounts(s.eng.book, fill, order.stopDistance, order.tpDistance, order.maxHoldBars, ev.entry);
      NoSlippage(order.quantity);
    }
  }

  lemma NoSlippage(q: real)
    ensures Abs(0.0) * q == 0.0
  {}

  lemma StepBalances(cfg: Settings, s: Sys, ev: Event)
    requires !cfg.paper && Typed(s) && AllKnow(s) && Balanced(s) && FullEvent(s, ev)
    ensures Balanced(Step(cfg, s, ev))
  {
    hide Accounts, AllRecorded, Tick, OnArrival, OnFlatten, Adopted, Knows, Full;
    match ev {
      case BarTick(out) => TickBalances(cfg, s, s.bar, out);
      case FlatTick(k, out) =>
        if k < |s.flats| {
          TickBalances(cfg, s, s.flats[k], out);
          FlatTickKeepsBar(cfg, s, k, out);
        }
      case BarArrives(bar) => if s.bar == Idle { ArrivalBalances(cfg, s, bar); }
      case FlattenStarts => FlattenBalances(cfg, s);
      case Adopt(_, _, _, _, _) => if s.bar == Start { AdoptionBalances(cfg, s, ev); }
      case _ =>
    }
  }

  lemma StartBalances(cfg: Settings)
    ensures Balanced(InitialSys(cfg))
  {}

  lemma {:induction false} RunBalances(cfg: Settings, es: seq<Event>)
    requires !cfg.paper && FullRun(cfg, es)
    ensures Balanced(Reached(cfg, es))
  {
    hide Step, Balanced, FullEvent, AllKnow;
    if es == [] {
      StartBalances(cfg);
    } else {
      var n := |es| - 1;
      assert forall m :: 0 <= m <= n ==> es[..n][..m] == es[..m];
      RunBalances(cfg, es[..n]);
      ReachedTyped(cfg, es[..n]);
      RunKnows(cfg, es[..n]);
      ReachedNext(cfg, es, n);
      assert es[..n + 1] == es;
      StepBalances(cfg, Reached(cfg, es[..n]), es[n]);
    }
  }

  /** Cost conservation of a live run on an exchange, adopted positions, failures and overlaps included, when
      every exit that fills does so in full for the position it captured. Whenever the engine is flat,
      equity is its start plus all net trade profits minus the entry fees, and also its start plus
      frictionless profit at the reference closes minus every recorded slippage and fee, plus what the
      fills did better than recorded, which is never negative. Without that term the identity holds if
      and only if no fill did better than the close it is measured against. */
  lemma ExchangeRunConservesCosts(cfg: Settings, es: seq<Event>)
    requires !cfg.paper && FullRun(cfg, es)
    ensures var b := Reached(cfg, es).eng.book;
            && AllRecorded(b.booked)
            && (b.position.None? ==>
                  && |b.booked| == 2 * |b.trades|
                  && b.realized == cfg.accountEquity + TotalNet(b.trades) - EntryFees(b.booked)
                  && b.realized == cfg.accountEquity + FrictionlessPnl(b.booked) - TotalSlippage(b.booked)
                                   - TotalFees(b.booked) + TotalBeat(b.booked)
                  && TotalBeat(b.booked) >= 0.0
                  && (b.realized == cfg.accountEquity + FrictionlessPnl(b.booked) - TotalSlippage(b.booked)
                                    - TotalFees(b.booked)
                      <==> forall k :: 0 <= k < |b.booked| ==> NoBetter(b.booked[k])))
  {
    hide Step, Beat, TotalBeat, FrictionlessPnl, TotalSlippage, TotalFees, Recorded, NoBetter;
    RunBalances(cfg, es);
    LiveLedger.EveryRunNets(cfg, es);
    var b := Reached(cfg, es).eng.book;
    forall k | 0 <= k < |b.booked|
      ensures Beat(b.booked[k]) >= 0.0 && (Beat(b.booked[k]) == 0.0 <==> NoBetter(b.booked[k]))
    {
      RecordedBeat(b.booked[k]);
    }
    BeatsAddUp(b.booked);
  }
}
