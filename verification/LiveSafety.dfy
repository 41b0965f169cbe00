/** Safety of the live engine over every interleaving of its tasks. */
module LiveSafety {
  import opened Types
  import opened Arith
  import opened PortfolioModel
  import opened LiveEngine
  import opened LiveTasks
  import CostModel
  import Risk

  // ---------------------------------------------------------------- who can be where

  predicate FlatTask(t: Task) {
    match t
    case CancelOld(call, left) => call.origin == FromFlatten
    case ExitOrdered(call) => call.origin == FromFlatten
    case Recording(origin) => origin == FromFlatten
    case _ => t.FlatSyncing? || t.Done? || t.Dead?
  }

  /** A bar task only ever refers to the last bar, and holds an entry order only while flat. */
  predicate BarTask(e: Eng, t: Task) {
    match t
    case Start => e.book.position.None?
    case CancelOld(call, left) => e.lastBar.Some? && BarOrigin(call.origin, e.lastBar.value)
    case ExitOrdered(call) => e.lastBar.Some? && BarOrigin(call.origin, e.lastBar.value)
    case Recording(origin) => e.lastBar.Some? && BarOrigin(origin, e.lastBar.value)
    case Observing(bar) => e.lastBar == Some(bar)
    case EntryOrdered(bar, order) => e.lastBar == Some(bar) && e.book.position.None?
    case PlaceBegin(after) => after.None? || after == e.lastBar
    case ClearOld(after, left) => after.None? || after == e.lastBar
    case PlaceStop(after) => after.None? || after == e.lastBar
    case PlaceTarget(after, ids) => after.None? || after == e.lastBar
    case _ => t.Idle? || t.Syncing? || t.Dead?
  }

  predicate BarOrigin(o: Origin, last: Bar) {
    match o
    case FromBarrier(bar) => bar == last
    case FromSignal(bar) => bar == last
    case FromFlatten => false
  }

  ghost predicate Typed(s: Sys) {
    && BarTask(s.eng, s.bar)
    && (forall k :: 0 <= k < |s.flats| ==> FlatTask(s.flats[k]))
  }

  lemma FlatTickTyped(cfg: Settings, s: Sys, t: Task, out: Outcome)
    requires FlatTask(t)
    ensures var (s', t') := Tick(cfg, s, t, out);
            && FlatTask(t') && s'.bar == s.bar && s'.flats == s.flats && s'.eng.lastBar == s.eng.lastBar
            && s'.eng.halted == s.eng.halted && s'.clock == s.clock
            && (s'.eng.book.position == s.eng.book.position || s'.eng.book.position.None?)
  {}

  lemma ActedTyped(cfg: Settings, s: Sys, bar: Bar, signal: Option<Signal>, atr: real)
    requires s.eng.lastBar == Some(bar)
    ensures var (s', t') := Acted(cfg, s, bar, signal, atr);
            && BarTask(s'.eng, t') && s'.flats == s.flats && s'.eng.lastBar == s.eng.lastBar
            && s'.eng.halted == s.eng.halted && s'.clock == s.clock
  {
    hide Risk.SizeOrder, ClosedTrade, OpenedPosition, CostModel.ApplyCosts, Equity;
  }

  /** Booking changes the book only. */
  lemma BookedKeeps(e: Eng, order: Order, fill: Fill, reason: Reason, ref: real)
    ensures var e' := EntryBooked(e, order, fill, ref); e'.Some? ==> e'.value == e.(book := e'.value.book)
    ensures var e' := ExitBooked(e, fill, reason, ref); e'.Some? ==> e'.value == e.(book := e'.value.book)
  {
    hide ClosedTrade, OpenedPosition;
  }

  lemma BarTickTyped(cfg: Settings, s: Sys, out: Outcome)
    requires BarTask(s.eng, s.bar)
    ensures var (s', t') := Tick(cfg, s, s.bar, out);
            && BarTask(s'.eng, t') && s'.flats == s.flats && s'.eng.lastBar == s.eng.lastBar
            && s'.eng.halted == s.eng.halted && s'.clock == s.clock
  {
    hide Acted, ExchangeFill, EntryBooked, ExitBooked, Equity;
    match s.bar {
      case Observing(bar) => if out.Observed? { ActedTyped(cfg, s, bar, out.signal, out.atr); }
      case EntryOrdered(bar, order) =>
        if out.Filled? { BookedKeeps(s.eng, order, ExchangeFill(order, out, bar), Flattened, bar.close); }
      case ExitOrdered(call) =>
        if out.Filled? {
          var order := ExitOrder(call.p, call.bar.time);
          BookedKeeps(s.eng, order, ExchangeFill(order, out, call.bar), call.leave.reason, call.bar.close);
        }
      case _ =>
    }
  }

  lemma ArrivalTyped(cfg: Settings, s: Sys, bar: Bar)
    requires s.bar == Idle
    ensures var s' := OnArrival(cfg, s, bar);
            && BarTask(s'.eng, s'.bar) && s'.flats == s.flats && s'.eng.lastBar == Some(bar)
            && s'.eng.halted == s.eng.halted && s'.clock == s.clock + 1
            && (s.eng.book.position.None? ==> s'.eng.book.position.None?)
  {}

  lemma FlattenTyped(cfg: Settings, s: Sys)
    requires Typed(s)
    ensures var s' := OnFlatten(cfg, s);
            && Typed(s') && s'.bar == s.bar && s'.eng.halted && s'.eng.lastBar == s.eng.lastBar && s'.clock == s.clock
            && (s'.eng.book.position == s.eng.book.position || s'.eng.book.position.None?)
  {
    var s' := OnFlatten(cfg, s);
    var n := |s.flats|;
    assert |s'.flats| == n + 1 && FlatTask(s'.flats[n]) && forall k :: 0 <= k < n ==> s'.flats[k] == s.flats[k];
  }

  lemma StepTyped(cfg: Settings, s: Sys, ev: Event)
    requires Typed(s)
    ensures Typed(Step(cfg, s, ev))
  {
    match ev {
      case BarTick(out) => BarTickTyped(cfg, s, out);
      case FlatTick(k, out) => if k < |s.flats| { FlatTickTyped(cfg, s, s.flats[k], out); }
      case BarArrives(bar) => if s.bar == Idle { ArrivalTyped(cfg, s, bar); }
      case FlattenStarts => FlattenTyped(cfg, s);
      case _ =>
    }
  }

  lemma {:induction false} ReachedTyped(cfg: Settings, es: seq<Event>)
    ensures Typed(Reached(cfg, es))
  {
    if es != [] {
      ReachedTyped(cfg, es[..|es| - 1]);
      StepTyped(cfg, Reached(cfg, es[..|es| - 1]), es[|es| - 1]);
    }
  }

  /** The task is inside an exit up to its fill, or inside a placement. */
  predicate Critical(t: Task) {
    t.CancelOld? || t.ExitOrdered? || t.PlaceBegin? || t.ClearOld? || t.PlaceStop? || t.PlaceTarget?
  }

  /** Paper orders fill at once, so no task ever waits for one. */
  lemma PaperTick(cfg: Settings, s: Sys, t: Task, out: Outcome)
    requires cfg.paper && !Critical(t) && !t.EntryOrdered?
    ensures !Critical(Tick(cfg, s, t, out).1) && !Tick(cfg, s, t, out).1.EntryOrdered?
    ensures Tick(cfg, s, t, out).0.tracked == s.tracked
  {}

  /** No task of a paper engine ever waits for an order. */
  ghost predicate Instant(s: Sys) {
    && !Critical(s.bar) && !s.bar.EntryOrdered?
    && (forall k :: 0 <= k < |s.flats| ==> !Critical(s.flats[k]))
  }

  lemma StepInstant(cfg: Settings, s: Sys, ev: Event)
    requires cfg.paper && Typed(s) && Instant(s)
    ensures Instant(Step(cfg, s, ev)) && Step(cfg, s, ev).tracked == s.tracked
  {
    hide Tick, BarTask, EntryBooked, PaperExit, BarrierExit, Excursion;
    match ev {
      case BarTick(out) =>
        PaperTick(cfg, s, s.bar, out);
        BarTickTyped(cfg, s, out);
      case FlatTick(k, out) =>
        if k < |s.flats| {
          PaperTick(cfg, s, s.flats[k], out);
          FlatTickTyped(cfg, s, s.flats[k], out);
        }
      case _ =>
    }
  }

  lemma {:induction false} ReachedInstant(cfg: Settings, es: seq<Event>)
    requires cfg.paper
    ensures Instant(Reached(cfg, es)) && Reached(cfg, es).tracked == []
  {
    hide Step, Instant;
    if es == [] {
      StartInstant(cfg);
    } else {
      ReachedInstant(cfg, es[..|es| - 1]);
      ReachedTyped(cfg, es[..|es| - 1]);
      StepInstant(cfg, Reached(cfg, es[..|es| - 1]), es[|es| - 1]);
    }
  }

  lemma StartInstant(cfg: Settings)
    ensures Instant(InitialSys(cfg))
  {}

  // ---------------------------------------------------------------- opening

  /** The step runs the portfolio's `open_position`. */
  predicate CallsOpen(cfg: Settings, s: Sys, ev: Event) {
    || (ev.BarTick? && s.bar.EntryOrdered? && ev.out.Filled?)
    || (ev.BarTick? && cfg.paper && s.bar.Observing? && ev.out.Observed?
        && Decide(cfg, s.eng, s.bar.bar, ev.out.signal, ev.out.atr).Enter?)
    || (ev.Adopt? && s.bar.Start?)
  }

  /** Over every interleaving, a position is never opened on top of another: whenever the opening
      code runs the engine is flat, it does not raise, and nothing else ever opens a position. */
  lemma OpensOnlyWhenFlat(cfg: Settings, es: seq<Event>, ev: Event)
    ensures var s := Reached(cfg, es);
            var s' := Step(cfg, s, ev);
            && (CallsOpen(cfg, s, ev) ==>
                  s.eng.book.position.None? && s'.eng.book.position.Some? && !s'.bar.Dead?)
            && (s.eng.book.position.None? && s'.eng.book.position.Some? ==> CallsOpen(cfg, s, ev))
  {
    hide Reached, Risk.SizeOrder, ExchangeFill, ClosedTrade, OpenedPosition, Equity, OnArrival, OnFlatten,
         CostModel.ApplyCosts;
    var s := Reached(cfg, es);
    ReachedTyped(cfg, es);
    match ev {
      case FlatTick(k, out) => if k < |s.flats| { FlatTickTyped(cfg, s, s.flats[k], out); }
      case FlattenStarts => FlattenTyped(cfg, s);
      case BarArrives(bar) => if s.bar == Idle { ArrivalTyped(cfg, s, bar); }
      case _ =>
    }
  }

  // ---------------------------------------------------------------- halting

  predicate NoResume(es: seq<Event>) {
    forall i :: 0 <= i < |es| ==> !es[i].Resumed? && !es[i].Adopt?
  }

  predicate OpensAt(cfg: Settings, s: Sys, ev: Event) {
    s.eng.book.position.None? && Step(cfg, s, ev).eng.book.position.Some?
  }

  function CountOpens(cfg: Settings, s: Sys, es: seq<Event>): nat {
    if es == [] then 0
    else
      var n := |es| - 1;
      CountOpens(cfg, s, es[..n]) + (if OpensAt(cfg, Run(cfg, s, es[..n]), es[n]) then 1 else 0)
  }

  function PendingEntries(s: Sys): nat { if s.bar.EntryOrdered? then 1 else 0 }

  /** A halted step opens a position only by filling the entry order already in flight, and never
      puts another one in flight. */
  lemma HaltedStep(cfg: Settings, s: Sys, ev: Event)
    requires Typed(s) && s.eng.halted && !ev.Resumed? && !ev.Adopt?
    ensures var s' := Step(cfg, s, ev);
            && Typed(s') && s'.eng.halted
            && (s'.bar.EntryOrdered? ==> s'.bar == s.bar)
            && (OpensAt(cfg, s, ev) ==>
                  && s.bar.EntryOrdered? && !s'.bar.EntryOrdered? && ev.BarTick? && ev.out.Filled?
                  && var o := s.bar.order;
                  && s'.eng.book.position.value
                     == OpenedPosition(ExchangeFill(o, ev.out, s.bar.bar), o.stopDistance, o.tpDistance, o.maxHoldBars))
  {
    hide Risk.SizeOrder, ClosedTrade, Equity, BarTask, FlatTask;
    StepTyped(cfg, s, ev);
    match ev {
      case BarTick(out) => BarTickTyped(cfg, s, out);
      case FlatTick(k, out) => if k < |s.flats| { FlatTickTyped(cfg, s, s.flats[k], out); }
      case BarArrives(bar) => if s.bar == Idle { ArrivalTyped(cfg, s, bar); }
      case FlattenStarts => FlattenTyped(cfg, s);
      case _ =>
    }
  }

  lemma {:induction false} HaltedRun(cfg: Settings, s: Sys, es: seq<Event>)
    requires Typed(s) && s.eng.halted && NoResume(es)
    ensures var s' := Run(cfg, s, es);
            && Typed(s') && s'.eng.halted
            && (s'.bar.EntryOrdered? ==> s'.bar == s.bar)
            && CountOpens(cfg, s, es) + PendingEntries(s') <= PendingEntries(s)
  {
    if es != [] {
      var n := |es| - 1;
      HaltedRun(cfg, s, es[..n]);
      HaltedStep(cfg, Run(cfg, s, es[..n]), es[n]);
    }
  }

  /** Between a halt and the next resume, start-up adoption apart, at most one position opens, and
      none unless an entry order was in flight when the halt came. */
  lemma {:induction false} HaltAdmitsOneEntry(cfg: Settings, before: seq<Event>, after: seq<Event>)
    requires Reached(cfg, before).eng.halted && NoResume(after)
    ensures CountOpens(cfg, Reached(cfg, before), after) <= PendingEntries(Reached(cfg, before)) <= 1
  {
    ReachedTyped(cfg, before);
    HaltedRun(cfg, Reached(cfg, before), after);
  }

  /** That position opens while the bar task still waits for that very order. */
  lemma {:induction false} OnlyTheEntryInFlight(cfg: Settings, before: seq<Event>, after: seq<Event>, ev: Event)
    requires Reached(cfg, before).eng.halted && NoResume(after) && !ev.Resumed? && !ev.Adopt?
    requires OpensAt(cfg, Run(cfg, Reached(cfg, before), after), ev)
    ensures Reached(cfg, before).bar.EntryOrdered? && Run(cfg, Reached(cfg, before), after).bar
            == Reached(cfg, before).bar
  {
    hide Step;
    ReachedTyped(cfg, before);
    HaltedRun(cfg, Reached(cfg, before), after);
    HaltedStep(cfg, Run(cfg, Reached(cfg, before), after), ev);
  }

  // ---------------------------------------------------------------- price ordering

  /** Barrier multipliers, and adopted positions, that put both barriers on their own side. */
  predicate Sound(cfg: Settings, ev: Event) {
    ev.Adopt? ==> ev.side != Flat && ev.atr > 0.0
  }

  predicate PositionOrdered(s: Sys) {
    && (s.eng.book.position.Some? ==> s.eng.book.position.value.side != Flat && Ordered(s.eng.book.position.value))
    && (s.bar.EntryOrdered? ==>
          s.bar.order.side != Flat && s.bar.order.stopDistance > 0.0 && s.bar.order.tpDistance > 0.0)
  }

  lemma DecidedEntry(cfg: Settings, e: Eng, bar: Bar, signal: Option<Signal>, atr: real)
    requires cfg.setup.barriers.tpMult > 0.0
    requires Decide(cfg, e, bar, signal, atr).Enter?
    ensures var o := Decide(cfg, e, bar, signal, atr).order;
            && e.book.position.None? && e.cooldown == 0 && !e.halted && e.book.realized > 0.0
            && o.side != Flat && !o.isExit && o.quantity > 0.0 && o.stopDistance > 0.0 && o.tpDistance > 0.0
            && Risk.WithinCaps(cfg.setup.risk, bar.close, e.book.realized, o.stopDistance, o.quantity)
  {
    var o := Decide(cfg, e, bar, signal, atr).order;
    Risk.SizingIsTheLargestAllowed(cfg.setup, signal.value, bar, atr, Equity(e.book, bar.close), false, o.quantity);
    ProductPositive(cfg.setup.barriers.tpMult, atr);
  }

  lemma TickOrdered(cfg: Settings, s: Sys, t: Task, out: Outcome)
    requires cfg.setup.barriers.tpMult > 0.0
    requires PositionOrdered(s) && (FlatTask(t) || t == s.bar)
    ensures var (s', t') := Tick(cfg, s, t, out);
            PositionOrdered(s'.(bar := t')) && PositionOrdered(s'.(bar := s.bar))
  {
    hide ClosedTrade, CostModel.Slipped, Equity, Risk.SizeOrder;
    if t.Observing? && out.Observed? && Decide(cfg, s.eng, t.bar, out.signal, out.atr).Enter? {
      DecidedEntry(cfg, s.eng, t.bar, out.signal, out.atr);
      var o := Decide(cfg, s.eng, t.bar, out.signal, out.atr).order;
      OpenedIsOrdered(CostModel.ApplyCosts(o, t.bar.close, cfg.exec), o.stopDistance, o.tpDistance, o.maxHoldBars);
    }
    if t.EntryOrdered? && out.Filled? {
      OpenedIsOrdered(ExchangeFill(t.order, out, t.bar), t.order.stopDistance, t.order.tpDistance, t.order.maxHoldBars);
    }
  }

  lemma ArrivalOrdered(cfg: Settings, s: Sys, bar: Bar)
    requires PositionOrdered(s) && s.bar == Idle
    ensures PositionOrdered(OnArrival(cfg, s, bar))
  {
    if s.eng.book.position.Some? && ArrivalExit(s.eng, bar).None? {
      SurvivorStaysOrdered(s.eng.book.position.value, bar);
    }
  }

  lemma StepOrdered(cfg: Settings, s: Sys, ev: Event)
    requires cfg.setup.barriers.tpMult > 0.0 && cfg.setup.barriers.slMult > 0.0 && Sound(cfg, ev)
    requires Typed(s) && PositionOrdered(s)
    ensures PositionOrdered(Step(cfg, s, ev))
  {
    hide OnArrival, Tick, PositionOrdered, BarTask;
    match ev {
      case BarTick(out) =>
        TickOrdered(cfg, s, s.bar, out);
      case FlatTick(k, out) =>
        if k < |s.flats| {
          TickOrdered(cfg, s, s.flats[k], out);
          FlatTickTyped(cfg, s, s.flats[k], out);
          SameOrdered(Tick(cfg, s, s.flats[k], out).0.(bar := s.bar), Step(cfg, s, ev));
        }
      case BarArrives(bar) => if s.bar == Idle { ArrivalOrdered(cfg, s, bar); }
      case _ => QuietStepOrdered(cfg, s, ev);
    }
  }

  lemma SameOrdered(s: Sys, s': Sys)
    requires PositionOrdered(s) && s'.eng == s.eng && s'.bar == s.bar
    ensures PositionOrdered(s')
  {}

  lemma QuietStepOrdered(cfg: Settings, s: Sys, ev: Event)
    requires cfg.setup.barriers.tpMult > 0.0 && cfg.setup.barriers.slMult > 0.0 && Sound(cfg, ev)
    requires PositionOrdered(s) && !ev.BarTick? && !ev.FlatTick? && !ev.BarArrives?
    ensures PositionOrdered(Step(cfg, s, ev))
  {
    hide CostModel.ApplyCosts, ClosedTrade;
    if ev.Adopt? {
      ProductPositive(cfg.setup.barriers.slMult, ev.atr);
      ProductPositive(cfg.setup.barriers.tpMult, ev.atr);
    }
  }

  /** Stop < adverse <= entry <= favourable < target (mirrored for a short) in every reachable state,
      through failed exits, overlapping flattens and adoption. */
  lemma {:induction false} PositionStaysOrdered(cfg: Settings, es: seq<Event>)
    requires cfg.setup.barriers.tpMult > 0.0 && cfg.setup.barriers.slMult > 0.0
    requires forall i :: 0 <= i < |es| ==> Sound(cfg, es[i])
    ensures PositionOrdered(Reached(cfg, es))
  {
    if es != [] {
      var n := |es| - 1;
      PositionStaysOrdered(cfg, es[..n]);
      ReachedTyped(cfg, es[..n]);
      StepOrdered(cfg, Reached(cfg, es[..n]), es[n]);
    }
  }

  // ---------------------------------------------------------------- equity curve

  /** Equity samples are in time order and none is later than the last bar. */
  predicate Chronological(e: Eng) {
    && (e.book.curve != [] ==> e.lastBar.Some?)
    && (forall i :: 0 <= i < |e.book.curve| ==> e.book.curve[i].0 <= e.lastBar.value.time)
    && (forall i, j :: 0 <= i < j < |e.book.curve| ==> e.book.curve[i].0 <= e.book.curve[j].0)
  }

  /** A tick leaves the curve alone or marks it on the last bar. */
  lemma TickCurve(cfg: Settings, s: Sys, t: Task, out: Outcome)
    requires FlatTask(t) || BarTask(s.eng, t)
    ensures var s' := Tick(cfg, s, t, out).0;
            && s'.eng.lastBar == s.eng.lastBar
            && (s'.eng.book.curve == s.eng.book.curve
                || (s.eng.lastBar.Some? && exists equity ::
                      s'.eng.book.curve == s.eng.book.curve + [(s.eng.lastBar.value.time, equity)]))
  {
    hide Risk.SizeOrder, ExchangeFill, ClosedTrade, OpenedPosition, Equity;
    var s' := Tick(cfg, s, t, out).0;
    if s'.eng.book.curve != s.eng.book.curve {
      var equity := s'.eng.book.curve[|s.eng.book.curve|].1;
      assert s'.eng.book.curve == s.eng.book.curve + [(s.eng.lastBar.value.time, equity)];
    }
  }

  lemma SameCurve(e: Eng, e': Eng)
    requires Chronological(e) && e'.book.curve == e.book.curve
    requires e.lastBar.Some? ==> e'.lastBar.Some? && e.lastBar.value.time <= e'.lastBar.value.time
    ensures Chronological(e')
  {}

  lemma LongerCurve(e: Eng, e': Eng, equity: real)
    requires Chronological(e) && e.lastBar.Some? && e'.lastBar == e.lastBar
    requires e'.book.curve == e.book.curve + [(e.lastBar.value.time, equity)]
    ensures Chronological(e')
  {}

  lemma TickChronological(cfg: Settings, s: Sys, t: Task, out: Outcome)
    requires Chronological(s.eng) && (FlatTask(t) || BarTask(s.eng, t))
    ensures Chronological(Tick(cfg, s, t, out).0.eng)
  {
    hide Chronological, Tick, BarTask, FlatTask;
    TickCurve(cfg, s, t, out);
    var e' := Tick(cfg, s, t, out).0.eng;
    if e'.book.curve == s.eng.book.curve {
      SameCurve(s.eng, e');
    } else {
      var equity :| e'.book.curve == s.eng.book.curve + [(s.eng.lastBar.value.time, equity)];
      LongerCurve(s.eng, e', equity);
    }
  }

  lemma StepChronological(cfg: Settings, s: Sys, ev: Event)
    requires Typed(s) && Chronological(s.eng)
    ensures Chronological(Step(cfg, s, ev).eng)
  {
    hide Chronological, Tick, BarTask, FlatTask, OnArrival, OnFlatten, OpenedPosition;
    match ev {
      case BarTick(out) => TickChronological(cfg, s, s.bar, out);
      case FlatTick(k, out) => if k < |s.flats| { TickChronological(cfg, s, s.flats[k], out); }
      case BarArrives(bar) =>
        ArrivalCurve(cfg, s, bar);
        SameCurve(s.eng, Step(cfg, s, ev).eng);
      case FlattenStarts =>
        FlattenCurve(cfg, s);
        SameCurve(s.eng, Step(cfg, s, ev).eng);
      case _ => SameCurve(s.eng, Step(cfg, s, ev).eng);
    }
  }

  lemma ArrivalCurve(cfg: Settings, s: Sys, bar: Bar)
    ensures OnArrival(cfg, s, bar).eng.book.curve == s.eng.book.curve && OnArrival(cfg, s, bar).eng.lastBar == Some(bar)
  {
    hide ClosedTrade, BarrierExit, Excursion, CostModel.ApplyCosts;
  }

  lemma FlattenCurve(cfg: Settings, s: Sys)
    ensures OnFlatten(cfg, s).eng.book.curve == s.eng.book.curve && OnFlatten(cfg, s).eng.lastBar == s.eng.lastBar
  {
    hide ClosedTrade, CostModel.ApplyCosts;
  }

  /** Every interleaving records its equity samples in time order. */
  lemma {:induction false} CurveInTimeOrder(cfg: Settings, es: seq<Event>)
    ensures Chronological(Reached(cfg, es).eng)
  {
    if es != [] {
      var n := |es| - 1;
      CurveInTimeOrder(cfg, es[..n]);
      ReachedTyped(cfg, es[..n]);
      StepChronological(cfg, Reached(cfg, es[..n]), es[n]);
    }
  }
}
