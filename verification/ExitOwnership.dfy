/** Whose position a filled exit closes: exits capture a position, suspend, and close whatever is open
    when their order fills. */
module ExitOwnership {
  import opened Types
  import opened PortfolioModel
  import opened LiveEngine
  import opened LiveTasks
  import opened LiveSafety
  import CostModel
  import Risk

  /** The step closes the position. */
  predicate Books(cfg: Settings, s: Sys, ev: Event) {
    s.eng.book.position.Some? && Step(cfg, s, ev).eng.book.position.None?
  }

  predicate Exiting(t: Task) { t.CancelOld? || t.ExitOrdered? }

  ghost predicate NoneExiting(s: Sys) {
    !Exiting(s.bar) && forall k :: 0 <= k < |s.flats| ==> !Exiting(s.flats[k])
  }

  // ---------------------------------------------------------------- how the book moves

  /** The same position, up to its age and excursions. */
  predicate SamePosition(p: Position, q: Position) {
    q == p.(barsHeld := q.barsHeld, mfe := q.mfe, mae := q.mae)
  }

  /** The trade that closed position `p`. */
  predicate TradeOf(t: Trade, p: Position) {
    t.side == p.side && t.quantity == p.quantity && t.entryTime == p.entryTime && t.entryPrice == p.entryPrice
  }

  /** The position was kept, or opened while flat; no trade was booked. */
  predicate PositionKept(b: Book, b': Book) {
    && b'.trades == b.trades
    && (b.position.Some? ==> b'.position.Some? && SamePosition(b.position.value, b'.position.value))
  }

  /** The open position was closed as the next trade. */
  predicate ClosedAsNext(b: Book, b': Book) {
    && b.position.Some? && b'.position.None? && |b'.trades| == |b.trades| + 1
    && b'.trades[..|b.trades|] == b.trades && TradeOf(b'.trades[|b.trades|], b.position.value)
  }

  predicate Evolves(b: Book, b': Book) { PositionKept(b, b') || ClosedAsNext(b, b') }

  lemma ClosingEvolves(b: Book, fill: Fill, reason: Reason, ref: real)
    ensures Close(b, fill, reason, ref).Some? ==> ClosedAsNext(b, Close(b, fill, reason, ref).value)
  {}

  /** An exit that has just begun. */
  predicate BeganAt(b: Book, c: Call) { c.since == |b.trades| && b.position == Some(c.p) }

  /** A task after a step that left the book `b'`: an exit goes on with its call, or has just begun. */
  predicate Carried(t: Task, t': Task, b': Book) {
    Exiting(t') ==> (Exiting(t) && t'.call == t.call) || BeganAt(b', t'.call)
  }

  lemma BeginExitEvolves(cfg: Settings, s: Sys, call: Call)
    requires BeganAt(s.eng.book, call)
    ensures var (s', t') := BeginExit(cfg, s, call);
            && Evolves(s.eng.book, s'.eng.book) && Carried(Dead, t', s'.eng.book)
            && s'.bar == s.bar && s'.flats == s.flats
  {
    hide ClosedTrade, TradeOf, CostModel.ApplyCosts;
    ClosingEvolves(s.eng.book, CostModel.ApplyCosts(ExitOrder(call.p, call.bar.time), call.leave.price, cfg.exec),
                   call.leave.reason, call.leave.price);
  }

  lemma ActedEvolves(cfg: Settings, s: Sys, bar: Bar, signal: Option<Signal>, atr: real)
    ensures var (s', t') := Acted(cfg, s, bar, signal, atr);
            Evolves(s.eng.book, s'.eng.book) && Carried(Dead, t', s'.eng.book)
  {
    hide BeginExit, Risk.SizeOrder, CostModel.ApplyCosts, Equity, TradeOf;
    var d := Decide(cfg, s.eng, bar, signal, atr);
    if d.Exit? && s.eng.book.position.Some? {
      BeginExitEvolves(cfg, s, ExitCall(s.eng, bar, d.leave, FromSignal(bar)));
    }
  }

  lemma TickEvolves(cfg: Settings, s: Sys, t: Task, out: Outcome)
    ensures var (s', t') := Tick(cfg, s, t, out);
            Evolves(s.eng.book, s'.eng.book) && Carried(t, t', s'.eng.book)
  {
    hide Acted, ExchangeFill, ClosedTrade, TradeOf, Equity;
    match t {
      case Observing(bar) => if out.Observed? { ActedEvolves(cfg, s, bar, out.signal, out.atr); }
      case ExitOrdered(call) =>
        if out.Filled? {
          ClosingEvolves(s.eng.book, ExchangeFill(ExitOrder(call.p, call.bar.time), out, call.bar), call.leave.reason,
                         call.bar.close);
        }
      case _ =>
    }
  }

  lemma ArrivalEvolves(cfg: Settings, s: Sys, bar: Bar)
    requires s.bar == Idle
    ensures var s' := OnArrival(cfg, s, bar);
            && Evolves(s.eng.book, s'.eng.book) && Carried(s.bar, s'.bar, s'.eng.book) && s'.flats == s.flats
  {
    hide BeginExit, BarrierExit, TradeOf;
    var s1 := s.(eng := Arrived(s.eng, bar), clock := s.clock + 1);
    if ArrivalExit(s.eng, bar).Some? {
      var call := ExitCall(s1.eng, bar, ArrivalExit(s.eng, bar).value, FromBarrier(bar));
      BeginExitEvolves(cfg, s1, call);
      AgedEvolves(s.eng.book, s1.eng.book, BeginExit(cfg, s1, call).0.eng.book);
    }
  }

  lemma AgedEvolves(b: Book, b1: Book, b': Book)
    requires b.position.Some? && PositionKept(b, b1) && Evolves(b1, b')
    ensures Evolves(b, b')
  {}

  lemma FlattenEvolves(cfg: Settings, s: Sys)
    ensures var s', n := OnFlatten(cfg, s), |s.flats|;
            && Evolves(s.eng.book, s'.eng.book) && s'.bar == s.bar
            && |s'.flats| == n + 1 && s'.flats[..n] == s.flats && Carried(Dead, s'.flats[n], s'.eng.book)
  {
    hide BeginExit, TradeOf;
    var s1 := s.(eng := s.eng.(halted := true));
    if FlattenExit(s.eng).Some? {
      BeginExitEvolves(cfg, s1, ExitCall(s1.eng, s.eng.lastBar.value, FlattenExit(s.eng).value, FromFlatten));
    }
  }

  lemma TickKeepsFlats(cfg: Settings, s: Sys, out: Outcome)
    requires Typed(s)
    ensures Tick(cfg, s, s.bar, out).0.flats == s.flats
  {
    hide Tick, BarTask;
    BarTickTyped(cfg, s, out);
  }

  lemma FlatTickKeepsBar(cfg: Settings, s: Sys, k: nat, out: Outcome)
    requires Typed(s) && k < |s.flats|
    ensures Tick(cfg, s, s.flats[k], out).0.flats == s.flats && Tick(cfg, s, s.flats[k], out).0.bar == s.bar
  {
    hide Tick;
    FlatTickTyped(cfg, s, s.flats[k], out);
  }

  /** The task of a slot before a step; a slot not yet in use is as good as dead. */
  function FlatAt(s: Sys, k: nat): Task { if k < |s.flats| then s.flats[k] else Dead }

  ghost predicate AllCarried(s: Sys, s': Sys) {
    && Carried(s.bar, s'.bar, s'.eng.book)
    && forall k :: 0 <= k < |s'.flats| ==> Carried(FlatAt(s, k), s'.flats[k], s'.eng.book)
  }

  /** Every step keeps the position, opens one while flat or books it as the next trade, and every exit
      under way after it was under way before, with the same call, or has just captured the position. */
  lemma StepEvolves(cfg: Settings, s: Sys, ev: Event)
    requires Typed(s)
    ensures Evolves(s.eng.book, Step(cfg, s, ev).eng.book) && AllCarried(s, Step(cfg, s, ev))
  {
    hide Tick, OnArrival, OnFlatten, BeganAt, TradeOf, BarTask, FlatTask, OpenedPosition;
    match ev {
      case BarTick(out) =>
        TickEvolves(cfg, s, s.bar, out);
        TickKeepsFlats(cfg, s, out);
      case FlatTick(k, out) =>
        if k < |s.flats| {
          TickEvolves(cfg, s, s.flats[k], out);
          FlatTickKeepsBar(cfg, s, k, out);
        }
      case BarArrives(bar) => if s.bar == Idle { ArrivalEvolves(cfg, s, bar); }
      case FlattenStarts => FlattenEvolves(cfg, s);
      case _ =>
    }
  }

  // ---------------------------------------------------------------- what an exit knows

  /** The captured position is trade number `since`: still the open one, or booked already. */
  predicate Knows(b: Book, c: Call) {
    && c.since <= |b.trades|
    && if c.since == |b.trades| then b.position.Some? && SamePosition(c.p, b.position.value)
       else TradeOf(b.trades[c.since], c.p)
  }

  ghost predicate AllKnow(s: Sys) {
    && (Exiting(s.bar) ==> Knows(s.eng.book, s.bar.call))
    && forall k :: 0 <= k < |s.flats| && Exiting(s.flats[k]) ==> Knows(s.eng.book, s.flats[k].call)
  }

  lemma KnowingLasts(b: Book, b': Book, c: Call)
    requires Knows(b, c) && Evolves(b, b')
    ensures Knows(b', c)
  {}

  lemma BeginningKnows(b: Book, c: Call)
    requires BeganAt(b, c)
    ensures Knows(b, c)
  {}

  lemma CarriedKnows(b: Book, t: Task, b': Book, t': Task)
    requires (Exiting(t) ==> Knows(b, t.call)) && Evolves(b, b') && Carried(t, t', b')
    ensures Exiting(t') ==> Knows(b', t'.call)
  {
    hide Knows, Evolves, BeganAt;
    if Exiting(t') {
      if BeganAt(b', t'.call) { BeginningKnows(b', t'.call); } else { KnowingLasts(b, b', t.call); }
    }
  }

  lemma StepKnows(cfg: Settings, s: Sys, ev: Event)
    requires Typed(s) && AllKnow(s)
    ensures AllKnow(Step(cfg, s, ev))
  {
    hide Step, Knows, Evolves, Carried;
    var s' := Step(cfg, s, ev);
    StepEvolves(cfg, s, ev);
    CarriedKnows(s.eng.book, s.bar, s'.eng.book, s'.bar);
    forall k | 0 <= k < |s'.flats| && Exiting(s'.flats[k]) ensures Knows(s'.eng.book, s'.flats[k].call) {
      DeadIsOver();
      CarriedKnows(s.eng.book, FlatAt(s, k), s'.eng.book, s'.flats[k]);
    }
  }

  lemma DeadIsOver()
    ensures !Exiting(Dead)
  {}

  lemma {:induction false} RunKnows(cfg: Settings, es: seq<Event>)
    ensures AllKnow(Reached(cfg, es))
  {
    hide Step, AllKnow;
    if es == [] {
      StartKnows(cfg);
    } else {
      var n := |es| - 1;
      RunKnows(cfg, es[..n]);
      ReachedTyped(cfg, es[..n]);
      StepKnows(cfg, Reached(cfg, es[..n]), es[n]);
    }
  }

  lemma StartKnows(cfg: Settings)
    ensures AllKnow(InitialSys(cfg))
  {}

  // ---------------------------------------------------------------- what a filled exit closes

  /** The fill closes the captured position: it books trade `since`. */
  predicate ClosesItsOwn(s: Sys, t: Task, s': Sys, t': Task)
    requires t.ExitOrdered?
  {
    t'.Recording? && s.eng.book.position.Some? && |s'.eng.book.trades| == t.call.since + 1
    && SamePosition(t.call.p, s.eng.book.position.value) && TradeOf(s'.eng.book.trades[t.call.since], t.call.p)
  }

  /** The trade carries the reason the exit was asked for, and the price, time and fee of its fill. */
  predicate BookedAs(tr: Trade, call: Call, out: Outcome)
    requires out.Filled?
  {
    && tr.reason == call.leave.reason && tr.exitPrice == out.price && tr.exitTime == out.time && tr.fees == out.fee
    && tr.grossPnl == Signed(tr.side, out.price - tr.entryPrice) * tr.quantity && tr.netPnl == tr.grossPnl - out.fee
  }

  lemma ExitFillBooks(cfg: Settings, s: Sys, t: Task, out: Outcome)
    requires t.ExitOrdered? && out.Filled?
    ensures var (s', t') := Tick(cfg, s, t, out);
            if s.eng.book.position.Some? then
              && t'.Recording? && ClosedAsNext(s.eng.book, s'.eng.book)
              && BookedAs(s'.eng.book.trades[|s.eng.book.trades|], t.call, out)
            else t' == Dead && s' == s
  {
    ClosingEvolves(s.eng.book, ExchangeFill(ExitOrder(t.call.p, t.call.bar.time), out, t.call.bar), t.call.leave.reason,
                   t.call.bar.close);
  }

  /** Over every schedule, a filled exit, a bar's or a flatten's, closes the position it captured if and
      only if no trade was booked since it began. Otherwise that position is trade `since` already, and
      the fill raises while flat, its task ending and nothing booked, or closes a position opened later. The
      trade it books has the reason the exit was asked for and the terms of the fill. */
  lemma FilledExitOutcome(cfg: Settings, es: seq<Event>, t: Task, out: Outcome)
    requires t.ExitOrdered? && out.Filled?
    requires var s := Reached(cfg, es); t == s.bar || t in s.flats
    ensures var s := Reached(cfg, es);
            var (s', t') := Tick(cfg, s, t, out);
            var n := |s.eng.book.trades|;
            && (ClosesItsOwn(s, t, s', t') <==> t.call.since == n)
            && (t'.Recording? ==> |s'.eng.book.trades| == n + 1 && BookedAs(s'.eng.book.trades[n], t.call, out))
            && (t.call.since != n ==>
                  && t.call.since < n && TradeOf(s.eng.book.trades[t.call.since], t.call.p)
                  && if s.eng.book.position.None? then t' == Dead && s' == s
                     else t'.Recording? && |s'.eng.book.trades| == n + 1
                          && TradeOf(s'.eng.book.trades[n], s.eng.book.position.value))
  {
    hide Tick, Reached;
    RunKnows(cfg, es);
    ExitFillBooks(cfg, Reached(cfg, es), t, out);
  }

  // ---------------------------------------------------------------- closes since an exit began

  function Closes(cfg: Settings, s: Sys, es: seq<Event>): nat {
    if es == [] then 0
    else
      var n := |es| - 1;
      Closes(cfg, s, es[..n]) + (if Books(cfg, Run(cfg, s, es[..n]), es[n]) then 1 else 0)
  }

  lemma CloseBooksOne(cfg: Settings, s: Sys, ev: Event)
    requires Typed(s)
    ensures |Step(cfg, s, ev).eng.book.trades| == |s.eng.book.trades| + (if Books(cfg, s, ev) then 1 else 0)
  {
    hide Step, AllCarried;
    StepEvolves(cfg, s, ev);
  }

  lemma {:induction false} TradesCountCloses(cfg: Settings, s: Sys, es: seq<Event>)
    requires Typed(s)
    ensures Typed(Run(cfg, s, es))
    ensures |Run(cfg, s, es).eng.book.trades| == |s.eng.book.trades| + Closes(cfg, s, es)
  {
    hide Step, Typed, Books;
    if es != [] {
      var n := |es| - 1;
      TradesCountCloses(cfg, s, es[..n]);
      StepTyped(cfg, Run(cfg, s, es[..n]), es[n]);
      CloseBooksOne(cfg, Run(cfg, s, es[..n]), es[n]);
    }
  }

  /** An exit that began after `before` closes its own position when it fills after `after` more events
      exactly when no close was booked among them. */
  lemma OwnExactlyWithoutCloses(cfg: Settings, before: seq<Event>, after: seq<Event>, t: Task, out: Outcome)
    requires t.ExitOrdered? && out.Filled? && BeganAt(Reached(cfg, before).eng.book, t.call)
    requires var s := Reached(cfg, before + after); t == s.bar || t in s.flats
    ensures var s := Reached(cfg, before + after);
            var (s', t') := Tick(cfg, s, t, out);
            ClosesItsOwn(s, t, s', t') <==> Closes(cfg, Reached(cfg, before), after) == 0
  {
    hide Step, Tick, Closes, ClosesItsOwn;
    RunConcat(cfg, InitialSys(cfg), before, after);
    ReachedTyped(cfg, before);
    TradesCountCloses(cfg, Reached(cfg, before), after);
    FilledExitOutcome(cfg, before + after, t, out);
  }

  // ---------------------------------------------------------------- a guard for whole runs

  /** Every exit under way began after the last close. */
  ghost predicate AllFresh(s: Sys) {
    && (Exiting(s.bar) ==> s.bar.call.since == |s.eng.book.trades|)
    && forall k :: 0 <= k < |s.flats| && Exiting(s.flats[k]) ==> s.flats[k].call.since == |s.eng.book.trades|
  }

  /** No position is closed while another exit is under way. */
  ghost predicate ClosesAlone(cfg: Settings, es: seq<Event>) {
    forall n :: 0 <= n < |es| ==>
      (Books(cfg, Reached(cfg, es[..n]), es[n]) ==> NoneExiting(Step(cfg, Reached(cfg, es[..n]), es[n])))
  }

  lemma NoneIsFresh(s: Sys)
    requires NoneExiting(s)
    ensures AllFresh(s)
  {}

  lemma StepFresh(cfg: Settings, s: Sys, ev: Event)
    requires Typed(s) && AllFresh(s) && (Books(cfg, s, ev) ==> NoneExiting(Step(cfg, s, ev)))
    ensures AllFresh(Step(cfg, s, ev))
  {
    hide Step, Typed, Exiting, Evolves;
    DeadIsOver();
    StepEvolves(cfg, s, ev);
    CloseBooksOne(cfg, s, ev);
    if Books(cfg, s, ev) { NoneIsFresh(Step(cfg, s, ev)); }
  }

  /** A close that leaves every exit fresh leaves none: those under way captured what it closed. */
  lemma FreshCloseIsAlone(cfg: Settings, s: Sys, ev: Event)
    requires Typed(s) && AllKnow(s) && AllFresh(Step(cfg, s, ev)) && Books(cfg, s, ev)
    ensures NoneExiting(Step(cfg, s, ev))
  {
    hide Step, Typed;
    StepKnows(cfg, s, ev);
  }

  /** Exactly when every exit under way, in every state of a run, would close its own position if it
      filled: when no position is closed while another exit is under way. */
  lemma {:induction false} ExitsAreFreshExactly(cfg: Settings, es: seq<Event>)
    ensures (forall n :: 0 <= n <= |es| ==> AllFresh(Reached(cfg, es[..n]))) <==> ClosesAlone(cfg, es)
  {
    hide Step, AllFresh, Books, NoneExiting, Reached;
    if ClosesAlone(cfg, es) {
      forall n | 0 <= n <= |es| ensures AllFresh(Reached(cfg, es[..n])) { AloneIsFresh(cfg, es, n); }
    }
    if forall n :: 0 <= n <= |es| ==> AllFresh(Reached(cfg, es[..n])) {
      forall n | 0 <= n < |es| && Books(cfg, Reached(cfg, es[..n]), es[n])
        ensures NoneExiting(Step(cfg, Reached(cfg, es[..n]), es[n]))
      {
        ReachedNext(cfg, es, n);
        ReachedTyped(cfg, es[..n]);
        RunKnows(cfg, es[..n]);
        FreshCloseIsAlone(cfg, Reached(cfg, es[..n]), es[n]);
      }
    }
  }

  lemma {:induction false} AloneIsFresh(cfg: Settings, es: seq<Event>, n: nat)
    requires ClosesAlone(cfg, es) && n <= |es|
    ensures AllFresh(Reached(cfg, es[..n]))
  {
    hide Step, AllFresh, Books, NoneExiting;
    if n == 0 {
      StartFresh(cfg);
    } else {
      AloneIsFresh(cfg, es, n - 1);
      ReachedTyped(cfg, es[..n - 1]);
      ReachedNext(cfg, es, n - 1);
      StepFresh(cfg, Reached(cfg, es[..n - 1]), es[n - 1]);
    }
  }

  lemma StartFresh(cfg: Settings)
    ensures AllFresh(InitialSys(cfg))
  {}

  /** So when no position is closed while another exit is under way, every exit that fills closes the
      position it captured. */
  lemma ExitsCloseTheirOwn(cfg: Settings, es: seq<Event>, t: Task, out: Outcome)
    requires ClosesAlone(cfg, es) && out.Filled? && t.ExitOrdered?
    requires var s := Reached(cfg, es); t == s.bar || t in s.flats
    ensures var s := Reached(cfg, es);
            var (s', t') := Tick(cfg, s, t, out);
            ClosesItsOwn(s, t, s', t')
  {
    hide Step, Tick, ClosesItsOwn;
    assert es[..|es|] == es;
    AloneIsFresh(cfg, es, |es|);
    FilledExitOutcome(cfg, es, t, out);
  }
}
