/** Cooldown spacing of the live engine over every interleaving. */
module LiveCooldown {
  import opened Types
  import opened PortfolioModel
  import opened LiveEngine
  import opened LiveTasks
  import opened LiveSafety
  import CostModel
  import Risk

  /** A trade closed by a barrier or by an opposite signal (not by a flatten request). */
  predicate Strategic(m: Mark) { m.Closed? && m.origin != FromFlatten }

  /** Bars counted to when the cooldown starts. */
  function Base(m: Mark): nat
    requires m.Closed?
  {
    if m.origin.FromSignal? then m.clock + 1 else m.clock
  }

  /** First bar on which a new entry may fill. */
  function Due(cfg: Settings, m: Mark): nat
    requires m.Closed?
  {
    Base(m) + cfg.setup.risk.cooldownBars
  }

  /** Closed on this bar and not yet noticed by the cooldown; the bar task cannot decide before noticing. */
  predicate Unnoticed(s: Sys, m: Mark)
    requires m.Closed?
  {
    && s.clock == m.clock && |s.eng.book.trades| > s.eng.tradesSeen
    && match m.origin
       case FromBarrier(_) => InBarrierExit(s.bar)
       case FromSignal(_) => s.eng.book.position.None? && Decided(s)
       case FromFlatten => false
  }

  function OriginOf(t: Task): Option<Origin> {
    match t
    case CancelOld(call, _) => Some(call.origin)
    case ExitOrdered(call) => Some(call.origin)
    case Recording(origin) => Some(origin)
    case _ => None
  }

  /** The bar task is inside the exit a barrier asked for, and has still to decide on this bar. */
  predicate InBarrierExit(t: Task) { OriginOf(t).Some? && OriginOf(t).value.FromBarrier? }

  /** The bar task has decided on this bar, or will while an earlier cooldown holds. */
  predicate Decided(s: Sys) {
    || s.bar.Idle? || s.bar.Syncing? || s.bar.PlaceBegin? || s.bar.ClearOld? || s.bar.PlaceStop? || s.bar.PlaceTarget?
    || (OriginOf(s.bar).Some? && OriginOf(s.bar).value.FromSignal?)
    || (s.bar.Observing? && s.eng.cooldown > 0)
  }

  predicate Armed(cfg: Settings, s: Sys, m: Mark)
    requires m.Closed?
  {
    s.clock >= Base(m) && s.eng.cooldown + (s.clock - Base(m)) >= cfg.setup.risk.cooldownBars
  }

  predicate Guarded(cfg: Settings, s: Sys, m: Mark)
    requires m.Closed?
  {
    s.bar.Dead? || Unnoticed(s, m) || Armed(cfg, s, m)
  }

  ghost predicate Spaced(cfg: Settings, s: Sys) {
    && s.eng.tradesSeen <= |s.eng.book.trades|
    && (forall i :: 0 <= i < |s.log| && Strategic(s.log[i]) ==> Guarded(cfg, s, s.log[i]))
    && (s.bar.EntryOrdered? ==>
          forall i :: 0 <= i < |s.log| && Strategic(s.log[i]) ==> s.clock >= Due(cfg, s.log[i]))
    && (forall i, j :: 0 <= i < j < |s.log| && Strategic(s.log[i]) && s.log[j].Opened?
          ==> s.log[j].clock >= Due(cfg, s.log[i]))
  }

  /** Segment (s', t') of task `t` from `s` recorded `m`: a close leaves the task recording it, an
      open comes from an entry order or a decision with no cooldown left. */
  predicate Records(s: Sys, t: Task, s': Sys, t': Task, m: Mark) {
    && m.clock == s.clock
    && (m.Closed? ==>
          && t'.Recording? && t'.origin == m.origin && s'.eng.book.position.None?
          && |s'.eng.book.trades| == |s.eng.book.trades| + 1 && s'.eng.tradesSeen == s.eng.tradesSeen)
    && (m.Opened? ==> t.EntryOrdered? || (t.Observing? && s.eng.cooldown == 0))
  }

  /** What one segment does to the history. */
  lemma TickLog(cfg: Settings, s: Sys, t: Task, out: Outcome)
    requires FlatTask(t) || BarTask(s.eng, t)
    ensures var (s', t') := Tick(cfg, s, t, out);
            && s'.clock == s.clock && s'.eng.tradesSeen >= s.eng.tradesSeen
            && |s'.eng.book.trades| >= |s.eng.book.trades|
            && (s'.log == s.log || (exists m :: s'.log == s.log + [m] && Records(s, t, s', t', m)))
            && (s'.eng.tradesSeen <= |s.eng.book.trades| || s'.eng.tradesSeen == s.eng.tradesSeen)
            && (t'.EntryOrdered? ==> t == t' || (t.Observing? && s.eng.cooldown == 0 && s'.log == s.log))
  {
    hide Risk.SizeOrder, ExchangeFill, ClosedTrade, OpenedPosition, Equity, CostModel.ApplyCosts;
    var s' := Tick(cfg, s, t, out).0;
    if s'.log != s.log {
      var m := s'.log[|s.log|];
      assert s'.log == s.log + [m] && Records(s, t, s', Tick(cfg, s, t, out).1, m);
    }
  }

  lemma FlatTickGuards(cfg: Settings, s: Sys, k: nat, out: Outcome, m: Mark)
    requires Typed(s) && k < |s.flats| && Strategic(m) && Guarded(cfg, s, m)
    ensures Guarded(cfg, Step(cfg, s, FlatTick(k, out)), m)
  {
    hide Risk.SizeOrder, ExchangeFill, ClosedTrade, OpenedPosition, Equity, CostModel.ApplyCosts;
    assert FlatTask(s.flats[k]);
  }

  /** A running cooldown is only ever restarted by a tick. */
  lemma ArmedTick(cfg: Settings, s: Sys, t: Task, out: Outcome)
    ensures var e' := Tick(cfg, s, t, out).0.eng;
            && Tick(cfg, s, t, out).0.clock == s.clock
            && (e'.cooldown == s.eng.cooldown || e'.cooldown == cfg.setup.risk.cooldownBars)
  {
    hide Risk.SizeOrder, ExchangeFill, ClosedTrade, OpenedPosition, Equity, CostModel.ApplyCosts;
  }

  lemma BarrierTick(cfg: Settings, s: Sys, out: Outcome, m: Mark)
    requires Strategic(m) && m.origin.FromBarrier? && Unnoticed(s, m)
    ensures var s' := Step(cfg, s, BarTick(out)); s'.bar.Dead? || Unnoticed(s', m) || Armed(cfg, s', m)
  {
    hide Acted, ExchangeFill, ClosedTrade, OpenedPosition, Equity, CostModel.ApplyCosts;
  }

  lemma CoolingStays(cfg: Settings, s: Sys, bar: Bar, signal: Option<Signal>, atr: real)
    requires s.eng.book.position.None? && s.eng.cooldown > 0
    ensures Acted(cfg, s, bar, signal, atr) == AfterBar(s, bar)
  {
    hide Risk.SizeOrder, BarMarked;
  }

  lemma SignalTick(cfg: Settings, s: Sys, out: Outcome, m: Mark)
    requires Strategic(m) && m.origin.FromSignal? && Unnoticed(s, m)
    ensures var s' := Step(cfg, s, BarTick(out)); s'.bar.Dead? || Unnoticed(s', m)
  {
    hide Acted, ExchangeFill, ClosedTrade, OpenedPosition, Equity, CostModel.ApplyCosts;
    if s.bar.Observing? && out.Observed? { CoolingStays(cfg, s, s.bar.bar, out.signal, out.atr); }
  }

  lemma BarTickGuards(cfg: Settings, s: Sys, out: Outcome, m: Mark)
    requires Typed(s) && Strategic(m) && Guarded(cfg, s, m)
    ensures Guarded(cfg, Step(cfg, s, BarTick(out)), m)
  {
    hide Tick, Unnoticed;
    if Unnoticed(s, m) {
      NoticedAtLast(s, m);
      if m.origin.FromBarrier? { BarrierTick(cfg, s, out, m); } else { SignalTick(cfg, s, out, m); }
    } else if s.bar.Dead? {
      DeadTick(cfg, s, out);
    } else {
      ArmedTick(cfg, s, s.bar, out);
    }
  }

  lemma NoticedAtLast(s: Sys, m: Mark)
    requires m.Closed? && Unnoticed(s, m)
    ensures m.origin.FromBarrier? || m.origin.FromSignal?
  {}

  lemma DeadTick(cfg: Settings, s: Sys, out: Outcome)
    requires s.bar.Dead?
    ensures Step(cfg, s, BarTick(out)) == s
  {}

  lemma ArrivalGuards(cfg: Settings, s: Sys, bar: Bar, m: Mark)
    requires Typed(s) && s.bar.Idle? && Strategic(m) && Guarded(cfg, s, m)
    ensures Guarded(cfg, OnArrival(cfg, s, bar), m)
  {
    hide ClosedTrade, CostModel.ApplyCosts, BarrierExit, Excursion;
  }

  lemma StepGuards(cfg: Settings, s: Sys, ev: Event, m: Mark)
    requires Typed(s) && Strategic(m) && Guarded(cfg, s, m)
    ensures Guarded(cfg, Step(cfg, s, ev), m)
  {
    hide Tick, OnArrival, BarTask, FlatTask, OpenedPosition, ClosedTrade, CostModel.ApplyCosts;
    match ev {
      case BarTick(out) => BarTickGuards(cfg, s, out, m);
      case FlatTick(k, out) => if k < |s.flats| { FlatTickGuards(cfg, s, k, out, m); }
      case BarArrives(bar) => if s.bar.Idle? { ArrivalGuards(cfg, s, bar, m); }
      case _ =>
    }
  }

  /** The bar task is about to decide, with no cooldown to stop it. */
  predicate Undecided(s: Sys) { s.bar.Observing? && s.eng.cooldown == 0 }

  lemma UndecidedIsArmed(cfg: Settings, s: Sys, m: Mark)
    requires Typed(s) && Strategic(m) && Guarded(cfg, s, m) && Undecided(s)
    ensures s.clock >= Due(cfg, m)
  {}

  lemma RecordedIsGuarded(cfg: Settings, s: Sys, t: Task, s': Sys, m: Mark)
    requires Strategic(m) && Records(s, t, s', s'.bar, m) && s'.clock == s.clock
    requires s.eng.tradesSeen <= |s.eng.book.trades|
    ensures Guarded(cfg, s', m)
  {}

  lemma BarTickSpaced(cfg: Settings, s: Sys, out: Outcome)
    requires Typed(s) && Spaced(cfg, s)
    ensures Spaced(cfg, Step(cfg, s, BarTick(out)))
  {
    hide Tick, Guarded, BarTask, FlatTask;
    var s' := Step(cfg, s, BarTick(out));
    TickLog(cfg, s, s.bar, out);
    forall i | 0 <= i < |s.log| && Strategic(s.log[i])
      ensures Guarded(cfg, s', s.log[i]) && (Undecided(s) ==> s.clock >= Due(cfg, s.log[i]))
    {
      BarTickGuards(cfg, s, out, s.log[i]);
      if Undecided(s) { UndecidedIsArmed(cfg, s, s.log[i]); }
    }
    if s'.log != s.log {
      var m :| s'.log == s.log + [m] && Records(s, s.bar, Tick(cfg, s, s.bar, out).0, s'.bar, m);
      if Strategic(m) { RecordedIsGuarded(cfg, s, s.bar, s', m); }
    }
  }

  lemma FlatTickSpaced(cfg: Settings, s: Sys, k: nat, out: Outcome)
    requires Typed(s) && Spaced(cfg, s) && k < |s.flats|
    ensures Spaced(cfg, Step(cfg, s, FlatTick(k, out)))
  {
    assert FlatTask(s.flats[k]);
    var s' := Step(cfg, s, FlatTick(k, out));
    TickLog(cfg, s, s.flats[k], out);
    FlatTickTyped(cfg, s, s.flats[k], out);
    forall i | 0 <= i < |s.log| && Strategic(s.log[i]) ensures Guarded(cfg, s', s.log[i]) {
      FlatTickGuards(cfg, s, k, out, s.log[i]);
    }
  }

  lemma ArrivalSpaced(cfg: Settings, s: Sys, bar: Bar)
    requires Typed(s) && Spaced(cfg, s) && s.bar.Idle?
    ensures Spaced(cfg, OnArrival(cfg, s, bar))
  {
    var s' := OnArrival(cfg, s, bar);
    forall i | 0 <= i < |s.log| && Strategic(s.log[i]) ensures Guarded(cfg, s', s.log[i]) {
      ArrivalGuards(cfg, s, bar, s.log[i]);
    }
    assert s'.log == s.log || (|s'.log| == |s.log| + 1 && s'.log[..|s.log|] == s.log && s'.log[|s.log|].Closed?);
  }

  lemma FlattenSpaced(cfg: Settings, s: Sys)
    requires Typed(s) && Spaced(cfg, s)
    ensures Spaced(cfg, OnFlatten(cfg, s))
  {
    var s' := OnFlatten(cfg, s);
    forall i | 0 <= i < |s.log| && Strategic(s.log[i]) ensures Guarded(cfg, s', s.log[i]) {
      StepGuards(cfg, s, FlattenStarts, s.log[i]);
    }
    assert s'.log == s.log || s'.log == s.log + [Closed(s.clock, FromFlatten)];
  }

  lemma StepSpaced(cfg: Settings, s: Sys, ev: Event)
    requires Typed(s) && Spaced(cfg, s) && (s.bar.Start? ==> s.log == [])
    ensures Spaced(cfg, Step(cfg, s, ev))
  {
    match ev {
      case BarTick(out) => BarTickSpaced(cfg, s, out);
      case FlatTick(k, out) => if k < |s.flats| { FlatTickSpaced(cfg, s, k, out); }
      case BarArrives(bar) => if s.bar.Idle? { ArrivalSpaced(cfg, s, bar); }
      case FlattenStarts => FlattenSpaced(cfg, s);
      case _ =>
        forall i | 0 <= i < |s.log| && Strategic(s.log[i]) ensures Guarded(cfg, Step(cfg, s, ev), s.log[i]) {
          StepGuards(cfg, s, ev, s.log[i]);
        }
    }
  }

  lemma StartIsClean(cfg: Settings, s: Sys, ev: Event)
    requires Typed(s) && (s.bar.Start? ==> s.log == []) && Step(cfg, s, ev).bar.Start?
    ensures Step(cfg, s, ev).log == []
  {
    match ev {
      case BarTick(out) => BarTickTyped(cfg, s, out);
      case FlatTick(k, out) => if k < |s.flats| { FlatTickTyped(cfg, s, s.flats[k], out); }
      case BarArrives(bar) => if s.bar.Idle? { ArrivalTyped(cfg, s, bar); }
      case FlattenStarts => FlattenTyped(cfg, s);
      case _ =>
    }
  }

  lemma {:induction false} RunSpaced(cfg: Settings, es: seq<Event>)
    ensures Spaced(cfg, Reached(cfg, es)) && (Reached(cfg, es).bar.Start? ==> Reached(cfg, es).log == [])
  {
    if es != [] {
      var n := |es| - 1;
      RunSpaced(cfg, es[..n]);
      ReachedTyped(cfg, es[..n]);
      StepSpaced(cfg, Reached(cfg, es[..n]), es[n]);
      if Reached(cfg, es).bar.Start? { StartIsClean(cfg, Reached(cfg, es[..n]), es[n]); }
    }
  }

  /** Over every interleaving, with any fills, failures and flattens: after a barrier exit on bar `c`
      no entry fills before bar c + cooldown_bars, and after a signal exit not before
      bar c + cooldown_bars + 1. */
  lemma EntriesAreSpaced(cfg: Settings, es: seq<Event>, i: nat, j: nat)
    requires var log := Reached(cfg, es).log; i < j < |log| && Strategic(log[i]) && log[j].Opened?
    ensures var log := Reached(cfg, es).log;
            log[j].clock >= log[i].clock + cfg.setup.risk.cooldownBars + (if log[i].origin.FromSignal? then 1 else 0)
  {
    RunSpaced(cfg, es);
  }

  // ---------------------------------------------------------------- after a flatten

  /** The close of a flatten as the cooldown sees it: like the barrier exit it overtakes, or else like a
      close after the bar's decision. */
  function NoticedAs(s: Sys, bar: Bar): Mark {
    Closed(s.clock, if InBarrierExit(s.bar) then FromBarrier(bar) else FromSignal(bar))
  }

  /** The cooldown for `m` is pending or running, and an entry in flight is no earlier than it allows. */
  predicate Waits(cfg: Settings, s: Sys, m: Mark)
    requires m.Closed?
  {
    && Guarded(cfg, s, m) && !s.bar.Start? && s.eng.tradesSeen <= |s.eng.book.trades|
    && (s.bar.EntryOrdered? ==> s.clock >= Due(cfg, m))
  }

  /** A flatten's exit closes the position. */
  predicate FlattenCloses(cfg: Settings, s: Sys, ev: Event) {
    (ev.FlattenStarts? || ev.FlatTick?) && s.eng.book.position.Some? && Step(cfg, s, ev).eng.book.position.None?
  }

  lemma FlattenCloseLeaves(cfg: Settings, s: Sys, close: Event)
    requires Typed(s) && FlattenCloses(cfg, s, close)
    ensures var s' := Step(cfg, s, close);
            && s'.clock == s.clock && s'.bar == s.bar && s'.eng.cooldown == s.eng.cooldown
            && s'.eng.tradesSeen == s.eng.tradesSeen && s'.eng.book.position.None?
            && |s'.eng.book.trades| == |s.eng.book.trades| + 1
  {
    hide ClosedTrade, ExchangeFill, CostModel.ApplyCosts, Equity;
  }

  lemma FlattenCloseWaits(cfg: Settings, s: Sys, ev: Event, bar: Bar)
    requires Typed(s) && Spaced(cfg, s) && FlattenCloses(cfg, s, ev) && !Undecided(s)
    ensures Waits(cfg, Step(cfg, s, ev), NoticedAs(s, bar))
  {
    hide Step;
    FlattenCloseLeaves(cfg, s, ev);
  }

  lemma TickWaits(cfg: Settings, s: Sys, t: Task, out: Outcome)
    requires (FlatTask(t) || t == s.bar) && s.eng.tradesSeen <= |s.eng.book.trades|
    ensures var (s', t') := Tick(cfg, s, t, out);
            && s'.clock == s.clock && s'.eng.tradesSeen <= |s'.eng.book.trades|
            && (t'.Start? ==> t.Start?)
            && (t'.EntryOrdered? ==> t == t' || (t.Observing? && s.eng.cooldown == 0))
            && (s.eng.book.position.None? && s'.eng.book.position.Some? ==>
                  t.EntryOrdered? || (t.Observing? && s.eng.cooldown == 0))
  {
    hide Risk.SizeOrder, ExchangeFill, ClosedTrade, OpenedPosition, Equity, CostModel.ApplyCosts;
  }

  lemma StepWaits(cfg: Settings, s: Sys, ev: Event, m: Mark)
    requires Typed(s) && Strategic(m) && Waits(cfg, s, m)
    ensures Waits(cfg, Step(cfg, s, ev), m)
    ensures OpensAt(cfg, s, ev) ==> s.clock >= Due(cfg, m)
  {
    hide Tick, OnArrival, OnFlatten, Guarded, FlatTask, BarTask, OpenedPosition;
    StepGuards(cfg, s, ev, m);
    if Undecided(s) { UndecidedIsArmed(cfg, s, m); }
    match ev {
      case BarTick(out) => TickWaits(cfg, s, s.bar, out);
      case FlatTick(k, out) =>
        if k < |s.flats| {
          TickWaits(cfg, s, s.flats[k], out);
          FlatTickTyped(cfg, s, s.flats[k], out);
          FlatNeverEnters(s, k);
        }
      case BarArrives(bar) =>
        if s.bar.Idle? {
          ArrivalTyped(cfg, s, bar);
          ArrivalWaits(cfg, s, bar);
        }
      case FlattenStarts =>
        FlattenTyped(cfg, s);
        FlattenWaits(cfg, s);
      case _ =>
    }
  }

  lemma FlatNeverEnters(s: Sys, k: nat)
    requires Typed(s) && k < |s.flats|
    ensures !s.flats[k].EntryOrdered? && !s.flats[k].Observing?
  {}

  lemma ArrivalWaits(cfg: Settings, s: Sys, bar: Bar)
    requires s.bar == Idle && s.eng.tradesSeen <= |s.eng.book.trades|
    ensures var s' := OnArrival(cfg, s, bar);
            s'.eng.tradesSeen <= |s'.eng.book.trades| && !s'.bar.Start? && !s'.bar.EntryOrdered?
  {
    hide ClosedTrade, CostModel.ApplyCosts, BarrierExit, Excursion;
  }

  lemma FlattenWaits(cfg: Settings, s: Sys)
    requires s.eng.tradesSeen <= |s.eng.book.trades|
    ensures var s' := OnFlatten(cfg, s); s'.eng.tradesSeen <= |s'.eng.book.trades|
  {
    hide ClosedTrade, CostModel.ApplyCosts;
  }

  lemma {:induction false} RunWaits(cfg: Settings, s: Sys, es: seq<Event>, m: Mark)
    requires Typed(s) && Strategic(m) && Waits(cfg, s, m)
    ensures Typed(Run(cfg, s, es)) && Waits(cfg, Run(cfg, s, es), m)
  {
    hide Step, Waits, Typed;
    if es != [] {
      var n := |es| - 1;
      RunWaits(cfg, s, es[..n], m);
      StepTyped(cfg, Run(cfg, s, es[..n]), es[n]);
      StepWaits(cfg, Run(cfg, s, es[..n]), es[n], m);
    }
  }

  /** After a flatten's close on bar `c`, whatever resumes and whatever follows, no position opens before
      bar c + cooldown_bars if the close overtook a barrier exit and c + cooldown_bars + 1 otherwise,
      unless the bar task was about to decide with no cooldown left. */
  lemma EntriesWaitAfterFlatten(cfg: Settings, before: seq<Event>, close: Event, after: seq<Event>, open: Event)
    requires var s := Reached(cfg, before);
             && FlattenCloses(cfg, s, close) && !Undecided(s)
             && OpensAt(cfg, Run(cfg, Step(cfg, s, close), after), open)
    ensures var s := Reached(cfg, before);
            Run(cfg, Step(cfg, s, close), after).clock
            >= s.clock + cfg.setup.risk.cooldownBars + (if InBarrierExit(s.bar) then 0 else 1)
  {
    hide Step, Reached, Waits, FlattenCloses, Undecided, InBarrierExit, OpensAt;
    var s, bar := Reached(cfg, before), Bar(0, 0.0, 0.0, 0.0, 0.0, 0.0);
    ReachedTyped(cfg, before);
    RunSpaced(cfg, before);
    StepTyped(cfg, s, close);
    FlattenCloseWaits(cfg, s, close, bar);
    var m := NoticedAs(s, bar);
    RunWaits(cfg, Step(cfg, s, close), after, m);
    StepWaits(cfg, Run(cfg, Step(cfg, s, close), after), open, m);
  }

  /** The decision put an entry in flight, or on paper opened the position at once. */
  predicate Enters(cfg: Settings, s: Sys) {
    if cfg.paper then s.eng.book.position.Some? else s.bar.EntryOrdered?
  }

  lemma ResumedDecision(cfg: Settings, s: Sys, signal: Signal, atr: real)
    requires Undecided(s) && s.eng.book.position.None?
    ensures var entered := Step(cfg, Step(cfg, s, Resumed), BarTick(Observed(Some(signal), atr)));
            && entered.clock == s.clock
            && (Enters(cfg, entered) <==>
                  Risk.SizeOrder(cfg.setup, signal, s.bar.bar, atr, s.eng.book.realized, false).Some?)
  {
    hide Risk.SizeOrder, OpenedPosition, CostModel.ApplyCosts;
    FlatIsNotSized(cfg.setup, signal, s.bar.bar, atr, s.eng.book.realized);
  }

  lemma FlatIsNotSized(setup: RiskSetup, signal: Signal, bar: Bar, atr: real, equity: real)
    ensures signal.side == Flat ==> Risk.SizeOrder(setup, signal, bar, atr, equity, false).None?
  {}

  /** If it was, the decision does not see the close, on an exchange or on paper: once resumed it enters on
      the very same bar exactly when the signal is sized, however long the cooldown. */
  lemma DecisionIgnoresFlatten(cfg: Settings, s: Sys, close: Event, signal: Signal, atr: real)
    requires Typed(s) && FlattenCloses(cfg, s, close) && Undecided(s)
    ensures var closed := Step(cfg, s, close);
            var entered := Step(cfg, Step(cfg, closed, Resumed), BarTick(Observed(Some(signal), atr)));
            && entered.clock == s.clock && |closed.eng.book.trades| == |s.eng.book.trades| + 1
            && (Enters(cfg, entered) <==>
                  Risk.SizeOrder(cfg.setup, signal, s.bar.bar, atr, closed.eng.book.realized, false).Some?)
  {
    hide Step, Risk.SizeOrder, Enters;
    FlattenCloseLeaves(cfg, s, close);
    ResumedDecision(cfg, Step(cfg, s, close), signal, atr);
  }
}
