/** Overlapping exits and placements: a guard that keeps the protective orders under control, and what
    each stage of an exit or a placement leaves behind when the position is closed under it. */
module ProtectiveOverlaps {
  import opened Types
  import opened PortfolioModel
  import opened LiveEngine
  import opened LiveTasks
  import opened LiveSafety
  import opened ExitOwnership
  import opened ProtectiveProtocol
  import Risk

  // ---------------------------------------------------------------- a guard a flatten can check

  /** The task is cancelling or placing protective orders. */
  predicate Engaged(t: Task) { t.CancelOld? || t.PlaceBegin? || Placing(t) }

  /** Nothing is tracked, and no task is cancelling or placing. */
  predicate Settled(s: Sys) {
    s.tracked == [] && !Engaged(s.bar) && forall k :: 0 <= k < |s.flats| ==> !Engaged(s.flats[k])
  }

  /** Positions are closed only in settled states. */
  ghost predicate SettledCloses(cfg: Settings, es: seq<Event>) {
    forall n :: 0 <= n < |es| && Books(cfg, Reached(cfg, es[..n]), es[n]) ==> Settled(Reached(cfg, es[..n]))
  }

  lemma {:induction false} NoHands(ts: seq<Task>)
    requires forall k :: 0 <= k < |ts| ==> Held(ts[k]) == []
    ensures Hands(ts) == multiset{}
  {
    if ts != [] { NoHands(ts[..|ts| - 1]); }
  }

  lemma SettledOwnsNothing(s: Sys)
    requires Settled(s)
    ensures Owned(s) == multiset{}
  {
    NoHands(s.flats);
  }

  /** A placement under way has a position to protect. */
  predicate PlacingOpen(s: Sys) {
    s.bar.PlaceBegin? || Placing(s.bar) ==> s.eng.book.position.Some?
  }

  lemma StepPlacingOpen(cfg: Settings, s: Sys, ev: Event)
    requires Typed(s) && PlacingOpen(s) && (Books(cfg, s, ev) ==> Settled(s))
    ensures PlacingOpen(Step(cfg, s, ev))
  {
    hide Tick, OnArrival, OnFlatten, TickEffect;
    if ev.BarTick? { PlacementOrder(cfg, s, ev.out); } else { OtherEvents(cfg, s, ev); }
  }

  lemma StepSettled(cfg: Settings, s: Sys, ev: Event)
    requires Typed(s) && PlacingOpen(s) && (Books(cfg, s, ev) ==> Settled(s))
    ensures Guarded(cfg, s, ev)
  {
    hide Step, Owned, Typed, Settled;
    if Books(cfg, s, ev) { SettledOwnsNothing(s); }
    AcceptedIsPlacing(s, ev);
  }

  lemma AcceptedIsPlacing(s: Sys, ev: Event)
    requires Typed(s)
    ensures EffectOf(s, ev).Accepted? ==> Placing(s.bar)
  {
    if ev.FlatTick? && ev.k < |s.flats| { NeverPlaces(s.flats[ev.k]); }
  }

  lemma {:induction false} RunPlacingOpen(cfg: Settings, es: seq<Event>)
    requires SettledCloses(cfg, es)
    ensures PlacingOpen(Reached(cfg, es))
  {
    hide Step, Books, Settled, PlacingOpen;
    if es == [] {
      assert PlacingOpen(InitialSys(cfg)) by { StartsIdle(cfg); }
    } else {
      var n := |es| - 1;
      assert forall m :: 0 <= m <= n ==> es[..n][..m] == es[..m];
      RunPlacingOpen(cfg, es[..n]);
      ReachedTyped(cfg, es[..n]);
      StepPlacingOpen(cfg, Reached(cfg, es[..n]), es[n]);
    }
  }

  lemma StartsIdle(cfg: Settings)
    ensures PlacingOpen(InitialSys(cfg))
  {}

  /** The guard a caller can check is enough: a run whose positions are closed only while nothing is
      tracked and no task is cancelling or placing leaves no order resting while flat. */
  lemma SettledClosesAreGuarded(cfg: Settings, es: seq<Event>)
    requires SettledCloses(cfg, es)
    ensures GuardedRun(cfg, es)
  {
    hide Step, Books, Settled, Guarded, PlacingOpen;
    forall n | 0 <= n < |es| ensures Guarded(cfg, Reached(cfg, es[..n]), es[n]) {
      assert forall m :: 0 <= m <= n ==> es[..n][..m] == es[..m];
      RunPlacingOpen(cfg, es[..n]);
      ReachedTyped(cfg, es[..n]);
      StepSettled(cfg, Reached(cfg, es[..n]), es[n]);
    }
  }

  // ---------------------------------------------------------------- schedules without overlap

  /** A paper engine needs no guard: its fills leave no room for an overlap. */
  lemma PaperIsSettled(cfg: Settings, es: seq<Event>)
    requires cfg.paper
    ensures SettledCloses(cfg, es) && ClosesAlone(cfg, es)
  {
    hide Step;
    forall n | 0 <= n < |es|
      ensures Settled(Reached(cfg, es[..n])) && NoneExiting(Step(cfg, Reached(cfg, es[..n]), es[n]))
    {
      ReachedInstant(cfg, es[..n]);
      ReachedTyped(cfg, es[..n]);
      StepInstant(cfg, Reached(cfg, es[..n]), es[n]);
    }
  }

  /** No exit or placement overlaps another. */
  predicate Exclusive(s: Sys) {
    && (forall k :: 0 <= k < |s.flats| && Critical(s.flats[k]) ==> !Critical(s.bar))
    && (forall j, k :: 0 <= j < k < |s.flats| ==> !(Critical(s.flats[j]) && Critical(s.flats[k])))
  }

  ghost predicate ExclusiveRun(cfg: Settings, es: seq<Event>) {
    forall n :: 0 <= n <= |es| ==> Exclusive(Reached(cfg, es[..n]))
  }

  /** While an exit is under way nothing is tracked. */
  ghost predicate ExitUntracked(s: Sys) { !NoneExiting(s) ==> s.tracked == [] }

  /** Only a finished placement tracks anything, and what begins an exit untracks it. */
  lemma TrackingStep(cfg: Settings, s: Sys, ev: Event)
    requires Typed(s) && !cfg.paper
    ensures var s' := Step(cfg, s, ev);
            && (s.tracked == [] && s'.tracked != [] ==>
                  ev.BarTick? && s.bar.PlaceTarget? && !Exiting(s'.bar) && s'.flats == s.flats)
            && (NoneExiting(s) && !NoneExiting(s') ==> s'.tracked == [])
  {
    hide Tick, EntryBooked, BarTask, FlatTask, BarrierExit;
    match ev {
      case BarTick(out) =>
        TickKeepsFlats(cfg, s, out);
        TickTracks(cfg, s, s.bar, out);
      case FlatTick(k, out) =>
        if k < |s.flats| {
          TickTracks(cfg, s, s.flats[k], out);
          FlatTickKeepsBar(cfg, s, k, out);
          NotATarget(s, k);
        }
      case _ =>
    }
  }

  lemma NotATarget(s: Sys, k: nat)
    requires Typed(s) && k < |s.flats|
    ensures !s.flats[k].PlaceTarget?
  {}

  lemma TickTracks(cfg: Settings, s: Sys, t: Task, out: Outcome)
    requires !cfg.paper
    ensures var (s', t') := Tick(cfg, s, t, out);
            && (s.tracked == [] && s'.tracked != [] ==> t.PlaceTarget? && !Exiting(t'))
            && (!Exiting(t) && Exiting(t') ==> s'.tracked == [])
  {
    hide EntryBooked, ExitBooked, Equity, Risk.SizeOrder, TradesNoted;
  }

  lemma StepExitUntracked(cfg: Settings, s: Sys, ev: Event)
    requires Typed(s) && !cfg.paper && Exclusive(s) && ExitUntracked(s)
    ensures ExitUntracked(Step(cfg, s, ev))
  {
    hide Step;
    TrackingStep(cfg, s, ev);
  }

  lemma TickCloses(cfg: Settings, s: Sys, t: Task, out: Outcome)
    requires !cfg.paper && s.eng.book.position.Some? && Tick(cfg, s, t, out).0.eng.book.position.None?
    ensures t.ExitOrdered? && Tick(cfg, s, t, out).1.Recording?
  {
    hide OpenedPosition, Equity, Risk.SizeOrder;
  }

  /** Away from paper only an exit order's fill closes a position. */
  lemma CloseIsAFill(cfg: Settings, s: Sys, ev: Event)
    requires Typed(s) && !cfg.paper && Books(cfg, s, ev)
    ensures ev.BarTick? || (ev.FlatTick? && ev.k < |s.flats|)
    ensures ev.BarTick? ==> s.bar.ExitOrdered? && !Exiting(Step(cfg, s, ev).bar) && Step(cfg, s, ev).flats == s.flats
    ensures ev.FlatTick? ==> s.flats[ev.k].ExitOrdered? && Step(cfg, s, ev).bar == s.bar
                             && Step(cfg, s, ev).flats == s.flats[ev.k := Tick(cfg, s, s.flats[ev.k], ev.out).1]
                             && !Exiting(Tick(cfg, s, s.flats[ev.k], ev.out).1)
  {
    hide Tick, OpenedPosition, BarTask, FlatTask, BarrierExit;
    match ev {
      case BarTick(out) =>
        TickCloses(cfg, s, s.bar, out);
        TickKeepsFlats(cfg, s, out);
      case FlatTick(k, out) =>
        TickCloses(cfg, s, s.flats[k], out);
        FlatTickKeepsBar(cfg, s, k, out);
      case _ =>
    }
  }

  /** Without overlaps every close is settled and finds no other exit under way. */
  lemma ExclusiveClose(cfg: Settings, s: Sys, ev: Event)
    requires Typed(s) && !cfg.paper && Exclusive(s) && ExitUntracked(s) && Books(cfg, s, ev)
    ensures Settled(s) && NoneExiting(Step(cfg, s, ev))
  {
    hide Step, Tick, Typed, Books;
    CloseIsAFill(cfg, s, ev);
  }

  lemma {:induction false} RunExitUntracked(cfg: Settings, es: seq<Event>)
    requires ExclusiveRun(cfg, es) && !cfg.paper
    ensures ExitUntracked(Reached(cfg, es))
  {
    hide Step, Exclusive, ExitUntracked;
    if es == [] {
      StartUntracked(cfg);
    } else {
      var n := |es| - 1;
      assert forall m :: 0 <= m <= n ==> es[..n][..m] == es[..m];
      RunExitUntracked(cfg, es[..n]);
      ReachedTyped(cfg, es[..n]);
      StepExitUntracked(cfg, Reached(cfg, es[..n]), es[n]);
    }
  }

  lemma StartUntracked(cfg: Settings)
    ensures ExitUntracked(InitialSys(cfg))
  {}

  /** In particular a schedule whose exits and placements never overlap meets both guards. */
  lemma ExclusiveIsSettled(cfg: Settings, es: seq<Event>)
    requires ExclusiveRun(cfg, es)
    ensures SettledCloses(cfg, es) && ClosesAlone(cfg, es)
  {
    hide Step, Exclusive, ExitUntracked, Settled, NoneExiting, Books;
    if cfg.paper {
      PaperIsSettled(cfg, es);
    } else {
      forall n | 0 <= n < |es| && Books(cfg, Reached(cfg, es[..n]), es[n])
        ensures Settled(Reached(cfg, es[..n])) && NoneExiting(Step(cfg, Reached(cfg, es[..n]), es[n]))
      {
        assert forall m :: 0 <= m <= n ==> es[..n][..m] == es[..m];
        RunExitUntracked(cfg, es[..n]);
        ReachedTyped(cfg, es[..n]);
        ExclusiveClose(cfg, Reached(cfg, es[..n]), es[n]);
      }
    }
  }
}
