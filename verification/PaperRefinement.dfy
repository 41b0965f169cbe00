/** With paper fills and nothing in between, the interleaved engine is the sequential one: a bar whose
    awaits return one after the other runs as the single function `PaperBar`. */
module PaperRefinement {
  import opened Types
  import opened PortfolioModel
  import opened LiveEngine
  import opened LiveTasks
  import Risk

  /** The events of one undisturbed bar: the bar, then each await of its task as it returns. */
  function BarEvents(cfg: Settings, s: Sys, bar: Bar, seen: Seen): seq<Event> {
    var recorded := TaskStep(cfg, s, BarArrives(bar));
    var acted := TaskStep(cfg, recorded.0, BarTick(Observed(seen.signal, seen.atr)));
    recorded.1 + acted.1 + [BarTick(Ack)]
  }

  /** A step of the bar task, and the store's acknowledgement when it closed a trade. */
  function TaskStep(cfg: Settings, s: Sys, ev: Event): (Sys, seq<Event>) {
    var s1 := Step(cfg, s, ev);
    if s1.bar.Recording? then (Step(cfg, s1, BarTick(Ack)), [ev, BarTick(Ack)]) else (s1, [ev])
  }

  lemma TaskStepRuns(cfg: Settings, s: Sys, before: seq<Event>, ev: Event)
    ensures var (s', es) := TaskStep(cfg, Run(cfg, s, before), ev); Run(cfg, s, before + es) == s'
  {
    hide Step, Run;
    RunAppends(cfg, s, before, ev);
    RunAppends(cfg, s, before + [ev], BarTick(Ack));
    assert before + [ev] + [BarTick(Ack)] == before + [ev, BarTick(Ack)];
  }

  /** The bar meets the open position. */
  lemma ArrivalRefines(cfg: Settings, s: Sys, bar: Bar)
    requires cfg.paper && s.bar == Idle && (s.eng.lastBar.None? || s.eng.lastBar.value.time < bar.time)
    ensures var s' := TaskStep(cfg, s, BarArrives(bar)).0;
            s'.eng == PaperManaged(cfg, s.eng, bar) && s'.bar == Observing(bar)
  {
    hide BarrierExit, ClosedTrade, Excursion;
  }

  /** The signal is acted on and the bar marked. */
  lemma ActionRefines(cfg: Settings, s: Sys, bar: Bar, seen: Seen)
    requires cfg.paper && s.bar == Observing(bar)
    ensures var s' := TaskStep(cfg, s, BarTick(Observed(seen.signal, seen.atr))).0;
            s'.eng == BarMarked(PaperActed(cfg, s.eng, bar, seen.signal, seen.atr), bar) && s'.bar == Syncing
  {
    hide Risk.SizeOrder, ClosedTrade, OpenedPosition, Equity;
  }

  /** One undisturbed paper bar is `PaperBar`, and leaves the bar task ready for the next. */
  lemma BarRefines(cfg: Settings, s: Sys, bar: Bar, seen: Seen)
    requires cfg.paper && s.bar == Idle && (s.eng.lastBar.None? || s.eng.lastBar.value.time < bar.time)
    ensures var s' := Run(cfg, s, BarEvents(cfg, s, bar, seen));
            && s'.eng == PaperBar(cfg, s.eng, bar, seen.signal, seen.atr) && s'.bar == Idle
  {
    hide PaperManaged, PaperActed, BarMarked, TaskStep;
    var (s1, es1) := TaskStep(cfg, s, BarArrives(bar));
    var (s2, es2) := TaskStep(cfg, s1, BarTick(Observed(seen.signal, seen.atr)));
    ArrivalRefines(cfg, s, bar);
    ActionRefines(cfg, s1, bar, seen);
    TaskStepRuns(cfg, s, [], BarArrives(bar));
    assert [] + es1 == es1;
    TaskStepRuns(cfg, s, es1, BarTick(Observed(seen.signal, seen.atr)));
    RunAppends(cfg, s, es1 + es2, BarTick(Ack));
  }

  /** The schedule of a paper engine that is never disturbed. */
  function Schedule(cfg: Settings, bars: seq<Bar>, seen: seq<Seen>, n: nat): seq<Event>
    requires n <= |bars| == |seen|
  {
    if n == 0 then [Begin]
    else
      var es := Schedule(cfg, bars, seen, n - 1);
      es + BarEvents(cfg, Reached(cfg, es), bars[n - 1], seen[n - 1])
  }

  predicate Increasing(bars: seq<Bar>) {
    forall i, j :: 0 <= i < j < |bars| ==> bars[i].time < bars[j].time
  }

  lemma LastBarKept(cfg: Settings, e: Eng, bar: Bar, signal: Option<Signal>, atr: real)
    ensures PaperBar(cfg, e, bar, signal, atr).lastBar == Some(bar)
  {
    hide Risk.SizeOrder, ClosedTrade, OpenedPosition, BarrierExit, Equity;
  }

  /** Over any series of bars in time order the sequential engine is a schedule of the interleaved one, so
      what holds over every schedule holds of it. */
  lemma {:induction false} PaperRunIsASchedule(cfg: Settings, bars: seq<Bar>, seen: seq<Seen>, n: nat)
    requires cfg.paper && n <= |bars| == |seen| && Increasing(bars)
    ensures var s := Reached(cfg, Schedule(cfg, bars, seen, n));
            && s.eng == Followed(cfg, NewEng(cfg), bars, seen, 0, n) && s.bar == Idle
            && s.eng.lastBar == (if n == 0 then None else Some(bars[n - 1]))
  {
    hide Step, PaperBar, BarEvents;
    if n == 0 {
      Started(cfg);
    } else {
      PaperRunIsASchedule(cfg, bars, seen, n - 1);
      var es := Schedule(cfg, bars, seen, n - 1);
      var s := Reached(cfg, es);
      BarRefines(cfg, s, bars[n - 1], seen[n - 1]);
      RunConcat(cfg, InitialSys(cfg), es, BarEvents(cfg, s, bars[n - 1], seen[n - 1]));
      LastBarKept(cfg, s.eng, bars[n - 1], seen[n - 1].signal, seen[n - 1].atr);
    }
  }

  lemma Started(cfg: Settings)
    ensures Reached(cfg, [Begin]) == InitialSys(cfg).(bar := Idle)
  {
    assert [Begin][..|[Begin]| - 1] == [];
    assert Run(cfg, InitialSys(cfg), []) == InitialSys(cfg);
  }
}
