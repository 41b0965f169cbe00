/** What a close leaves resting when it lands inside another task's exit or placement, stage by stage. */
module ProtectiveStages {
  import opened Types
  import opened PortfolioModel
  import opened LiveTasks
  import opened ExitOwnership
  import opened ProtectiveProtocol

  function IdSet(ids: seq<Id>): set<Id> { set id | id in ids }

  /** A close leaves the engine flat with exactly the orders resting whose ids were still tracked or in
      some task's hands. */
  lemma CloseLeavesWhatIsOwned(cfg: Settings, es: seq<Event>, ev: Event)
    requires HonestRun(cfg, es) && NoNativeFills(es) && Books(cfg, Reached(cfg, es), ev)
    ensures var s, s' := Reached(cfg, es), Step(cfg, Reached(cfg, es), ev);
            && s'.eng.book.position.None? && s'.resting == s.resting
            && (forall id :: id in s'.resting <==> id in Owned(s))
            && (s'.resting == {} <==> Owned(s) == multiset{})
  {
    hide Owned;
    NoOrderIsForgotten(cfg, es);
    BookingMovesNothing(cfg, Reached(cfg, es), ev);
    StepMoves(cfg, Reached(cfg, es), ev);
    var s := Reached(cfg, es);
    if Owned(s) != multiset{} {
      var id :| id in Owned(s);
      assert id in s.resting;
    }
  }

  /** A close booked while one task is cancelling, and no other id is kept, is flat with exactly the ids
      that task has not yet cancelled still resting. */
  lemma CloseInsideCancel(cfg: Settings, es: seq<Event>, ev: Event, t: Task)
    requires HonestRun(cfg, es) && NoNativeFills(es) && Books(cfg, Reached(cfg, es), ev)
    requires t == Reached(cfg, es).bar || t in Reached(cfg, es).flats
    requires (t.CancelOld? || t.ClearOld?) && Owned(Reached(cfg, es)) == multiset(t.left)
    ensures var s' := Step(cfg, Reached(cfg, es), ev);
            && s'.eng.book.position.None? && s'.resting == IdSet(t.left)
            && (s'.resting == {} <==> t.left == [])
  {
    hide Step, Reached, Owned, IdSet;
    CloseLeavesWhatIsOwned(cfg, es, ev);
    SameIds(Step(cfg, Reached(cfg, es), ev).resting, t.left);
  }

  lemma SameIds(resting: set<Id>, ids: seq<Id>)
    requires forall id :: id in resting <==> id in multiset(ids)
    ensures resting == IdSet(ids) && (resting == {} <==> ids == [])
  {
    if ids != [] { assert ids[0] in IdSet(ids); }
  }

  // ---------------------------------------------------------------- inside a placement

  function Reply(accepted: bool): Outcome { if accepted then Ack else Failed }

  predicate PlacingStage(t: Task) { t.PlaceBegin? || Placing(t) }

  /** Earlier orders the placement has still to cancel, and those it got accepted so far. */
  function Old(t: Task): seq<Id> { if t.ClearOld? then t.left else [] }

  function Earlier(t: Task): seq<Id> { if t.PlaceTarget? then t.ids else [] }

  lemma ClearReturns(cfg: Settings, s: Sys)
    requires s.bar.ClearOld? && s.bar.left != []
    ensures var next := if |s.bar.left| == 1 then PlaceStop(s.bar.after) else ClearOld(s.bar.after, s.bar.left[1..]);
            Step(cfg, s, BarTick(Ack)) == s.(resting := s.resting - {s.bar.left[0]}, bar := next)
  {}

  /** The earlier orders cancelled, one by one. */
  function Cleared(cfg: Settings, s: Sys): Sys
    decreases |Old(s.bar)|
  {
    if Old(s.bar) == [] then s
    else
      ClearReturns(cfg, s);
      Cleared(cfg, Step(cfg, s, BarTick(Ack)))
  }

  lemma {:induction false} ClearingFinishes(cfg: Settings, s: Sys)
    requires s.bar.ClearOld? && s.bar.left != []
    ensures Cleared(cfg, s) == s.(resting := s.resting - IdSet(s.bar.left), bar := PlaceStop(s.bar.after))
    decreases |s.bar.left|
  {
    hide Step;
    ClearReturns(cfg, s);
    var left, s' := s.bar.left, Step(cfg, s, BarTick(Ack));
    assert left == [left[0]] + left[1..];
    assert s.resting - IdSet(left) == s.resting - {left[0]} - IdSet(left[1..]);
    if |left| > 1 { ClearingFinishes(cfg, s'); }
  }

  /** The rest of the bar task's placement, by what the exchange answers. */
  function Placed(cfg: Settings, s: Sys, stop: bool, target: bool): Sys {
    var s0 := Cleared(cfg, s);
    var s1 := if s0.bar.PlaceBegin? then Step(cfg, s0, BarTick(Ack)) else s0;
    var s2 := if s1.bar.PlaceStop? then Step(cfg, s1, BarTick(Reply(stop))) else s1;
    Step(cfg, s2, BarTick(Reply(target)))
  }

  /** The ids of the orders that placement gets accepted. */
  function NewIds(s: Sys, stop: bool, target: bool): seq<Id> {
    var first := if !s.bar.PlaceTarget? && stop then [s.nextId] else [];
    first + (if target then [s.nextId + |first|] else [])
  }

  lemma SmallIdSets(a: Id, b: Id)
    ensures IdSet([]) == {} && IdSet([a]) == {a} && IdSet([b]) == {b} && IdSet([a, b]) == {a, b}
  {}

  lemma BeginReturns(cfg: Settings, s: Sys)
    requires s.bar.PlaceBegin? && s.tracked == []
    ensures Step(cfg, s, BarTick(Ack)) == s.(bar := PlaceStop(s.bar.after))
  {}

  lemma StopReturns(cfg: Settings, s: Sys, stop: bool)
    requires s.bar.PlaceStop?
    ensures var s' := Step(cfg, s, BarTick(Reply(stop)));
            if stop then s' == Created(s).(bar := PlaceTarget(s.bar.after, [s.nextId]))
            else s' == s.(bar := PlaceTarget(s.bar.after, []))
  {}

  lemma TargetReturns(cfg: Settings, s: Sys, target: bool)
    requires s.bar.PlaceTarget?
    ensures var s' := Step(cfg, s, BarTick(Reply(target)));
            && s'.tracked == s.bar.ids + (if target then [s.nextId] else [])
            && s'.resting == s.resting + (if target then {s.nextId} else {}) && s'.flats == s.flats
            && s'.eng.book.position == s.eng.book.position && (s'.bar.Syncing? || s'.bar.Idle?)
  {
    hide Equity;
  }

  lemma PlacementFinishes(cfg: Settings, s: Sys, stop: bool, target: bool)
    requires PlacingStage(s.bar) && s.tracked == [] && (s.bar.ClearOld? ==> s.bar.left != [])
    ensures var s' := Placed(cfg, s, stop, target);
            && s'.tracked == Earlier(s.bar) + NewIds(s, stop, target)
            && s'.resting == s.resting - IdSet(Old(s.bar)) + IdSet(NewIds(s, stop, target)) && s'.flats == s.flats
            && s'.eng.book.position == s.eng.book.position && (s'.bar.Syncing? || s'.bar.Idle?)
  {
    hide Step, Reply, IdSet, Cleared;
    SmallIdSets(s.nextId, s.nextId + 1);
    assert [s.nextId] + [s.nextId + 1] == [s.nextId, s.nextId + 1];
    assert [] + [s.nextId] == [s.nextId] == [s.nextId] + [];
    if s.bar.ClearOld? { ClearingFinishes(cfg, s); } else { NothingToClear(cfg, s); }
    var s0 := Cleared(cfg, s);
    if s0.bar.PlaceBegin? { BeginReturns(cfg, s0); }
    var s1 := if s0.bar.PlaceBegin? then Step(cfg, s0, BarTick(Ack)) else s0;
    if s1.bar.PlaceStop? { StopReturns(cfg, s1, stop); }
    var s2 := if s1.bar.PlaceStop? then Step(cfg, s1, BarTick(Reply(stop))) else s1;
    TargetReturns(cfg, s2, target);
  }

  lemma NothingToClear(cfg: Settings, s: Sys)
    requires !s.bar.ClearOld?
    ensures Cleared(cfg, s) == s
  {}

  lemma OnlyTheNewRest(t: Task, more: seq<Id>)
    requires PlacingStage(t)
    ensures IdSet(Held(t)) - IdSet(Old(t)) + IdSet(more) == IdSet(Earlier(t) + more)
    ensures IdSet(Earlier(t) + more) == {} <==> Earlier(t) + more == []
  {
    var all := Earlier(t) + more;
    if all != [] { assert all[0] in IdSet(all); }
  }

  /** A flatten that fills while the bar task is placing, clearing earlier orders included, leaves the
      engine flat; when the placement ends exactly the orders it got accepted rest and are tracked, so
      something rests exactly when one was accepted. */
  lemma FlattenInsidePlacement(cfg: Settings, s: Sys, time: int, price: real, fee: real, stop: bool, target: bool)
    requires !cfg.paper && PlacingStage(s.bar) && (s.bar.ClearOld? ==> s.bar.left != [])
    requires s.tracked == [] && s.resting == IdSet(Held(s.bar))
    requires s.eng.book.position.Some? && s.eng.lastBar.Some?
    ensures var fill := Filled(time, price, s.eng.book.position.value.quantity, fee);
            var s' := Placed(cfg, Step(cfg, Step(cfg, s, FlattenStarts), FlatTick(|s.flats|, fill)), stop, target);
            var accepted := Earlier(s.bar) + NewIds(s, stop, target);
            && s'.eng.book.position.None? && s'.tracked == accepted && s'.resting == IdSet(accepted)
            && (s'.resting == {} <==> accepted == [])
  {
    hide Placed, Step;
    var fill := Filled(time, price, s.eng.book.position.value.quantity, fee);
    FlattenFills(cfg, s, fill);
    var s2 := Step(cfg, Step(cfg, s, FlattenStarts), FlatTick(|s.flats|, fill));
    PlacementFinishes(cfg, s2, stop, target);
    OnlyTheNewRest(s.bar, NewIds(s, stop, target));
  }

  /** A flatten that finds nothing tracked goes straight to its exit order. */
  lemma FlattenFills(cfg: Settings, s: Sys, fill: Outcome)
    requires !cfg.paper && s.tracked == [] && s.eng.book.position.Some? && s.eng.lastBar.Some? && fill.Filled?
    ensures var s' := Step(cfg, Step(cfg, s, FlattenStarts), FlatTick(|s.flats|, fill));
            && s'.eng.book.position.None? && s'.bar == s.bar && s'.tracked == [] && s'.resting == s.resting
            && s'.nextId == s.nextId && s'.flats == s.flats + [Recording(FromFlatten)]
  {
    hide ClosedTrade;
    var n := |s.flats|;
    var s1 := Step(cfg, s, FlattenStarts);
    assert s1.flats[n] == ExitOrdered(ExitCall(s.eng, s.eng.lastBar.value,
                                               Leave(Flattened, s.eng.lastBar.value.close), FromFlatten));
  }

  lemma FlattenOrders(cfg: Settings, s: Sys)
    requires !cfg.paper && s.tracked == [] && s.eng.book.position.Some? && s.eng.lastBar.Some?
    ensures var s', n := Step(cfg, s, FlattenStarts), |s.flats|;
            && s' == s.(eng := s.eng.(halted := true), flats := s'.flats) && |s'.flats| == n + 1
            && s'.flats[n] == ExitOrdered(ExitCall(s.eng, s.eng.lastBar.value,
                                                   Leave(Flattened, s.eng.lastBar.value.close), FromFlatten))
  {}

  lemma OrderedFills(cfg: Settings, s: Sys, k: nat, fill: Outcome)
    requires k < |s.flats| && s.flats[k].ExitOrdered? && s.eng.book.position.Some? && fill.Filled?
    ensures var s' := Step(cfg, s, FlatTick(k, fill));
            s'.eng.book.position.None? && s'.tracked == s.tracked && s'.resting == s.resting
  {
    hide ClosedTrade;
  }

  /** A flatten that orders its exit inside a placement and fills after it has ended finds no task placing
      any more, and still leaves exactly the accepted orders resting and tracked while flat. */
  lemma FlattenAcrossPlacement(cfg: Settings, s: Sys, fill: Outcome, stop: bool, target: bool)
    requires !cfg.paper && PlacingStage(s.bar) && (s.bar.ClearOld? ==> s.bar.left != [])
    requires s.tracked == [] && s.resting == IdSet(Held(s.bar))
    requires s.eng.book.position.Some? && s.eng.lastBar.Some? && fill.Filled?
    ensures var placed := Placed(cfg, Step(cfg, s, FlattenStarts), stop, target);
            var s' := Step(cfg, placed, FlatTick(|s.flats|, fill));
            var accepted := Earlier(s.bar) + NewIds(s, stop, target);
            && (placed.bar.Syncing? || placed.bar.Idle?) && placed.eng.book.position.Some?
            && s'.eng.book.position.None? && s'.tracked == accepted && s'.resting == IdSet(accepted)
            && (s'.resting == {} <==> accepted == [])
  {
    hide Placed, Step;
    FlattenOrders(cfg, s);
    var s1 := Step(cfg, s, FlattenStarts);
    PlacementFinishes(cfg, s1, stop, target);
    OrderedFills(cfg, Placed(cfg, s1, stop, target), |s.flats|, fill);
    OnlyTheNewRest(s.bar, NewIds(s, stop, target));
  }

  lemma OnlyInHand(s: Sys)
    requires Owned(s) == multiset(Held(s.bar))
    ensures s.tracked == [] && Hands(s.flats) == multiset{}
  {
    hide Held, Hands;
    var t, h, f := multiset(s.tracked), multiset(Held(s.bar)), Hands(s.flats);
    assert |t + h + f| == |t| + |h| + |f|;
  }

  /** Killing the bar task with ids in hand orphans their orders: after the next flatten the engine is
      flat, exactly they rest, and nobody keeps an id. */
  lemma KilledHolderOrphans(cfg: Settings, es: seq<Event>, fill: Outcome)
    requires !cfg.paper && HonestRun(cfg, es) && NoNativeFills(es) && fill.Filled?
    requires var s := Reached(cfg, es);
             && Held(s.bar) != [] && Owned(s) == multiset(Held(s.bar))
             && s.eng.book.position.Some? && s.eng.lastBar.Some?
    ensures var s := Reached(cfg, es);
            var s' := Step(cfg, Step(cfg, Step(cfg, s, BarDies), FlattenStarts), FlatTick(|s.flats|, fill));
            && s'.eng.book.position.None? && s'.resting == IdSet(Held(s.bar)) != {} && Owned(s') == multiset{}
  {
    hide Hands, Step, Held;
    var s := Reached(cfg, es);
    NoOrderIsForgotten(cfg, es);
    OnlyInHand(s);
    assert Held(s.bar)[0] in IdSet(Held(s.bar));
    BarDeath(cfg, s);
    FlattenFills(cfg, s.(bar := Dead), fill);
    HandsAppend(s.flats, Recording(FromFlatten));
    NothingHeld();
    RecordingHoldsNothing();
  }

  lemma BarDeath(cfg: Settings, s: Sys)
    ensures Step(cfg, s, BarDies) == s.(bar := Dead)
  {}

  lemma RecordingHoldsNothing()
    ensures Held(Recording(FromFlatten)) == []
  {}
}
