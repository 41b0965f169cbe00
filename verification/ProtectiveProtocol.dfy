/** Native protective orders over every schedule of the live engine: where each resting order's id is
    kept, and exactly when none is left resting while the engine is flat. */
module ProtectiveProtocol {
  import opened Types
  import opened PortfolioModel
  import opened LiveEngine
  import opened LiveTasks
  import opened LiveSafety
  import opened ExitOwnership

  // ---------------------------------------------------------------- who keeps the ids

  /** The ids a task has in hand: those it has still to cancel, or has still to track. */
  function Held(t: Task): seq<Id> {
    match t
    case CancelOld(_, left) => left
    case ClearOld(_, left) => left
    case PlaceTarget(_, ids) => ids
    case _ => []
  }

  function Hands(ts: seq<Task>): multiset<Id> {
    if ts == [] then multiset{} else Hands(ts[..|ts| - 1]) + multiset(Held(ts[|ts| - 1]))
  }

  /** Every id the process still knows: tracked by the handler, or in some task's hands. */
  function Owned(s: Sys): multiset<Id> {
    multiset(s.tracked) + multiset(Held(s.bar)) + Hands(s.flats)
  }

  lemma HandsAppend(ts: seq<Task>, t: Task)
    ensures Hands(ts + [t]) == Hands(ts) + multiset(Held(t))
  {
    assert (ts + [t])[..|ts|] == ts;
  }

  lemma Shuffled(a: multiset<Id>, b: multiset<Id>, x: multiset<Id>, y: multiset<Id>, h: multiset<Id>)
    requires a + x == b + y
    ensures (a + h) + x == (b + h) + y
  {
    assert (a + h) + x == (a + x) + h;
  }

  lemma {:induction false} HandsUpdate(ts: seq<Task>, k: nat, t: Task)
    requires k < |ts|
    ensures Hands(ts[k := t]) + multiset(Held(ts[k])) == Hands(ts) + multiset(Held(t))
  {
    hide Held;
    var n := |ts| - 1;
    if k < n {
      HandsUpdate(ts[..n], k, t);
      assert ts[k := t][..n] == ts[..n][k := t];
      Shuffled(Hands(ts[..n][k := t]), Hands(ts[..n]), multiset(Held(ts[k])), multiset(Held(t)), multiset(Held(ts[n])));
    } else {
      assert ts[k := t][..n] == ts[..n];
    }
  }

  lemma {:induction false} InHands(ts: seq<Task>, k: nat)
    requires k < |ts|
    ensures multiset(Held(ts[k])) <= Hands(ts)
  {
    hide Held;
    var n := |ts| - 1;
    if k < n { InHands(ts[..n], k); }
  }

  // ---------------------------------------------------------------- what a step does to them

  datatype Effect = Nothing | Dropped(id: Id) | Accepted

  /** A returning cancel drops its id; an acknowledged create accepts the next one. */
  function TickEffect(t: Task, out: Outcome): Effect {
    if (t.CancelOld? || t.ClearOld?) && t.left != [] && (out.Ack? || out.Failed?) then Dropped(t.left[0])
    else if (t.PlaceStop? || t.PlaceTarget?) && out.Ack? then Accepted
    else Nothing
  }

  function EffectOf(s: Sys, ev: Event): Effect {
    match ev
    case BarTick(out) => TickEffect(s.bar, out)
    case FlatTick(k, out) => if k < |s.flats| then TickEffect(s.flats[k], out) else Nothing
    case _ => Nothing
  }

  function OwnedAfter(m: multiset<Id>, e: Effect, next: Id): multiset<Id> {
    match e
    case Nothing => m
    case Dropped(id) => m - multiset{id}
    case Accepted => m + multiset{next}
  }

  function RestingAfter(r: set<Id>, e: Effect, next: Id): set<Id> {
    match e
    case Nothing => r
    case Dropped(id) => r - {id}
    case Accepted => r + {next}
  }

  function NextAfter(e: Effect, next: Id): Id { if e.Accepted? then next + 1 else next }

  /** A failed cancel means the order was already gone. */
  predicate CancelSucceeds(s: Sys, t: Task, out: Outcome) {
    (t.CancelOld? || t.ClearOld?) && t.left != [] && out.Failed? ==> t.left[0] !in s.resting
  }

  /** Failed cancels find nothing to cancel, and no task is killed with ids in its hands. */
  predicate Honest(s: Sys, ev: Event) {
    match ev
    case BarTick(out) => CancelSucceeds(s, s.bar, out)
    case FlatTick(k, out) => k < |s.flats| ==> CancelSucceeds(s, s.flats[k], out)
    case BarDies => Held(s.bar) == []
    case FlatDies(k) => k < |s.flats| ==> Held(s.flats[k]) == []
    case _ => true
  }

  ghost predicate HonestRun(cfg: Settings, es: seq<Event>) {
    forall n :: 0 <= n < |es| ==> Honest(Reached(cfg, es[..n]), es[n])
  }

  predicate NoNativeFills(es: seq<Event>) {
    forall n :: 0 <= n < |es| ==> !es[n].NativeFills?
  }

  /** While a placement is past its clearing, nothing is tracked. */
  predicate PlacingUntracked(s: Sys) {
    Placing(s.bar) ==> s.tracked == []
  }

  /** The ids as the handler and one task keep them. */
  function Mine(s: Sys, t: Task): multiset<Id> { multiset(s.tracked) + multiset(Held(t)) }

  predicate Placing(t: Task) { t.ClearOld? || t.PlaceStop? || t.PlaceTarget? }

  /** A segment of task `t` did to the ids what its effect says. */
  predicate TaskMoved(s: Sys, t: Task, s': Sys, t': Task, e: Effect) {
    && Mine(s', t') == OwnedAfter(Mine(s, t), e, s.nextId)
    && s'.resting == RestingAfter(s.resting, e, s.nextId) && s'.nextId == NextAfter(e, s.nextId)
    && (Placing(t') ==> s'.tracked == [])
  }

  /** A step did to the ids what its effect says. */
  predicate Moved(s: Sys, s': Sys, e: Effect) {
    && Owned(s') == OwnedAfter(Owned(s), e, s.nextId)
    && s'.resting == RestingAfter(s.resting, e, s.nextId) && s'.nextId == NextAfter(e, s.nextId)
    && PlacingUntracked(s')
  }

  lemma BeginExitMoves(cfg: Settings, s: Sys, call: Call)
    ensures var (s', t') := BeginExit(cfg, s, call);
            && s'.tracked + Held(t') == s.tracked && !Placing(t') && !t'.PlaceBegin? && s'.bar == s.bar
            && s'.flats == s.flats
            && s'.resting == s.resting && s'.nextId == s.nextId && (s.tracked == [] ==> s'.tracked == [])
  {
    hide PaperExit;
  }

  lemma ActedMoves(cfg: Settings, s: Sys, bar: Bar, signal: Option<Signal>, atr: real)
    ensures var (s', t') := Acted(cfg, s, bar, signal, atr);
            && s'.tracked + Held(t') == s.tracked && !Placing(t') && !t'.PlaceBegin?
            && s'.resting == s.resting && s'.nextId == s.nextId
  {
    hide BeginExit, Decide, PaperEntry, BarMarked;
    var d := Decide(cfg, s.eng, bar, signal, atr);
    if d.Exit? && s.eng.book.position.Some? {
      BeginExitMoves(cfg, s, ExitCall(s.eng, bar, d.leave, FromSignal(bar)));
    }
  }

  lemma CancelTick(cfg: Settings, s: Sys, t: Task, out: Outcome)
    requires (t.CancelOld? || t.ClearOld?) && t.left != []
    requires out.Ack? || (out.Failed? && t.left[0] !in s.resting)
    ensures var (s', t') := Tick(cfg, s, t, out);
            && Held(t) == t.left && Held(t') == t.left[1..]
            && s'.tracked == s.tracked && s'.resting == s.resting - {t.left[0]} && s'.nextId == s.nextId
            && (Placing(t') ==> t.ClearOld?)
  {}

  lemma Dropping(tracked: multiset<Id>, left: seq<Id>)
    requires left != []
    ensures tracked + multiset(left[1..]) == tracked + multiset(left) - multiset{left[0]}
  {
    assert left == [left[0]] + left[1..];
    assert multiset(left) == multiset{left[0]} + multiset(left[1..]);
  }

  lemma CancelMoves(cfg: Settings, s: Sys, t: Task, out: Outcome)
    requires (t.CancelOld? || t.ClearOld?) && t.left != [] && (t.ClearOld? ==> s.tracked == [])
    requires out.Ack? || (out.Failed? && t.left[0] !in s.resting)
    ensures var (s', t') := Tick(cfg, s, t, out); TaskMoved(s, t, s', t', Dropped(t.left[0]))
  {
    hide Tick, Held, Placing;
    CancelTick(cfg, s, t, out);
    Dropping(multiset(s.tracked), t.left);
  }

  lemma PlaceTick(cfg: Settings, s: Sys, t: Task, out: Outcome)
    requires (t.PlaceBegin? || t.PlaceStop? || t.PlaceTarget?) && (t.PlaceBegin? || s.tracked == [])
    ensures var (s', t') := Tick(cfg, s, t, out);
            && s'.tracked + Held(t') == s.tracked + Held(t) + (if TickEffect(t, out).Accepted? then [s.nextId] else [])
            && s'.resting == RestingAfter(s.resting, TickEffect(t, out), s.nextId)
            && s'.nextId == NextAfter(TickEffect(t, out), s.nextId) && !TickEffect(t, out).Dropped?
            && (Placing(t') ==> s'.tracked == [])
  {
    hide BarMarked;
  }

  lemma PlaceMoves(cfg: Settings, s: Sys, t: Task, out: Outcome)
    requires (t.PlaceBegin? || t.PlaceStop? || t.PlaceTarget?) && (t.PlaceBegin? || s.tracked == [])
    ensures var (s', t') := Tick(cfg, s, t, out); TaskMoved(s, t, s', t', TickEffect(t, out))
  {
    hide Tick, Held, TickEffect;
    PlaceTick(cfg, s, t, out);
    Together(s, t);
    Together(Tick(cfg, s, t, out).0, Tick(cfg, s, t, out).1);
  }

  lemma Together(s: Sys, t: Task)
    ensures Mine(s, t) == multiset(s.tracked + Held(t))
  {}

  /** A segment that neither cancels nor creates. */
  lemma OtherTick(cfg: Settings, s: Sys, t: Task, out: Outcome)
    requires !t.CancelOld? && !t.ClearOld? && !t.PlaceBegin? && !t.PlaceStop? && !t.PlaceTarget?
    ensures var (s', t') := Tick(cfg, s, t, out);
            && s'.tracked + Held(t') == s.tracked && !Placing(t') && s'.resting == s.resting && s'.nextId == s.nextId
  {
    hide Acted, ExitBooked, EntryBooked, BarMarked, ExchangeFill;
    if t.Observing? && out.Observed? { ActedMoves(cfg, s, t.bar, out.signal, out.atr); }
  }

  lemma OtherMoves(cfg: Settings, s: Sys, t: Task, out: Outcome)
    requires !t.CancelOld? && !t.ClearOld? && !t.PlaceBegin? && !t.PlaceStop? && !t.PlaceTarget?
    ensures var (s', t') := Tick(cfg, s, t, out); TaskMoved(s, t, s', t', Nothing)
  {
    hide Tick;
    OtherTick(cfg, s, t, out);
    Together(s, t);
    Together(Tick(cfg, s, t, out).0, Tick(cfg, s, t, out).1);
    assert s.tracked + [] == s.tracked;
  }

  lemma UnmovedTick(cfg: Settings, s: Sys, t: Task, out: Outcome)
    requires (t.CancelOld? || t.ClearOld?) && (t.left == [] || !(out.Ack? || out.Failed?))
    requires t.ClearOld? ==> s.tracked == []
    ensures var (s', t') := Tick(cfg, s, t, out); TaskMoved(s, t, s', t', Nothing)
  {
    assert Tick(cfg, s, t, out) == (s, t);
  }

  /** What one tick does to the ids, as its own task and the handler keep them. */
  lemma TickMoves(cfg: Settings, s: Sys, t: Task, out: Outcome)
    requires Placing(t) ==> s.tracked == []
    requires CancelSucceeds(s, t, out)
    ensures var (s', t') := Tick(cfg, s, t, out); TaskMoved(s, t, s', t', TickEffect(t, out))
  {
    hide Tick, TaskMoved;
    if t.PlaceBegin? || t.PlaceStop? || t.PlaceTarget? {
      PlaceMoves(cfg, s, t, out);
    } else if !t.CancelOld? && !t.ClearOld? {
      OtherMoves(cfg, s, t, out);
    } else if t.left != [] && (out.Ack? || out.Failed?) {
      CancelMoves(cfg, s, t, out);
    } else {
      UnmovedTick(cfg, s, t, out);
    }
  }

  lemma BarOwned(s: Sys)
    ensures Owned(s) == Mine(s, s.bar) + Hands(s.flats)
  {}

  lemma ArrivalMoves(cfg: Settings, s: Sys, bar: Bar)
    requires s.bar == Idle
    ensures Moved(s, OnArrival(cfg, s, bar), Nothing)
  {
    hide Tick, Hands, Mine, OnArrival;
    var s' := OnArrival(cfg, s, bar);
    ArrivalTyped(cfg, s, bar);
    ArrivalTracks(cfg, s, bar);
    Together(s, s.bar);
    Together(s', s'.bar);
    BarOwned(s);
    BarOwned(s');
    assert s.tracked + [] == s.tracked;
  }

  lemma ArrivalTracks(cfg: Settings, s: Sys, bar: Bar)
    requires s.bar == Idle
    ensures var s' := OnArrival(cfg, s, bar);
            && s'.tracked + Held(s'.bar) == s.tracked && !Placing(s'.bar)
            && s'.resting == s.resting && s'.nextId == s.nextId
  {
    hide BeginExit, BarrierExit, Excursion;
    var s1 := s.(eng := Arrived(s.eng, bar), clock := s.clock + 1);
    if ArrivalExit(s.eng, bar).Some? {
      BeginExitMoves(cfg, s1, ExitCall(s1.eng, bar, ArrivalExit(s.eng, bar).value, FromBarrier(bar)));
    }
  }

  lemma Spread(tracked: seq<Id>, rest: seq<Id>, held: seq<Id>, bar: multiset<Id>, hands: multiset<Id>)
    requires rest + held == tracked
    ensures multiset(rest) + bar + (hands + multiset(held)) == multiset(tracked) + bar + hands
  {}

  lemma FlattenMoves(cfg: Settings, s: Sys)
    requires PlacingUntracked(s)
    ensures Moved(s, OnFlatten(cfg, s), Nothing)
  {
    hide BeginExit, Hands;
    var s1 := s.(eng := s.eng.(halted := true));
    if FlattenExit(s.eng).Some? {
      var call := ExitCall(s.eng, s.eng.lastBar.value, FlattenExit(s.eng).value, FromFlatten);
      var (s2, t) := BeginExit(cfg, s1, call);
      BeginExitMoves(cfg, s1, call);
      HandsAppend(s.flats, t);
      Spread(s.tracked, s2.tracked, Held(t), multiset(Held(s.bar)), Hands(s.flats));
    } else {
      HandsAppend(s.flats, Done);
    }
  }

  /** What moves ids between the handler and one task moves them for the whole system. */
  lemma BarAdds(m: multiset<Id>, m': multiset<Id>, hands: multiset<Id>, e: Effect, next: Id)
    requires m' == OwnedAfter(m, e, next) && (e.Dropped? ==> e.id in m)
    ensures m' + hands == OwnedAfter(m + hands, e, next)
  {}

  lemma FlatAdds(t: multiset<Id>, t': multiset<Id>, h: multiset<Id>, h': multiset<Id>, bar: multiset<Id>,
                 hands: multiset<Id>, hands': multiset<Id>, e: Effect, next: Id)
    requires t' + h' == OwnedAfter(t + h, e, next) && (e.Dropped? ==> e.id in h)
    requires hands' + h == hands + h' && h <= hands
    ensures t' + bar + hands' == OwnedAfter(t + bar + hands, e, next)
  {
    forall id: Id ensures (t' + bar + hands')[id] == OwnedAfter(t + bar + hands, e, next)[id] {
      assert (t' + h')[id] == OwnedAfter(t + h, e, next)[id];
      assert (hands' + h)[id] == (hands + h')[id] && h[id] <= hands[id];
    }
    assert t' + bar + hands' == OwnedAfter(t + bar + hands, e, next);
  }

  lemma DroppedIsHeld(t: Task, out: Outcome)
    ensures TickEffect(t, out).Dropped? ==> TickEffect(t, out).id in multiset(Held(t))
  {}

  lemma BarTickMoves(cfg: Settings, s: Sys, out: Outcome)
    requires Typed(s) && PlacingUntracked(s) && CancelSucceeds(s, s.bar, out)
    ensures Moved(s, Step(cfg, s, BarTick(out)), TickEffect(s.bar, out))
  {
    hide Tick, BarTask, FlatTask, Hands, Held, OwnedAfter, TickEffect, Mine;
    var (s', t') := Tick(cfg, s, s.bar, out);
    TickMoves(cfg, s, s.bar, out);
    BarTickTyped(cfg, s, out);
    DroppedIsHeld(s.bar, out);
    InMine(s, s.bar);
    BarOwned(s);
    BarOwned(s'.(bar := t'));
    SameMine(s', s'.(bar := t'), t');
    BarAdds(Mine(s, s.bar), Mine(s', t'), Hands(s.flats), TickEffect(s.bar, out), s.nextId);
  }

  lemma SameMine(s: Sys, s': Sys, t: Task)
    requires s.tracked == s'.tracked
    ensures Mine(s, t) == Mine(s', t)
  {}

  lemma InMine(s: Sys, t: Task)
    ensures forall id :: id in multiset(Held(t)) ==> id in Mine(s, t)
  {}

  lemma FlatTickMoves(cfg: Settings, s: Sys, k: nat, out: Outcome)
    requires Typed(s) && PlacingUntracked(s) && k < |s.flats| && CancelSucceeds(s, s.flats[k], out)
    ensures Moved(s, Step(cfg, s, FlatTick(k, out)), TickEffect(s.flats[k], out))
  {
    hide Tick, BarTask, Hands, Held, OwnedAfter, TickEffect;
    var t := s.flats[k];
    var (s', t') := Tick(cfg, s, t, out);
    NeverPlaces(t);
    TickMoves(cfg, s, t, out);
    FlatTickTyped(cfg, s, t, out);
    HandsUpdate(s.flats, k, t');
    InHands(s.flats, k);
    FlatTickLeavesTracked(cfg, s, t, out);
    DroppedIsHeld(t, out);
    FlatAdds(multiset(s.tracked), multiset(s'.tracked), multiset(Held(t)), multiset(Held(t')), multiset(Held(s.bar)),
             Hands(s.flats), Hands(s.flats[k := t']), TickEffect(t, out), s.nextId);
  }

  lemma NeverPlaces(t: Task)
    requires FlatTask(t)
    ensures !Placing(t)
  {}

  lemma FlatTickLeavesTracked(cfg: Settings, s: Sys, t: Task, out: Outcome)
    requires FlatTask(t)
    ensures Tick(cfg, s, t, out).0.tracked == s.tracked
  {
    hide ExitBooked, BarMarked, ExchangeFill, TradesNoted;
  }

  lemma DeathMoves(s: Sys, k: nat)
    requires k < |s.flats| && Held(s.flats[k]) == [] && PlacingUntracked(s)
    ensures Moved(s, s.(flats := s.flats[k := Dead]), Nothing)
  {
    hide Hands;
    HandsUpdate(s.flats, k, Dead);
    assert Hands(s.flats) + multiset{} == Hands(s.flats);
    assert Hands(s.flats[k := Dead]) + multiset{} == Hands(s.flats[k := Dead]);
  }

  /** Every step that is not a native fill moves ids exactly as its effect says. */
  lemma StepMoves(cfg: Settings, s: Sys, ev: Event)
    requires Typed(s) && PlacingUntracked(s) && Honest(s, ev) && !ev.NativeFills?
    ensures Moved(s, Step(cfg, s, ev), EffectOf(s, ev))
  {
    hide Tick, OnArrival, OnFlatten, TickEffect, BarTask, FlatTask, Moved, Typed, PlacingUntracked;
    match ev {
      case BarTick(out) => BarTickMoves(cfg, s, out);
      case FlatTick(k, out) => if k < |s.flats| { FlatTickMoves(cfg, s, k, out); } else { Still(s); }
      case BarArrives(bar) =>
        if s.bar == Idle && (s.eng.lastBar.None? || s.eng.lastBar.value.time < bar.time) {
          ArrivalMoves(cfg, s, bar);
        } else {
          Still(s);
        }
      case FlattenStarts => FlattenMoves(cfg, s);
      case FlatDies(k) => if k < |s.flats| { DeathMoves(s, k); } else { Still(s); }
      case _ => SmallStep(cfg, s, ev);
    }
  }

  lemma Still(s: Sys)
    requires PlacingUntracked(s)
    ensures Moved(s, s, Nothing)
  {}

  lemma SmallStepTracks(cfg: Settings, s: Sys, ev: Event)
    requires Honest(s, ev) && (ev.Adopt? || ev.Begin? || ev.Resumed? || ev.Halted? || ev.BarDies?)
    ensures var s' := Step(cfg, s, ev);
            && s'.tracked == s.tracked && Held(s'.bar) == Held(s.bar) && s'.flats == s.flats
            && s'.resting == s.resting && s'.nextId == s.nextId && (Placing(s'.bar) ==> Placing(s.bar))
  {
    hide EntryBooked, AdoptedOrder;
  }

  lemma SmallStep(cfg: Settings, s: Sys, ev: Event)
    requires PlacingUntracked(s) && Honest(s, ev)
    requires ev.Adopt? || ev.Begin? || ev.Resumed? || ev.Halted? || ev.BarDies?
    ensures Moved(s, Step(cfg, s, ev), Nothing)
  {
    hide Step, Hands, Held, Placing, Honest;
    SmallStepTracks(cfg, s, ev);
  }

  // ---------------------------------------------------------------- no order is forgotten

  /** Ids are kept once each and are older than the next one, and every resting order's id is kept. */
  ghost predicate Kept(s: Sys) {
    && Typed(s) && PlacingUntracked(s)
    && (forall id :: id in Owned(s) ==> Owned(s)[id] == 1 && id < s.nextId)
    && (forall id :: id in s.resting ==> id in Owned(s))
  }

  /** The other half, while no native order fires: every kept id is resting. */
  ghost predicate AllRest(s: Sys) {
    forall id :: id in Owned(s) ==> id in s.resting
  }

  lemma StartKept(cfg: Settings)
    ensures Kept(InitialSys(cfg)) && AllRest(InitialSys(cfg)) && Owned(InitialSys(cfg)) == multiset{}
  {}

  lemma MovedKept(s: Sys, s': Sys, e: Effect)
    requires Kept(s) && Typed(s') && Moved(s, s', e)
    ensures Kept(s') && (AllRest(s) ==> AllRest(s'))
  {
    hide Owned, Typed;
    match e {
      case Nothing =>
      case Dropped(id) =>
        forall x | x in Owned(s') ensures Owned(s)[x] == 1 == Owned(s')[x] && x != id { assert x in Owned(s); }
        assert forall x :: x in s'.resting ==> x in Owned(s) && x != id;
      case Accepted =>
    }
  }

  lemma NativeFillKept(cfg: Settings, s: Sys, id: Id)
    requires Kept(s)
    ensures Kept(Step(cfg, s, NativeFills(id))) && Owned(Step(cfg, s, NativeFills(id))) == Owned(s)
  {
    hide Hands;
    StepTyped(cfg, s, NativeFills(id));
    var s' := Step(cfg, s, NativeFills(id));
    assert s' == s.(resting := s.resting - {id});
    assert Owned(s') == Owned(s);
  }

  lemma StepKept(cfg: Settings, s: Sys, ev: Event)
    requires Kept(s) && Honest(s, ev)
    ensures Kept(Step(cfg, s, ev))
    ensures AllRest(s) && !ev.NativeFills? ==> AllRest(Step(cfg, s, ev))
  {
    hide Step, Typed, Honest, EffectOf, PlacingUntracked, Moved, AllRest, Owned;
    if ev.NativeFills? {
      NativeFillKept(cfg, s, ev.id);
    } else {
      StepTyped(cfg, s, ev);
      StepMoves(cfg, s, ev);
      MovedKept(s, Step(cfg, s, ev), EffectOf(s, ev));
    }
  }

  /** Conservation of protective orders: on every schedule in which a failed cancel finds nothing to
      cancel and no task is killed with ids in hand, every resting order is tracked or in exactly
      one task's hands, ready to be cancelled or tracked. Without native fills those are all of them. */
  lemma {:induction false} NoOrderIsForgotten(cfg: Settings, es: seq<Event>)
    requires HonestRun(cfg, es)
    ensures Kept(Reached(cfg, es))
    ensures NoNativeFills(es) ==> AllRest(Reached(cfg, es))
  {
    hide Step, Honest, Kept, AllRest;
    if es == [] {
      StartKept(cfg);
    } else {
      var n := |es| - 1;
      HonestPrefix(cfg, es, n);
      NoOrderIsForgotten(cfg, es[..n]);
      assert es[..n + 1] == es;
      StepKept(cfg, Reached(cfg, es[..n]), es[n]);
    }
  }

  lemma HonestPrefix(cfg: Settings, es: seq<Event>, n: nat)
    requires HonestRun(cfg, es) && n <= |es|
    ensures HonestRun(cfg, es[..n])
  {
    assert forall m :: 0 <= m <= n ==> es[..n][..m] == es[..m];
  }

  /** Every resting order's id is kept somewhere. */
  ghost predicate AllOwned(s: Sys) {
    forall id :: id in s.resting ==> id in Owned(s)
  }

  /** An id held once is lost with a task that no longer holds it. */
  lemma BarLoses(s: Sys, t': Task, id: Id)
    requires multiset(Held(t')) + multiset{id} <= multiset(Held(s.bar)) && Owned(s)[id] == 1
    ensures id !in Owned(s.(bar := t'))
  {
    hide Held, Hands;
    assert (multiset(Held(t')) + multiset{id})[id] <= multiset(Held(s.bar))[id];
  }

  lemma FlatLoses(s: Sys, k: nat, t': Task, id: Id)
    requires k < |s.flats| && multiset(Held(t')) + multiset{id} <= multiset(Held(s.flats[k])) && Owned(s)[id] == 1
    ensures id !in Owned(s.(flats := s.flats[k := t']))
  {
    hide Held, Hands;
    HandsUpdate(s.flats, k, t');
    var after, before := Hands(s.flats[k := t']), Hands(s.flats);
    assert (after + multiset(Held(s.flats[k])))[id] == (before + multiset(Held(t')))[id];
    assert (multiset(Held(t')) + multiset{id})[id] <= multiset(Held(s.flats[k]))[id];
  }

  lemma FailedCancel(cfg: Settings, s: Sys, t: Task)
    requires (t.CancelOld? || t.ClearOld?) && t.left != []
    ensures Tick(cfg, s, t, Failed).0 == s
    ensures multiset(Held(Tick(cfg, s, t, Failed).1)) + multiset{t.left[0]} <= multiset(Held(t))
  {
    FirstAndRest(t.left);
  }

  lemma FirstAndRest(left: seq<Id>)
    requires left != []
    ensures multiset(left[1..]) + multiset{left[0]} == multiset(left)
    ensures |left| == 1 ==> multiset{left[0]} == multiset(left)
  {
    assert left == [left[0]] + left[1..];
  }

  lemma DyingDrops(t: Task)
    requires Held(t) != []
    ensures multiset(Held(Dead)) + multiset{Held(t)[0]} <= multiset(Held(t))
  {
    hide Held;
    assert Held(t)[0] in multiset(Held(t));
    NothingHeld();
  }

  lemma NothingHeld()
    ensures Held(Dead) == []
  {}

  /** A failed cancel of a resting order, and the death of a task with ids in hand, forget an order. */
  lemma DishonestyForgets(cfg: Settings, s: Sys, ev: Event)
    requires Kept(s) && AllRest(s) && !Honest(s, ev)
    ensures !AllOwned(Step(cfg, s, ev))
  {
    hide Tick, Owned, Held, OnArrival, OnFlatten;
    match ev {
      case BarTick(out) =>
        var id := s.bar.left[0];
        FailedCancel(cfg, s, s.bar);
        BarLoses(s, Tick(cfg, s, s.bar, out).1, id);
      case FlatTick(k, out) =>
        var id := s.flats[k].left[0];
        FailedCancel(cfg, s, s.flats[k]);
        FlatLoses(s, k, Tick(cfg, s, s.flats[k], out).1, id);
      case BarDies =>
        DyingDrops(s.bar);
        HeldIsOwned(s, s.bar);
        BarLoses(s, Dead, Held(s.bar)[0]);
      case FlatDies(k) =>
        DyingDrops(s.flats[k]);
        HeldIsOwned(s, s.flats[k]);
        FlatLoses(s, k, Dead, Held(s.flats[k])[0]);
    }
  }

  lemma HeldIsOwned(s: Sys, t: Task)
    requires t == s.bar || t in s.flats
    ensures forall id :: id in Held(t) ==> id in Owned(s)
  {
    hide Held;
    if t in s.flats {
      var k :| 0 <= k < |s.flats| && s.flats[k] == t;
      InHands(s.flats, k);
    }
  }

  /** On schedules in which no native order fires that is exact: no resting order is ever forgotten if
      and only if no cancel of a resting order fails and no task is killed with ids in hand. */
  lemma NoOrderIsForgottenExactly(cfg: Settings, es: seq<Event>)
    requires NoNativeFills(es)
    ensures HonestRun(cfg, es) <==> forall n :: 0 <= n <= |es| ==> AllOwned(Reached(cfg, es[..n]))
  {
    hide Step, Honest, Reached, AllRest, Owned;
    if HonestRun(cfg, es) {
      forall n | 0 <= n <= |es| ensures AllOwned(Reached(cfg, es[..n])) {
        HonestPrefix(cfg, es, n);
        NoOrderIsForgotten(cfg, es[..n]);
      }
    }
    if forall n :: 0 <= n <= |es| ==> AllOwned(Reached(cfg, es[..n])) {
      assert es[..|es|] == es;
      OwnedIsHonest(cfg, es, |es|);
    }
  }

  lemma {:induction false} OwnedIsHonest(cfg: Settings, es: seq<Event>, n: nat)
    requires n <= |es| && NoNativeFills(es)
    requires forall m :: 0 <= m <= |es| ==> AllOwned(Reached(cfg, es[..m]))
    ensures HonestRun(cfg, es[..n])
  {
    hide Step, Honest, Reached, AllRest, AllOwned, Kept;
    if n > 0 {
      OwnedIsHonest(cfg, es, n - 1);
      NoOrderIsForgotten(cfg, es[..n - 1]);
      ReachedNext(cfg, es, n - 1);
      assert AllOwned(Reached(cfg, es[..n]));
      if !Honest(Reached(cfg, es[..n - 1]), es[n - 1]) {
        DishonestyForgets(cfg, Reached(cfg, es[..n - 1]), es[n - 1]);
      }
      forall m | 0 <= m < n ensures Honest(Reached(cfg, es[..n][..m]), es[..n][m]) {
        assert es[..n][..m] == es[..m];
        if m < n - 1 { assert es[..n - 1][..m] == es[..m] && es[..n - 1][m] == es[m]; }
      }
    }
  }

  // ---------------------------------------------------------------- nothing rests while flat

  /** What whoever closes the position or creates a native order must see: at the close no id is kept
      anywhere, and an order is accepted only for an open position. */
  predicate Guarded(cfg: Settings, s: Sys, ev: Event) {
    && (Books(cfg, s, ev) ==> Owned(s) == multiset{})
    && (EffectOf(s, ev).Accepted? ==> s.eng.book.position.Some?)
  }

  ghost predicate GuardedRun(cfg: Settings, es: seq<Event>) {
    forall n :: 0 <= n < |es| ==> Guarded(cfg, Reached(cfg, es[..n]), es[n])
  }

  /** No id is kept while flat, and a placement adds its stop and its target to none. */
  predicate Bounded(s: Sys) {
    && (s.eng.book.position.None? ==> Owned(s) == multiset{})
    && (s.bar.PlaceBegin? || s.bar.PlaceStop? ==> Owned(s) == multiset{})
    && (s.bar.PlaceTarget? ==> |Owned(s)| <= 1)
    && !s.bar.ClearOld? && |Owned(s)| <= 2
  }

  /** The stages of a placement follow one another, and each create is answered once. */
  lemma PlacementOrder(cfg: Settings, s: Sys, out: Outcome)
    ensures var (s', t') := Tick(cfg, s, s.bar, out);
            && (t'.PlaceBegin? ==> s.bar.PlaceBegin? || (s.bar.EntryOrdered? && s'.eng.book.position.Some?))
            && (t'.ClearOld? ==> s.bar.ClearOld? || (s.bar.PlaceBegin? && s.tracked != []))
            && (t'.PlaceStop? ==>
                  s.bar.PlaceBegin? || s.bar.ClearOld? || (s.bar.PlaceStop? && !TickEffect(s.bar, out).Accepted?))
            && (t'.PlaceTarget? ==> s.bar.PlaceStop? || (s.bar.PlaceTarget? && !TickEffect(s.bar, out).Accepted?))
            && (TickEffect(s.bar, out).Accepted? ==>
                  (s.bar.PlaceStop? || s.bar.PlaceTarget?) && s'.eng.book.position == s.eng.book.position)
  {
    hide Acted, ExitBooked, ExchangeFill, TradesNoted, Equity, OpenedPosition;
    if s.bar.Observing? && out.Observed? { ActedMoves(cfg, s, s.bar.bar, out.signal, out.atr); }
  }

  lemma OtherEvents(cfg: Settings, s: Sys, ev: Event)
    requires Typed(s) && !ev.BarTick?
    ensures var s' := Step(cfg, s, ev);
            && (Placing(s'.bar) || s'.bar.PlaceBegin? ==>
                  s'.bar == s.bar || (s'.bar.PlaceBegin? && s.bar.Start? && s'.eng.book.position.Some?))
            && !EffectOf(s, ev).Accepted?
  {
    hide BeginExit, OpenedPosition, Tick, BarrierExit, Excursion;
    match ev {
      case FlatTick(k, out) =>
        if k < |s.flats| {
          FlatTickTyped(cfg, s, s.flats[k], out);
          NeverPlaces(s.flats[k]);
        }
      case FlattenStarts => FlattenTyped(cfg, s);
      case BarArrives(bar) =>
        if ArrivalExit(s.eng, bar).Some? {
          var s1 := s.(eng := Arrived(s.eng, bar), clock := s.clock + 1);
          BeginExitMoves(cfg, s1, ExitCall(s1.eng, bar, ArrivalExit(s.eng, bar).value, FromBarrier(bar)));
        }
      case _ =>
    }
  }

  lemma FewerOwned(m: multiset<Id>, e: Effect, next: Id)
    ensures !e.Accepted? ==> |OwnedAfter(m, e, next)| <= |m|
    ensures !e.Accepted? && m == multiset{} ==> OwnedAfter(m, e, next) == multiset{}
    ensures e.Accepted? ==> |OwnedAfter(m, e, next)| == |m| + 1
  {}

  lemma TrackedIsOwned(s: Sys)
    ensures Owned(s) == multiset{} ==> s.tracked == []
  {
    if s.tracked != [] { assert s.tracked[0] in Owned(s); }
  }

  lemma StepBounded(cfg: Settings, s: Sys, ev: Event)
    requires Kept(s) && Bounded(s) && Honest(s, ev) && Guarded(cfg, s, ev)
    ensures Bounded(Step(cfg, s, ev))
  {
    hide Tick, OnArrival, OnFlatten, Owned, OwnedAfter, Honest, TickEffect;
    TrackedIsOwned(s);
    if ev.NativeFills? {
      NativeFillKept(cfg, s, ev.id);
    } else {
      StepMoves(cfg, s, ev);
      FewerOwned(Owned(s), EffectOf(s, ev), s.nextId);
      if ev.BarTick? { PlacementOrder(cfg, s, ev.out); } else { OtherEvents(cfg, s, ev); }
    }
  }

  lemma {:induction false} GuardedIsBounded(cfg: Settings, es: seq<Event>)
    requires HonestRun(cfg, es) && GuardedRun(cfg, es)
    ensures Bounded(Reached(cfg, es))
  {
    hide Step, Honest, Kept, Bounded, Guarded;
    if es == [] {
      StartBounded(cfg);
    } else {
      var n := |es| - 1;
      HonestPrefix(cfg, es, n);
      GuardedPrefix(cfg, es, n);
      GuardedIsBounded(cfg, es[..n]);
      NoOrderIsForgotten(cfg, es[..n]);
      assert es[..n + 1] == es;
      StepBounded(cfg, Reached(cfg, es[..n]), es[n]);
    }
  }

  lemma StartBounded(cfg: Settings)
    ensures Bounded(InitialSys(cfg))
  {}

  lemma GuardedPrefix(cfg: Settings, es: seq<Event>, n: nat)
    requires GuardedRun(cfg, es) && n <= |es|
    ensures GuardedRun(cfg, es[..n])
  {
    assert forall m :: 0 <= m <= n ==> es[..n][..m] == es[..m];
  }

  lemma RestingIsFew(r: set<Id>, m: multiset<Id>)
    requires forall id :: id in r ==> id in m
    ensures |r| <= |m|
  {
    if r != {} {
      var id :| id in r;
      RestingIsFew(r - {id}, m - multiset{id});
    }
  }

  /** On every guarded run, through failed entries, failed exits and failed placements, whatever else
      overlaps: at most two native orders rest; none rests, is tracked or is in a task's hands while
      the engine is flat; and when no task has ids in hand every resting order is tracked. */
  lemma NativeOrdersAreControlled(cfg: Settings, es: seq<Event>)
    requires HonestRun(cfg, es) && GuardedRun(cfg, es)
    ensures var s := Reached(cfg, es);
            && |s.resting| <= 2
            && (s.eng.book.position.None? ==> s.resting == {} && Owned(s) == multiset{} && s.tracked == [])
            && (Held(s.bar) == [] && Hands(s.flats) == multiset{} ==> forall id :: id in s.resting ==> id in s.tracked)
  {
    GuardedIsBounded(cfg, es);
    NoOrderIsForgotten(cfg, es);
    var s := Reached(cfg, es);
    RestingIsFew(s.resting, Owned(s));
    TrackedIsOwned(s);
  }

  /** No order ever rests while the engine is flat. */
  ghost predicate NeverRestsFlat(cfg: Settings, es: seq<Event>) {
    forall n :: 0 <= n <= |es| ==>
      var s := Reached(cfg, es[..n]);
      s.eng.book.position.None? ==> s.resting == {}
  }

  lemma CancelsAndCreatesKeepThePosition(cfg: Settings, s: Sys, t: Task, out: Outcome)
    requires TickEffect(t, out) != Nothing
    ensures Tick(cfg, s, t, out).0.eng.book.position == s.eng.book.position
  {
    hide Equity;
  }

  lemma BookingMovesNothing(cfg: Settings, s: Sys, ev: Event)
    ensures EffectOf(s, ev) != Nothing ==> Step(cfg, s, ev).eng.book.position == s.eng.book.position
    ensures Books(cfg, s, ev) ==> EffectOf(s, ev) == Nothing && !ev.NativeFills?
  {
    hide Tick, OnArrival, OnFlatten, TickEffect;
    match ev {
      case BarTick(out) =>
        if TickEffect(s.bar, out) != Nothing { CancelsAndCreatesKeepThePosition(cfg, s, s.bar, out); }
      case FlatTick(k, out) =>
        if k < |s.flats| && TickEffect(s.flats[k], out) != Nothing {
          CancelsAndCreatesKeepThePosition(cfg, s, s.flats[k], out);
        }
      case _ =>
    }
  }

  lemma StepUnguarded(cfg: Settings, s: Sys, ev: Event)
    requires Kept(s) && AllRest(s) && Honest(s, ev) && !ev.NativeFills?
    requires var s' := Step(cfg, s, ev); s'.eng.book.position.None? ==> s'.resting == {}
    ensures Guarded(cfg, s, ev)
  {
    hide Step, Owned, Honest;
    BookingMovesNothing(cfg, s, ev);
    StepKept(cfg, s, ev);
    StepMoves(cfg, s, ev);
  }

  /** Exactly when nothing ever rests while flat, on schedules in which no native order fires: at every
      close no id is tracked or in a task's hands, and no order is accepted while flat. */
  lemma NothingRestsWhileFlatExactly(cfg: Settings, es: seq<Event>)
    requires HonestRun(cfg, es) && NoNativeFills(es)
    ensures NeverRestsFlat(cfg, es) <==> GuardedRun(cfg, es)
  {
    hide Step, Guarded, Reached, Honest, Kept, AllRest;
    if NeverRestsFlat(cfg, es) {
      forall n | 0 <= n < |es| ensures Guarded(cfg, Reached(cfg, es[..n]), es[n]) {
        HonestPrefix(cfg, es, n);
        NoOrderIsForgotten(cfg, es[..n]);
        ReachedNext(cfg, es, n);
        StepUnguarded(cfg, Reached(cfg, es[..n]), es[n]);
      }
    }
    if GuardedRun(cfg, es) {
      forall n | 0 <= n <= |es|
        ensures var s := Reached(cfg, es[..n]); s.eng.book.position.None? ==> s.resting == {}
      {
        HonestPrefix(cfg, es, n);
        GuardedPrefix(cfg, es, n);
        NativeOrdersAreControlled(cfg, es[..n]);
      }
    }
  }
}
