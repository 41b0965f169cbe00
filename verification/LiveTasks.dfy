/** The live engine as interleaved tasks: one bar task and any number of flatten requests, each
    split at its real suspension points, over a ghost exchange that may fill, fail or acknowledge.
    With `paper` settings orders fill at once, so only store writes suspend. */
module LiveTasks {
  import opened Types
  import opened PortfolioModel
  import opened LiveEngine

  type Id = nat

  /** Where an exit came from, which decides what its task does next. */
  datatype Origin = FromBarrier(bar: Bar) | FromSignal(bar: Bar) | FromFlatten

  /** An exit in progress: the position it captured, the bar it refers to and what it asks for. `since` is
      history: how many trades were closed when it began, which makes the captured position trade `since`. */
  datatype Call = Call(p: Position, bar: Bar, leave: Leave, origin: Origin, since: nat)

  function ExitCall(e: Eng, bar: Bar, leave: Leave, origin: Origin): Call
    requires e.book.position.Some?
  {
    Call(e.book.position.value, bar, leave, origin, |e.book.trades|)
  }

  /** What a task is waiting for. */
  datatype Task =
    | Start                                         // engine not yet running its first bar
    | Idle                                          // between bars
    | CancelOld(call: Call, left: seq<Id>)          // cancelling native orders before an exit
    | ExitOrdered(call: Call)                       // exit order in flight
    | Recording(origin: Origin)                     // trade being stored / notified
    | Observing(bar: Bar)                           // latest observations being read
    | EntryOrdered(bar: Bar, order: Order)          // entry order in flight
    | PlaceBegin(after: Option<Bar>)                // place_protective loading markets
    | ClearOld(after: Option<Bar>, left: seq<Id>)   // place_protective cancelling what was there
    | PlaceStop(after: Option<Bar>)                 // native stop being created
    | PlaceTarget(after: Option<Bar>, ids: seq<Id>) // native target being created
    | Syncing                                       // equity sample being stored (bar task)
    | FlatSyncing                                   // equity sample being stored (flatten)
    | Done                                          // flatten finished
    | Dead                                          // task ended by an exception, a cancel or a stop

  datatype Outcome =
    | Ack
    | Failed
    | Filled(time: int, price: real, quantity: real, fee: real)
    | Observed(signal: Option<Signal>, atr: real)

  /** History: bar count at which positions opened and closed. */
  datatype Mark = Opened(clock: nat) | Closed(clock: nat, origin: Origin)

  datatype Sys = Sys(
    eng: Eng, tracked: seq<Id>, resting: set<Id>, nextId: Id,
    bar: Task, flats: seq<Task>, clock: nat, log: seq<Mark>)

  datatype Event =
    | Adopt(side: Side, quantity: real, entry: real, atr: real, time: int)
    | Begin
    | BarArrives(bar: Bar)
    | BarTick(out: Outcome)
    | FlattenStarts
    | FlatTick(k: nat, out: Outcome)
    | Resumed
    | Halted
    | BarDies
    | FlatDies(k: nat)
    | NativeFills(id: Id)

  function InitialSys(cfg: Settings): Sys {
    Sys(NewEng(cfg), [], {}, 0, Start, [], 0, [])
  }

  // ---------------------------------------------------------------- segments

  /** Result of a segment: the shared state and what the task waits for next. */
  type Segment = (Sys, Task)

  function ExchangeFill(order: Order, out: Outcome, bar: Bar): Fill
    requires out.Filled?
  {
    Fill(out.time, order.side, out.quantity, out.price, out.fee, Abs(out.price - bar.close) * out.quantity,
         order.isExit)
  }

  function CloseBooked(s: Sys, e: Option<Eng>, origin: Origin): Segment {
    match e
    case None => (s, Dead)
    case Some(eng) => (s.(eng := eng, log := s.log + [Closed(s.clock, origin)]), Recording(origin))
  }

  /** The first segment of `_exit`: ids are untracked at once, then cancelled one by one. */
  function BeginExit(cfg: Settings, s: Sys, call: Call): Segment {
    if cfg.paper then CloseBooked(s, PaperExit(cfg, s.eng, call.p, call.bar.time, call.leave), call.origin)
    else if s.tracked == [] then (s, ExitOrdered(call))
    else (s.(tracked := []), CancelOld(call, s.tracked))
  }

  /** What follows `_exit`, whether the order was filled or not. */
  function AfterExit(cfg: Settings, s: Sys, origin: Origin): Segment {
    match origin
    case FromBarrier(bar) => (s.(eng := TradesNoted(cfg, s.eng)), Observing(bar))
    case FromSignal(bar) => AfterBar(s, bar)
    case FromFlatten =>
      (if s.eng.lastBar.Some? then s.(eng := BarMarked(s.eng, s.eng.lastBar.value)) else s, FlatSyncing)
  }

  function AfterBar(s: Sys, bar: Bar): Segment {
    (s.(eng := BarMarked(s.eng, bar)), Syncing)
  }

  function AfterPlacing(s: Sys, after: Option<Bar>): Segment {
    match after
    case Some(bar) => AfterBar(s, bar)
    case None => (s, Idle)
  }

  function OpenBooked(s: Sys, e: Option<Eng>): Option<Sys> {
    match e
    case None => None
    case Some(eng) => Some(s.(eng := eng, log := s.log + [Opened(s.clock)]))
  }

  function Acted(cfg: Settings, s: Sys, bar: Bar, signal: Option<Signal>, atr: real): Segment {
    match Decide(cfg, s.eng, bar, signal, atr)
    case Stay => AfterBar(s, bar)
    case Enter(order) =>
      if cfg.paper then
        (match OpenBooked(s, PaperEntry(cfg, s.eng, order, bar))
         case None => (s, Dead)
         case Some(s') => AfterBar(s', bar))
      else (s, EntryOrdered(bar, order))
    case Exit(leave) =>
      if s.eng.book.position.None? then (s, Dead)
      else BeginExit(cfg, s, ExitCall(s.eng, bar, leave, FromSignal(bar)))
  }

  function Cancelled(s: Sys, id: Id, out: Outcome): Sys {
    if out.Ack? then s.(resting := s.resting - {id}) else s
  }

  function Created(s: Sys): Sys {
    s.(resting := s.resting + {s.nextId}, nextId := s.nextId + 1)
  }

  /** The segment a waiting task runs when its await returns; an outcome it is not waiting for changes nothing. */
  function Tick(cfg: Settings, s: Sys, t: Task, out: Outcome): Segment {
    match t
    case CancelOld(call, left) =>
      if left == [] || !(out.Ack? || out.Failed?) then (s, t)
      else if |left| == 1 then (Cancelled(s, left[0], out), ExitOrdered(call))
      else (Cancelled(s, left[0], out), CancelOld(call, left[1..]))
    case ExitOrdered(call) =>
      if out.Filled? then
        CloseBooked(s, ExitBooked(s.eng, ExchangeFill(ExitOrder(call.p, call.bar.time), out, call.bar),
                                  call.leave.reason, call.bar.close), call.origin)
      else if out.Failed? then AfterExit(cfg, s, call.origin)
      else (s, t)
    case Recording(origin) =>
      if out.Ack? then AfterExit(cfg, s, origin) else if out.Failed? then (s, Dead) else (s, t)
    case Observing(bar) =>
      if out.Observed? then Acted(cfg, s, bar, out.signal, out.atr) else (s, t)
    case EntryOrdered(bar, order) =>
      if out.Filled? then
        (match OpenBooked(s, EntryBooked(s.eng, order, ExchangeFill(order, out, bar), bar.close))
         case None => (s, Dead)
         case Some(s') => (s', PlaceBegin(Some(bar))))
      else if out.Failed? then AfterBar(s, bar)
      else (s, t)
    case PlaceBegin(after) =>
      if !(out.Ack? || out.Failed?) then (s, t)
      else if s.tracked == [] then (s, PlaceStop(after))
      else (s.(tracked := []), ClearOld(after, s.tracked))
    case ClearOld(after, left) =>
      if left == [] || !(out.Ack? || out.Failed?) then (s, t)
      else if |left| == 1 then (Cancelled(s, left[0], out), PlaceStop(after))
      else (Cancelled(s, left[0], out), ClearOld(after, left[1..]))
    case PlaceStop(after) =>
      if out.Ack? then (Created(s), PlaceTarget(after, [s.nextId]))
      else if out.Failed? then (s, PlaceTarget(after, []))
      else (s, t)
    case PlaceTarget(after, ids) =>
      if out.Ack? then AfterPlacing(Created(s).(tracked := ids + [s.nextId]), after)
      else if out.Failed? then AfterPlacing(s.(tracked := ids), after)
      else (s, t)
    case Syncing => if out.Ack? then (s, Idle) else if out.Failed? then (s, Dead) else (s, t)
    case FlatSyncing => if out.Ack? || out.Failed? then (s, Done) else (s, t)
    case _ => (s, t)
  }

  function AdoptedOrder(cfg: Settings, ev: Event): Order
    requires ev.Adopt?
  {
    Order(ev.time, ev.side, Abs(ev.quantity), Market, cfg.setup.barriers.slMult * ev.atr,
          cfg.setup.barriers.tpMult * ev.atr, cfg.setup.barriers.horizon, false, 0.0)
  }

  /** Start-up reconciliation: an exchange position becomes the engine's own. */
  function Adopted(cfg: Settings, s: Sys, ev: Event): Sys
    requires ev.Adopt?
  {
    var order := AdoptedOrder(cfg, ev);
    var fill := Fill(ev.time, ev.side, order.quantity, ev.entry, 0.0, 0.0, false);
    match OpenBooked(s, EntryBooked(s.eng, order, fill, ev.entry))
    case None => s.(bar := Dead)
    case Some(s') => s'.(bar := if cfg.paper then Idle else PlaceBegin(None))
  }

  function OnArrival(cfg: Settings, s: Sys, bar: Bar): Sys {
    var s1 := s.(eng := Arrived(s.eng, bar), clock := s.clock + 1);
    var leave := ArrivalExit(s.eng, bar);
    if leave.Some? then
      var (s2, t) := BeginExit(cfg, s1, ExitCall(s1.eng, bar, leave.value, FromBarrier(bar)));
      s2.(bar := t)
    else s1.(eng := TradesNoted(cfg, s1.eng), bar := Observing(bar))
  }

  function OnFlatten(cfg: Settings, s: Sys): Sys {
    var s1 := s.(eng := s.eng.(halted := true));
    var leave := FlattenExit(s.eng);
    if leave.Some? then
      var (s2, t) := BeginExit(cfg, s1, ExitCall(s.eng, s.eng.lastBar.value, leave.value, FromFlatten));
      s2.(flats := s2.flats + [t])
    else s1.(flats := s1.flats + [Done])
  }

  /** One atomic step; an event that is not enabled changes nothing. */
  function Step(cfg: Settings, s: Sys, ev: Event): Sys {
    match ev
    case Adopt(_, _, _, _, _) => if s.bar == Start then Adopted(cfg, s, ev) else s
    case Begin => if s.bar == Start then s.(bar := Idle) else s
    case BarArrives(bar) =>
      if s.bar == Idle && (s.eng.lastBar.None? || s.eng.lastBar.value.time < bar.time)
      then OnArrival(cfg, s, bar) else s
    case BarTick(out) => var (s', t) := Tick(cfg, s, s.bar, out); s'.(bar := t)
    case FlattenStarts => OnFlatten(cfg, s)
    case FlatTick(k, out) =>
      if k < |s.flats| then var (s', t) := Tick(cfg, s, s.flats[k], out); s'.(flats := s'.flats[k := t])
      else s
    case Resumed => s.(eng := s.eng.(halted := false))
    case Halted => s.(eng := s.eng.(halted := true))
    case BarDies => s.(bar := Dead)
    case FlatDies(k) => if k < |s.flats| then s.(flats := s.flats[k := Dead]) else s
    case NativeFills(id) => s.(resting := s.resting - {id})
  }

  function Run(cfg: Settings, s: Sys, es: seq<Event>): Sys {
    if es == [] then s else Step(cfg, Run(cfg, s, es[..|es| - 1]), es[|es| - 1])
  }

  /** Every state some schedule can reach from start-up. */
  function Reached(cfg: Settings, es: seq<Event>): Sys {
    Run(cfg, InitialSys(cfg), es)
  }

  lemma RunAppends(cfg: Settings, s: Sys, es: seq<Event>, ev: Event)
    ensures Run(cfg, s, es + [ev]) == Step(cfg, Run(cfg, s, es), ev)
  {
    assert (es + [ev])[..|es|] == es;
  }

  lemma {:induction false} RunConcat(cfg: Settings, s: Sys, a: seq<Event>, b: seq<Event>)
    ensures Run(cfg, s, a + b) == Run(cfg, Run(cfg, s, a), b)
  {
    hide Step;
    if b == [] {
      assert a + b == a;
    } else {
      var n := |b| - 1;
      RunConcat(cfg, s, a, b[..n]);
      assert (a + b)[..|a + b| - 1] == a + b[..n];
    }
  }

  lemma ReachedNext(cfg: Settings, es: seq<Event>, n: nat)
    requires n < |es|
    ensures Reached(cfg, es[..n + 1]) == Step(cfg, Reached(cfg, es[..n]), es[n])
  {
    assert es[..n + 1][..n] == es[..n];
  }
}
