/** Every closed trade told from the bars and signals alone: where it was entered, which bar ended it and why,
    and what it was paid, in the backtester and in the undisturbed paper engine. */
module TradeOutcomes {
  import opened Types
  import opened Arith
  import opened PortfolioModel
  import opened LiveEngine
  import opened Strategy
  import Bt = Backtest
  import BtRuns = BacktestTheorems
  import Agree = EngineAgreement
  import CostModel
  import Risk

  /** What was agreed on bar `decided`: entry, stop and target prices and the number of bars to hold. */
  datatype Terms = Terms(side: Side, entry: real, stop: real, target: real, horizon: nat, decided: nat)

  predicate StopReached(t: Terms, bar: Bar) {
    if t.side == Long then bar.low <= t.stop else bar.high >= t.stop
  }

  predicate TargetReached(t: Terms, bar: Bar) {
    if t.side == Long then bar.high >= t.target else bar.low <= t.target
  }

  predicate TimeUp(t: Terms, j: nat) { t.horizon != 0 && j >= t.decided + t.horizon }

  /** Bar `j` ends nothing. */
  predicate Holds(t: Terms, bar: Bar, j: nat) {
    !StopReached(t, bar) && !TargetReached(t, bar) && !TimeUp(t, j)
  }

  predicate HeldTo(t: Terms, bars: seq<Bar>, n: nat)
    requires n <= |bars|
  {
    forall j :: t.decided < j < n ==> Holds(t, bars[j], j)
  }

  predicate LimitEntries(cfg: Settings) { cfg.setup.costs.Some? && cfg.setup.costs.value.limitEntries }

  /** A price moved against whoever trades that side. */
  function Against(cfg: Settings, side: Side, price: real): real {
    price * (1.0 + Signed(side, cfg.exec.slippageBps / 10000.0))
  }

  /** Where a limit entry decided on `bar` is posted. */
  function Posted(cfg: Settings, side: Side, bar: Bar): real
    requires LimitEntries(cfg)
  {
    bar.close * (1.0 - Signed(side, cfg.setup.costs.value.limitOffsetBps / 10000.0))
  }

  /** The engine trades on paper at the deciding bar's close; the backtester on the next bar, at its open or, when
      that bar reaches it, at the posted limit. */
  datatype Venue = Paper | Backtested

  predicate Entered(cfg: Settings, venue: Venue, side: Side, entry: real, bars: seq<Bar>, m: nat) {
    match venue
    case Paper =>
      m < |bars| && entry == if LimitEntries(cfg) then bars[m].close else Against(cfg, side, bars[m].close)
    case Backtested =>
      && m + 1 < |bars|
      && if LimitEntries(cfg) then
           && entry == Posted(cfg, side, bars[m])
           && (if side == Long then bars[m + 1].low <= entry else bars[m + 1].high >= entry)
         else entry == Against(cfg, side, bars[m + 1].open)
  }

  function TermsOf(cfg: Settings, side: Side, entry: real, atr: real, m: nat): Terms {
    Terms(side, entry, entry - Signed(side, cfg.setup.barriers.slMult * atr),
          entry + Signed(side, cfg.setup.barriers.tpMult * atr), cfg.setup.barriers.horizon, m)
  }

  /** Bar `m` brought a signal for that side. */
  predicate Called(seen: seq<Seen>, m: nat, side: Side) {
    m < |seen| && side != Flat && seen[m].signal.Some? && seen[m].signal.value.side == side
  }

  /** Bar `m` brought a signal against it. */
  predicate Recalled(seen: seq<Seen>, m: nat, side: Side) {
    m < |seen| && seen[m].signal.Some? && seen[m].signal.value.side !in {Flat, side}
  }

  /** Why bar `x` ended the trade, and at what price before costs. */
  predicate Ended(t: Terms, venue: Venue, reason: Reason, base: real, bars: seq<Bar>, seen: seq<Seen>, x: nat)
    requires t.decided < x < |bars| == |seen|
  {
    var bar := bars[x];
    match reason
    case StopLoss => StopReached(t, bar) && base == t.stop
    case TakeProfit => !StopReached(t, bar) && TargetReached(t, bar) && base == t.target
    case TimeExit => !StopReached(t, bar) && !TargetReached(t, bar) && TimeUp(t, x) && base == bar.close
    case SignalExit =>
      if venue == Paper then Holds(t, bar, x) && Recalled(seen, x, t.side) && base == bar.close
      else Recalled(seen, x - 1, t.side) && base == bar.open
    case EndOfData => x == |bars| - 1 && Holds(t, bar, x) && base == bar.close
    case Flattened => false
  }

  /** When: a backtested signal exit carries the time of the bar that ordered it. */
  function EndTime(venue: Venue, reason: Reason, bars: seq<Bar>, x: nat): int
    requires 0 < x < |bars|
  {
    if venue == Backtested && reason == SignalExit then bars[x - 1].time else bars[x].time
  }

  /** The best price a position entered on or after bar `m` has met before bar `n`. */
  function BestSeen(side: Side, entry: real, bars: seq<Bar>, m: nat, n: nat): real
    requires n <= |bars|
  {
    if n <= m + 1 then entry
    else if side == Long then Max(BestSeen(side, entry, bars, m, n - 1), bars[n - 1].high)
    else Min(BestSeen(side, entry, bars, m, n - 1), bars[n - 1].low)
  }

  /** The best price takes in every bar the position came through: bar `x` too when only its close ended it. */
  function LastMet(venue: Venue, reason: Reason, x: nat): nat {
    if reason == EndOfData || (venue == Paper && reason == SignalExit) then x + 1 else x
  }

  /** The whole story: called on bar `m`, entered there or on the next, held through every bar in between, ended
      by bar `x`, paid for on both sides. */
  ghost predicate Story(cfg: Settings, venue: Venue, tr: Trade, bars: seq<Bar>, seen: seq<Seen>, m: nat, x: nat,
                        base: real)
    requires |bars| == |seen|
  {
    && m < x < |bars| && Called(seen, m, tr.side)
    && Entered(cfg, venue, tr.side, tr.entryPrice, bars, m)
    && var t := TermsOf(cfg, tr.side, tr.entryPrice, seen[m].atr, m);
    && HeldTo(t, bars, x) && Ended(t, venue, tr.reason, base, bars, seen, x)
    && tr.exitPrice == Against(cfg, Opposite(tr.side), base)
    && tr.entryTime == bars[m].time && tr.exitTime == EndTime(venue, tr.reason, bars, x)
    && tr.bestPrice == BestSeen(tr.side, tr.entryPrice, bars, m, LastMet(venue, tr.reason, x))
    && Paid(cfg, tr)
  }

  /** A trade makes its units times the move in its favour, less the taker fee on what the exit moved. */
  predicate Paid(cfg: Settings, tr: Trade) {
    && tr.quantity > 0.0
    && tr.grossPnl == Signed(tr.side, tr.exitPrice - tr.entryPrice) * tr.quantity
    && tr.fees == tr.exitPrice * tr.quantity * cfg.exec.takerFee
    && tr.netPnl == tr.grossPnl - tr.fees
  }

  ghost predicate Told(cfg: Settings, venue: Venue, tr: Trade, bars: seq<Bar>, seen: seq<Seen>, n: nat)
    requires |bars| == |seen|
  {
    exists m: nat, x: nat, base: real :: x < n && Story(cfg, venue, tr, bars, seen, m, x, base)
  }

  ghost predicate AllTold(cfg: Settings, venue: Venue, trades: seq<Trade>, bars: seq<Bar>, seen: seq<Seen>, n: nat)
    requires |bars| == |seen|
  {
    forall k :: 0 <= k < |trades| ==> Told(cfg, venue, trades[k], bars, seen, n)
  }

  /** The position called on bar `m` and held through the `n` bars seen. */
  ghost predicate Open(cfg: Settings, venue: Venue, p: Position, bars: seq<Bar>, seen: seq<Seen>, m: nat, n: nat)
    requires |bars| == |seen|
  {
    && m < n <= |bars| && Called(seen, m, p.side) && Entered(cfg, venue, p.side, p.entryPrice, bars, m)
    && var t := TermsOf(cfg, p.side, p.entryPrice, seen[m].atr, m);
    && HeldTo(t, bars, n) && p.stopLoss == t.stop && p.takeProfit == t.target && p.maxHoldBars == t.horizon
    && p.mfe == BestSeen(p.side, p.entryPrice, bars, m, n) && p.barsHeld == n - m - 1
    && p.entryTime == bars[m].time && p.quantity > 0.0
  }

  ghost predicate HeldSince(cfg: Settings, venue: Venue, b: Book, bars: seq<Bar>, seen: seq<Seen>, n: nat)
    requires |bars| == |seen|
  {
    b.position.Some? ==> exists m: nat :: Open(cfg, venue, b.position.value, bars, seen, m, n)
  }

  /** The story of a book: its trades are told, and its open position is called and held. */
  ghost predicate Recounted(cfg: Settings, venue: Venue, b: Book, bars: seq<Bar>, seen: seq<Seen>, n: nat)
    requires |bars| == |seen|
  {
    AllTold(cfg, venue, b.trades, bars, seen, n) && HeldSince(cfg, venue, b, bars, seen, n)
  }

  // ---------------------------------------------------------------- one bar

  lemma ExitFill(cfg: Settings, p: Position, time: int, base: real, reason: Reason)
    requires p.side != Flat && p.quantity > 0.0
    ensures var tr := ClosedTrade(p, CostModel.ApplyCosts(ExitOrder(p, time), base, cfg.exec), reason);
            && tr.exitPrice == Against(cfg, Opposite(p.side), base) && Paid(cfg, tr)
            && tr.side == p.side && tr.entryPrice == p.entryPrice && tr.entryTime == p.entryTime
            && tr.exitTime == time && tr.reason == reason && tr.bestPrice == p.mfe
  {}

  /** Closing an open position on bar `x` adds its story. */
  lemma Closes(cfg: Settings, venue: Venue, b: Book, p: Position, bars: seq<Bar>, seen: seq<Seen>,
               m: nat, x: nat, time: int, base: real, reason: Reason)
    requires |bars| == |seen| && AllTold(cfg, venue, b.trades, bars, seen, x + 1)
    requires x < |bars| && m < x && Called(seen, m, p.side) && Entered(cfg, venue, p.side, p.entryPrice, bars, m)
    requires p.entryTime == bars[m].time && p.quantity > 0.0
    requires p.mfe == BestSeen(p.side, p.entryPrice, bars, m, LastMet(venue, reason, x))
    requires var t := TermsOf(cfg, p.side, p.entryPrice, seen[m].atr, m);
             HeldTo(t, bars, x) && Ended(t, venue, reason, base, bars, seen, x)
    requires time == EndTime(venue, reason, bars, x)
    ensures var tr := ClosedTrade(p, CostModel.ApplyCosts(ExitOrder(p, time), base, cfg.exec), reason);
            AllTold(cfg, venue, b.trades + [tr], bars, seen, x + 1)
  {
    hide ClosedTrade, CostModel.ApplyCosts, Paid, Entered, TermsOf, HeldTo, Ended, EndTime, Against;
    var tr := ClosedTrade(p, CostModel.ApplyCosts(ExitOrder(p, time), base, cfg.exec), reason);
    ExitFill(cfg, p, time, base, reason);
    assert Story(cfg, venue, tr, bars, seen, m, x, base);
    assert Told(cfg, venue, tr, bars, seen, x + 1);
  }

  lemma LaterStillTold(cfg: Settings, venue: Venue, trades: seq<Trade>, bars: seq<Bar>, seen: seq<Seen>, n: nat)
    requires |bars| == |seen| && AllTold(cfg, venue, trades, bars, seen, n)
    ensures AllTold(cfg, venue, trades, bars, seen, n + 1)
  {
    hide Story;
    forall k | 0 <= k < |trades| ensures Told(cfg, venue, trades[k], bars, seen, n + 1) {
      assert Told(cfg, venue, trades[k], bars, seen, n);
    }
  }

  /** Bar `n` against the position. */
  lemma BarMeetsPosition(cfg: Settings, venue: Venue, p: Position, bars: seq<Bar>, seen: seq<Seen>, m: nat, n: nat)
    requires |bars| == |seen| && n < |bars| && Open(cfg, venue, p, bars, seen, m, n)
    ensures var t := TermsOf(cfg, p.side, p.entryPrice, seen[m].atr, m);
            match BarrierExit(Aged(p), bars[n])
            case Some(leave) => Ended(t, venue, leave.reason, leave.price, bars, seen, n)
            case None => Open(cfg, venue, Excursion(Aged(p), bars[n].high, bars[n].low), bars, seen, m, n + 1)
  {
    hide Entered;
  }

  lemma ManagedIsRecounted(cfg: Settings, venue: Venue, b: Book, bars: seq<Bar>, seen: seq<Seen>, n: nat)
    requires |bars| == |seen| && n < |bars|
    requires AllTold(cfg, venue, b.trades, bars, seen, n + 1) && HeldSince(cfg, venue, b, bars, seen, n)
    ensures Recounted(cfg, venue, Bt.Manage(cfg, b, bars[n]), bars, seen, n + 1)
  {
    hide Ended, BarrierExit, ClosedTrade, CostModel.ApplyCosts, Excursion, Story, Entered, Told, TermsOf, HeldTo;
    if b.position.Some? {
      var p := b.position.value;
      var m: nat :| Open(cfg, venue, p, bars, seen, m, n);
      BarMeetsPosition(cfg, venue, p, bars, seen, m, n);
      match BarrierExit(Aged(p), bars[n])
      case Some(leave) =>
        BarrierReasons(Aged(p), bars[n]);
        Closes(cfg, venue, b, Aged(p), bars, seen, m, n, bars[n].time, leave.price, leave.reason);
      case None =>
    }
  }

  lemma BarrierReasons(p: Position, bar: Bar)
    ensures var leave := BarrierExit(p, bar); leave.Some? ==> leave.value.reason in {StopLoss, TakeProfit, TimeExit}
  {}

  // ---------------------------------------------------------------- the backtester

  /** What is queued was called or recalled by the newest bar. */
  predicate Queued(cfg: Settings, st: Bt.State, bars: seq<Bar>, seen: seq<Seen>, n: nat)
    requires n <= |bars| == |seen|
  {
    st.pending.Some? ==>
      var o := st.pending.value;
      && n >= 1 && o.time == bars[n - 1].time
      && if st.book.position.Some? then
           o == ExitOrder(st.book.position.value, o.time) && Recalled(seen, n - 1, st.book.position.value.side)
         else EntryQueued(cfg, o, bars[n - 1], seen, n - 1)
  }

  /** An entry for the signal of bar `m`, barriers at the configured multiples of its ATR. */
  predicate EntryQueued(cfg: Settings, o: Order, bar: Bar, seen: seq<Seen>, m: nat) {
    && !o.isExit && o.quantity > 0.0 && o.time == bar.time && Called(seen, m, o.side)
    && o.stopDistance == cfg.setup.barriers.slMult * seen[m].atr
    && o.tpDistance == cfg.setup.barriers.tpMult * seen[m].atr && o.maxHoldBars == cfg.setup.barriers.horizon
    && if LimitEntries(cfg) then o.kind == Limit && o.limitPrice == Posted(cfg, o.side, bar) else o.kind == Market
  }

  lemma SizedIsQueued(cfg: Settings, bar: Bar, seen: seq<Seen>, m: nat, equity: real)
    requires m < |seen| && seen[m].signal.Some?
    ensures var o := Risk.SizeOrder(cfg.setup, seen[m].signal.value, bar, seen[m].atr, equity, false);
            o.Some? ==> EntryQueued(cfg, o.value, bar, seen, m)
  {}

  /** A filled entry is an open position called on that bar. */
  lemma EntryOpens(cfg: Settings, venue: Venue, b: Book, o: Order, base: real, bars: seq<Bar>, seen: seq<Seen>,
                   m: nat, n: nat)
    requires n <= |bars| == |seen| && m + 1 == n && EntryQueued(cfg, o, bars[m], seen, m) && b.position.None?
    requires Entered(cfg, venue, o.side, CostModel.ApplyCosts(o, base, cfg.exec).price, bars, m)
    ensures var b' := PortfolioModel.Open(b, CostModel.ApplyCosts(o, base, cfg.exec), o.stopDistance, o.tpDistance,
                                          o.maxHoldBars, base);
            && b'.Some? && b'.value.trades == b.trades && b'.value.position.Some?
            && Open(cfg, venue, b'.value.position.value, bars, seen, m, n)
  {
    hide Entered;
  }

  lemma Executed(cfg: Settings, st: Bt.State, bars: seq<Bar>, seen: seq<Seen>, n: nat)
    requires |bars| == |seen| && n < |bars| && st.pending.Some? && Queued(cfg, st, bars, seen, n)
    requires Recounted(cfg, Backtested, st.book, bars, seen, n)
    ensures var b := Bt.ExecutePending(cfg, st.book, st.pending.value, bars[n]);
            && b.Some? && AllTold(cfg, Backtested, b.value.trades, bars, seen, n + 1)
            && HeldSince(cfg, Backtested, b.value, bars, seen, n)
  {
    hide ClosedTrade, Story, Told, HeldTo;
    var o := st.pending.value;
    LaterStillTold(cfg, Backtested, st.book.trades, bars, seen, n);
    if o.isExit {
      var p := st.book.position.value;
      var m: nat :| Open(cfg, Backtested, p, bars, seen, m, n);
      Closes(cfg, Backtested, st.book, p, bars, seen, m, n, o.time, bars[n].open, SignalExit);
    } else if o.kind == Market {
      EntryOpens(cfg, Backtested, st.book, o, bars[n].open, bars, seen, n - 1, n);
    } else if Bt.LimitTouched(o, bars[n]) {
      EntryOpens(cfg, Backtested, st.book, o, o.limitPrice, bars, seen, n - 1, n);
    }
  }

  lemma StepIsRecounted(cfg: Settings, st: Bt.State, bars: seq<Bar>, seen: seq<Seen>, n: nat, st': Bt.State)
    requires |bars| == |seen| && n < |bars| && Recounted(cfg, Backtested, st.book, bars, seen, n)
    requires Queued(cfg, st, bars, seen, n)
    requires Bt.Step(cfg, st, bars[n], seen[n].atr, seen[n].signal) == Some(st')
    ensures Recounted(cfg, Backtested, st'.book, bars, seen, n + 1) && Queued(cfg, st', bars, seen, n + 1)
  {
    hide AllTold, HeldSince, Bt.ExecutePending, Bt.Manage, EntryQueued, Risk.SizeOrder, Called;
    var executed := if st.pending.None? then st.book
                    else Bt.ExecutePending(cfg, st.book, st.pending.value, bars[n]).value;
    if st.pending.Some? { Executed(cfg, st, bars, seen, n); } else {
      LaterStillTold(cfg, Backtested, st.book.trades, bars, seen, n);
    }
    ManagedIsRecounted(cfg, Backtested, executed, bars, seen, n);
    MarkingTellsNothing(cfg, Backtested, Bt.Manage(cfg, executed, bars[n]), st'.book, bars, seen, n + 1);
    if seen[n].signal.Some? { SizedIsQueued(cfg, bars[n], seen, n, Equity(st'.book, bars[n].close)); }
  }

  lemma MarkingTellsNothing(cfg: Settings, venue: Venue, b: Book, b': Book, bars: seq<Bar>, seen: seq<Seen>, n: nat)
    requires |bars| == |seen| && Recounted(cfg, venue, b, bars, seen, n) && b' == b.(curve := b'.curve)
    ensures Recounted(cfg, venue, b', bars, seen, n)
  {
    hide Told, Open;
  }

  lemma {:induction false} RunIsRecounted(cfg: Settings, strat: StrategyConfig, table: map<int, Forecast>,
                                          bars: seq<Bar>, rows: seq<Row>, n: nat)
    requires n <= |bars| == |rows|
    ensures var st, seen := BtRuns.After(cfg, strat, table, bars, rows, n), Agree.Fed(strat, table, bars, rows);
            Recounted(cfg, Backtested, st.book, bars, seen, n) && Queued(cfg, st, bars, seen, n)
  {
    hide Recounted, Queued, Bt.Step;
    if n == 0 {
      StartIsRecounted(cfg, bars, Agree.Fed(strat, table, bars, rows));
    } else {
      RunIsRecounted(cfg, strat, table, bars, rows, n - 1);
      BtRuns.AfterStep(cfg, strat, table, bars, rows, n - 1);
      StepIsRecounted(cfg, BtRuns.After(cfg, strat, table, bars, rows, n - 1), bars,
                      Agree.Fed(strat, table, bars, rows), n - 1,
                      BtRuns.After(cfg, strat, table, bars, rows, n));
    }
  }

  lemma StartIsRecounted(cfg: Settings, bars: seq<Bar>, seen: seq<Seen>)
    requires |bars| == |seen|
    ensures Recounted(cfg, Backtested, Bt.Initial(cfg).book, bars, seen, 0)
    ensures Queued(cfg, Bt.Initial(cfg), bars, seen, 0)
    ensures Recounted(cfg, Paper, NewEng(cfg).book, bars, seen, 0)
  {}

  lemma EnteredBeforeTheEnd(cfg: Settings, side: Side, entry: real, bars: seq<Bar>, m: nat)
    requires Entered(cfg, Backtested, side, entry, bars, m)
    ensures m + 1 < |bars|
  {}

  lemma HeldOnTheLast(t: Terms, bars: seq<Bar>)
    requires HeldTo(t, bars, |bars|) && t.decided < |bars| - 1
    ensures HeldTo(t, bars, |bars| - 1) && Holds(t, bars[|bars| - 1], |bars| - 1)
  {}

  /** Every trade of every backtest, the liquidation at the end of the data included, is told by its bars and
      signals: called on a bar, entered at the next bar's open or at the posted limit that bar reached, held
      while neither barrier is reached nor the time up, and left at the stop, else the target, else the close
      when the time is up, at the open after an opposite signal, or at the last close. */
  lemma BacktestTradesAreTold(cfg: Settings, strat: StrategyConfig, table: map<int, Forecast>,
                              bars: seq<Bar>, rows: seq<Row>)
    requires |bars| == |rows|
    ensures var end := Bt.ForceClosed(cfg, BtRuns.After(cfg, strat, table, bars, rows, |bars|).book, bars);
            && end.position.None?
            && AllTold(cfg, Backtested, end.trades, bars, Agree.Fed(strat, table, bars, rows), |bars|)
  {
    hide Story, Told, ClosedTrade, CostModel.ApplyCosts, Entered, HeldTo;
    RunIsRecounted(cfg, strat, table, bars, rows, |bars|);
    var b, seen := BtRuns.After(cfg, strat, table, bars, rows, |bars|).book,
                   Agree.Fed(strat, table, bars, rows);
    if b.position.Some? {
      var p := b.position.value;
      var m: nat :| Open(cfg, Backtested, p, bars, seen, m, |bars|);
      EnteredBeforeTheEnd(cfg, p.side, p.entryPrice, bars, m);
      HeldOnTheLast(TermsOf(cfg, p.side, p.entryPrice, seen[m].atr, m), bars);
      var last := bars[|bars| - 1];
      Closes(cfg, Backtested, b, p, bars, seen, m, |bars| - 1, last.time, last.close, EndOfData);
    }
  }

  // ---------------------------------------------------------------- the paper engine

  lemma PaperManagedIsRecounted(cfg: Settings, e: Eng, bars: seq<Bar>, seen: seq<Seen>, n: nat)
    requires |bars| == |seen| && n < |bars| && Recounted(cfg, Paper, e.book, bars, seen, n)
    ensures Recounted(cfg, Paper, PaperManaged(cfg, e, bars[n]).book, bars, seen, n + 1)
    ensures MetABar(PaperManaged(cfg, e, bars[n]).book)
  {
    hide AllTold, Open, Bt.Manage;
    LaterStillTold(cfg, Paper, e.book.trades, bars, seen, n);
    ManagedIsRecounted(cfg, Paper, e.book, bars, seen, n);
    ManagedMetABar(cfg, e.book, bars[n]);
    ManagedAlike(cfg, e, bars, seen, n);
  }

  /** A position that a bar has met. */
  predicate MetABar(b: Book) { b.position.Some? ==> b.position.value.barsHeld >= 1 }

  lemma ManagedMetABar(cfg: Settings, b: Book, bar: Bar)
    ensures MetABar(Bt.Manage(cfg, b, bar))
  {}

  lemma HeldHere(t: Terms, bars: seq<Bar>, n: nat)
    requires n < |bars| && HeldTo(t, bars, n + 1) && t.decided < n
    ensures HeldTo(t, bars, n) && Holds(t, bars[n], n)
  {}

  lemma ManagedAlike(cfg: Settings, e: Eng, bars: seq<Bar>, seen: seq<Seen>, n: nat)
    requires n < |bars|
    ensures var b, b' := Bt.Manage(cfg, e.book, bars[n]), PaperManaged(cfg, e, bars[n]).book;
            b'.position == b.position && b'.trades == b.trades
  {
    hide Bt.Manage, PaperManaged;
    Agree.ManagedAlike(cfg, e, e.book, bars[n]);
  }

  lemma ActedIsRecounted(cfg: Settings, e: Eng, bars: seq<Bar>, seen: seq<Seen>, n: nat)
    requires |bars| == |seen| && n < |bars| && Recounted(cfg, Paper, e.book, bars, seen, n + 1) && MetABar(e.book)
    ensures Recounted(cfg, Paper, PaperActed(cfg, e, bars[n], seen[n].signal, seen[n].atr).book, bars, seen, n + 1)
  {
    hide Story, Told, ClosedTrade, HeldTo, Risk.SizeOrder;
    match Decide(cfg, e, bars[n], seen[n].signal, seen[n].atr)
    case Stay =>
    case Enter(o) =>
      SizedIsQueued(cfg, bars[n], seen, n, Equity(e.book, bars[n].close));
      EntryOpens(cfg, Paper, e.book, o, bars[n].close, bars, seen, n, n + 1);
    case Exit(leave) =>
      var p := e.book.position.value;
      var m: nat :| Open(cfg, Paper, p, bars, seen, m, n + 1);
      HeldHere(TermsOf(cfg, p.side, p.entryPrice, seen[m].atr, m), bars, n);
      Closes(cfg, Paper, e.book, p, bars, seen, m, n, bars[n].time, bars[n].close, SignalExit);
  }

  lemma {:induction false} PaperRunIsRecounted(cfg: Settings, bars: seq<Bar>, seen: seq<Seen>, n: nat)
    requires n <= |bars| == |seen|
    ensures Recounted(cfg, Paper, Followed(cfg, NewEng(cfg), bars, seen, 0, n).book, bars, seen, n)
  {
    hide Recounted, PaperManaged, PaperActed, MetABar;
    if n == 0 {
      StartIsRecounted(cfg, bars, seen);
    } else {
      PaperRunIsRecounted(cfg, bars, seen, n - 1);
      var e := Followed(cfg, NewEng(cfg), bars, seen, 0, n - 1);
      var managed := PaperManaged(cfg, e, bars[n - 1]);
      PaperManagedIsRecounted(cfg, e, bars, seen, n - 1);
      ActedIsRecounted(cfg, managed, bars, seen, n - 1);
      var acted := PaperActed(cfg, managed, bars[n - 1], seen[n - 1].signal, seen[n - 1].atr);
      MarkingTellsNothing(cfg, Paper, acted.book, BarMarked(acted, bars[n - 1]).book, bars, seen, n);
    }
  }

  /** And so is every trade of every undisturbed paper run, entered at the close of the bar that called it and
      left at the close of the bar that recalls it. */
  lemma PaperTradesAreTold(cfg: Settings, bars: seq<Bar>, seen: seq<Seen>, n: nat)
    requires n <= |bars| == |seen|
    ensures AllTold(cfg, Paper, Followed(cfg, NewEng(cfg), bars, seen, 0, n).book.trades, bars, seen, n)
  {
    hide Followed, AllTold, HeldSince;
    PaperRunIsRecounted(cfg, bars, seen, n);
  }

  // ---------------------------------------------------------------- what the barriers pay

  /** Without slippage a trade left by target has made its units times the target distance of its call, one left
      by stop has lost them times the stop distance, and one left by time has made them times the move from
      the entry to the close of its last bar. */
  lemma CostlessPayoff(cfg: Settings, venue: Venue, tr: Trade, bars: seq<Bar>, seen: seq<Seen>, m: nat, x: nat,
                       base: real)
    requires |bars| == |seen| && cfg.exec.slippageBps == 0.0 && Story(cfg, venue, tr, bars, seen, m, x, base)
    ensures tr.reason == TakeProfit ==> tr.grossPnl == tr.quantity * (cfg.setup.barriers.tpMult * seen[m].atr)
    ensures tr.reason == StopLoss ==> tr.grossPnl == -(tr.quantity * (cfg.setup.barriers.slMult * seen[m].atr))
    ensures tr.reason in {TimeExit, EndOfData} ==>
              tr.grossPnl == tr.quantity * Signed(tr.side, bars[x].close - tr.entryPrice)
    ensures tr.reason == SignalExit ==>
              tr.grossPnl == tr.quantity * Signed(tr.side, (if venue == Paper then bars[x].close else bars[x].open)
                                                           - tr.entryPrice)
  {
    hide HeldTo, Entered, Called, Story, Paid, Against;
    StoryPrices(cfg, venue, tr, bars, seen, m, x, base);
    var tp, stop := cfg.setup.barriers.tpMult * seen[m].atr, cfg.setup.barriers.slMult * seen[m].atr;
    Distribute(tp, tr.entryPrice, tr.quantity);
  }

  lemma StoryPrices(cfg: Settings, venue: Venue, tr: Trade, bars: seq<Bar>, seen: seq<Seen>, m: nat, x: nat,
                    base: real)
    requires |bars| == |seen| && cfg.exec.slippageBps == 0.0 && Story(cfg, venue, tr, bars, seen, m, x, base)
    ensures m < x < |bars| && tr.side != Flat && tr.exitPrice == base
    ensures Ended(TermsOf(cfg, tr.side, tr.entryPrice, seen[m].atr, m), venue, tr.reason, base, bars, seen, x)
    ensures tr.grossPnl == Signed(tr.side, tr.exitPrice - tr.entryPrice) * tr.quantity
  {
    hide HeldTo, Entered, Ended, TermsOf;
  }
}
