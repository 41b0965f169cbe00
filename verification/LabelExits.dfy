/** Training labels against the engine's own exits: a trade entered at the labelled bar's close,
    without costs or signal exits, leaves where its label's window ends. */
module LabelExits {
  import opened Types
  import opened Arith
  import opened PortfolioModel
  import opened TripleBarrier
  import CostModel
  import opened LiveEngine
  import Risk

  function SeriesOf(bars: seq<Bar>, atr: seq<Option<real>>): (s: Series)
    requires |bars| == |atr|
    ensures Rectangular(s) && |s.close| == |bars|
  {
    Series(seq(|bars|, i requires 0 <= i < |bars| => bars[i].close),
           seq(|bars|, i requires 0 <= i < |bars| => bars[i].high),
           seq(|bars|, i requires 0 <= i < |bars| => bars[i].low), atr)
  }

  /** The bar on which position `p`, managed from bar `j` on, meets a barrier, and which one. */
  function ExitBar(p: Position, bars: seq<Bar>, j: nat): Option<(nat, Reason)>
    decreases |bars| - j
  {
    if j >= |bars| then None
    else
      match BarrierExit(Aged(p), bars[j])
      case Some(leave) => Some((j, leave.reason))
      case None => ExitBar(Excursion(Aged(p), bars[j].high, bars[j].low), bars, j + 1)
  }

  /** A position entered at the close of bar `i` with its barriers that far away. */
  function EntryAt(side: Side, bars: seq<Bar>, i: nat, quantity: real, stop: real, tp: real, horizon: nat): Position
    requires i < |bars|
  {
    OpenedPosition(Fill(bars[i].time, side, quantity, bars[i].close, 0.0, 0.0, false), stop, tp, horizon)
  }

  function ShortReason(verdict: int): Reason {
    if verdict == 1 then StopLoss else if verdict == -1 then TakeProfit else TimeExit
  }

  /** A long trade swaps the roles, except that a bar straddling both barriers stops it out. */
  function LongReason(verdict: int, straddles: bool): Reason {
    if verdict == 1 && !straddles then TakeProfit else if verdict == 0 then TimeExit else StopLoss
  }

  function Reach(atr: seq<Option<real>>, i: nat, mult: real): real
    requires i < |atr| && atr[i].Some?
  {
    mult * atr[i].value
  }

  predicate Straddles(bars: seq<Bar>, atr: seq<Option<real>>, i: nat, tpMult: real, slMult: real, j: nat)
    requires i < |atr| && atr[i].Some? && i < |bars| && j < |bars|
  {
    bars[j].high >= bars[i].close + Reach(atr, i, tpMult) && bars[j].low <= bars[i].close - Reach(atr, i, slMult)
  }

  /** Position `p` has the two levels as its barriers: a long stops below, a short above. */
  predicate Between(p: Position, k: Levels) {
    if p.side == Long then p.stopLoss == k.lower && p.takeProfit == k.upper
    else p.stopLoss == k.upper && p.takeProfit == k.lower
  }

  function ReasonOf(side: Side, k: Levels, bar: Bar, verdict: int): Reason {
    if side == Long then LongReason(verdict, bar.high >= k.upper && bar.low <= k.lower) else ShortReason(verdict)
  }

  lemma {:induction false} ExitFollowsTouch(bars: seq<Bar>, atr: seq<Option<real>>, horizon: nat, k: Levels, i: nat,
                                            p: Position, j: nat, verdict: int, t1: nat)
    requires |bars| == |atr| && i + horizon < |bars|
    requires FirstTouch(SeriesOf(bars, atr), k, i, horizon, verdict, t1) && i < j <= t1
    requires p.side != Flat && Between(p, k) && p.maxHoldBars == horizon && p.barsHeld == j - i - 1
    ensures ExitBar(p, bars, j) == Some((t1, ReasonOf(p.side, k, bars[t1], verdict)))
    decreases t1 - j
  {
    var s := SeriesOf(bars, atr);
    assert s.high[j] == bars[j].high && s.low[j] == bars[j].low;
    assert j < t1 || verdict == 0 ==> !Touches(s, k, j);
    if j < t1 {
      assert BarrierExit(Aged(p), bars[j]) == None;
      ExitFollowsTouch(bars, atr, horizon, k, i, Excursion(Aged(p), bars[j].high, bars[j].low), j + 1, verdict, t1);
    }
  }

  lemma {:induction false} ExitFollowsLabel(bars: seq<Bar>, atr: seq<Option<real>>, horizon: nat, tpMult: real,
                                            slMult: real, i: nat, side: Side, quantity: real, verdict: int, t1: int)
    requires |bars| == |atr| && i + horizon < |bars| && atr[i].Some? && atr[i].value > 0.0 && side != Flat
    requires horizon > 0 && IsLabel(SeriesOf(bars, atr), horizon, tpMult, slMult, i, verdict, t1)
    ensures i < t1 < |bars|
    ensures var above, below := Reach(atr, i, tpMult), Reach(atr, i, slMult);
            var p := if side == Long then EntryAt(side, bars, i, quantity, below, above, horizon)
                     else EntryAt(side, bars, i, quantity, above, below, horizon);
            ExitBar(p, bars, i + 1) == Some((t1, if side == Short then ShortReason(verdict)
                                                 else LongReason(verdict, Straddles(bars, atr, i, tpMult, slMult, t1))))
  {
    var k := LevelsAt(SeriesOf(bars, atr), i, tpMult, slMult);
    var above, below := Reach(atr, i, tpMult), Reach(atr, i, slMult);
    var p := if side == Long then EntryAt(side, bars, i, quantity, below, above, horizon)
             else EntryAt(side, bars, i, quantity, above, below, horizon);
    assert k.upper == bars[i].close + above && k.lower == bars[i].close - below;
    ExitFollowsTouch(bars, atr, horizon, k, i, p, i + 1, verdict, t1);
  }

  /** A short trade entered at bar `i`'s close, stopped at the label's upper level and with its target at the lower
      one, leaves on bar t1, by stop, target or time exactly as the label is +1, -1 or 0. */
  lemma ShortTradeIsTheLabel(bars: seq<Bar>, atr: seq<Option<real>>, horizon: nat, tpMult: real, slMult: real, i: nat,
                             quantity: real, verdict: int, t1: int)
    requires |bars| == |atr| && i + horizon < |bars| && atr[i].Some? && atr[i].value > 0.0 && horizon > 0
    requires IsLabel(SeriesOf(bars, atr), horizon, tpMult, slMult, i, verdict, t1)
    ensures var p := EntryAt(Short, bars, i, quantity, Reach(atr, i, tpMult), Reach(atr, i, slMult), horizon);
            var exit := ExitBar(p, bars, i + 1);
            && exit.Some? && exit.value.0 == t1
            && (exit.value.1 == StopLoss <==> verdict == 1)
            && (exit.value.1 == TakeProfit <==> verdict == -1)
            && (exit.value.1 == TimeExit <==> verdict == 0)
  {
    ExitFollowsLabel(bars, atr, horizon, tpMult, slMult, i, Short, quantity, verdict, t1);
  }

  /** A long trade with the label's own multipliers leaves on bar t1 too, with the signs swapped; the only
      disagreement is a bar that straddles both levels, labelled +1 but stopped out. */
  lemma LongTradeIsTheLabel(bars: seq<Bar>, atr: seq<Option<real>>, horizon: nat, tpMult: real, slMult: real, i: nat,
                            quantity: real, verdict: int, t1: int)
    requires |bars| == |atr| && i + horizon < |bars| && atr[i].Some? && atr[i].value > 0.0 && horizon > 0
    requires IsLabel(SeriesOf(bars, atr), horizon, tpMult, slMult, i, verdict, t1)
    ensures var p := EntryAt(Long, bars, i, quantity, Reach(atr, i, slMult), Reach(atr, i, tpMult), horizon);
            var exit, straddles := ExitBar(p, bars, i + 1), Straddles(bars, atr, i, tpMult, slMult, t1);
            && exit.Some? && exit.value.0 == t1
            && (exit.value.1 == TakeProfit <==> verdict == 1 && !straddles)
            && (exit.value.1 == StopLoss <==> verdict == -1 || (verdict == 1 && straddles))
            && (exit.value.1 == TimeExit <==> verdict == 0)
  {
    ExitFollowsLabel(bars, atr, horizon, tpMult, slMult, i, Long, quantity, verdict, t1);
  }

  /** The engine's short, with its stop at the stop multiplier and its target at the target multiplier, is not
      the label's as soon as the multipliers differ: on two bars, the second rising by the smaller multiple, one
      of them has been stopped and the other has not. */
  lemma ShortNeedsEqualMultipliers(close: real, a: real, tpMult: real, slMult: real, quantity: real)
    returns (bars: seq<Bar>, atr: seq<Option<real>>, verdict: int)
    requires a > 0.0 && tpMult > 0.0 && slMult > 0.0 && tpMult != slMult
    ensures |bars| == |atr| == 2 && atr[0] == Some(a) && bars[0].close == close
    ensures IsLabel(SeriesOf(bars, atr), 1, tpMult, slMult, 0, verdict, 1)
    ensures var p := EntryAt(Short, bars, 0, quantity, Reach(atr, 0, slMult), Reach(atr, 0, tpMult), 1);
            && ExitBar(p, bars, 1).Some? && ExitBar(p, bars, 1).value.0 == 1
            && ExitBar(p, bars, 1).value.1 != ShortReason(verdict)
  {
    hide Reach, IsLabel, ExitBar, EntryAt;
    atr := [Some(a), Some(a)];
    var up, down := Reach(atr, 0, tpMult), Reach(atr, 0, slMult);
    ReachesDiffer(atr, tpMult, slMult);
    bars := Rise(close, Min(up, down));
    verdict := if up < down then 1 else 0;
    LabelOfRise(bars, atr, tpMult, slMult, up, down);
    ExitOfRise(bars, quantity, up, down);
  }

  lemma ReachesDiffer(atr: seq<Option<real>>, b: real, c: real)
    requires atr != [] && atr[0].Some? && atr[0].value > 0.0 && b > 0.0 && c > 0.0 && b != c
    ensures Reach(atr, 0, b) > 0.0 && Reach(atr, 0, c) > 0.0 && Reach(atr, 0, b) != Reach(atr, 0, c)
  {
    ProductPositive(b, atr[0].value);
    ProductPositive(c, atr[0].value);
    MultiplesDiffer(b, c, atr[0].value);
  }

  /** A bar that stands still, and one that only rises. */
  function Rise(close: real, move: real): seq<Bar> {
    [Bar(0, close, close, close, close, 0.0), Bar(1, close, close + move, close, close, 0.0)]
  }

  lemma LabelOfRise(bars: seq<Bar>, atr: seq<Option<real>>, tpMult: real, slMult: real, up: real, down: real)
    requires |bars| == |atr| == 2 && atr[0].Some? && atr[0].value > 0.0 && up > 0.0 && down > 0.0 && up != down
    requires up == Reach(atr, 0, tpMult) && down == Reach(atr, 0, slMult)
    requires bars == Rise(bars[0].close, Min(up, down))
    ensures IsLabel(SeriesOf(bars, atr), 1, tpMult, slMult, 0, if up < down then 1 else 0, 1)
  {
    var s, k := SeriesOf(bars, atr), Levels(bars[0].close + up, bars[0].close - down);
    assert LevelsAt(s, 0, tpMult, slMult) == k;
    TouchOfRise(s, k);
  }

  lemma TouchOfRise(s: Series, k: Levels)
    requires Rectangular(s) && |s.close| == 2 && s.low[1] > k.lower
    ensures FirstTouch(s, k, 0, 1, if s.high[1] >= k.upper then 1 else 0, 1)
  {}

  lemma ExitOfRise(bars: seq<Bar>, quantity: real, up: real, down: real)
    requires |bars| == 2 && up > 0.0 && down > 0.0 && up != down && bars == Rise(bars[0].close, Min(up, down))
    ensures ExitBar(EntryAt(Short, bars, 0, quantity, down, up, 1), bars, 1)
            == Some((1, if up < down then TimeExit else StopLoss))
  {}

  lemma MultiplesDiffer(b: real, c: real, a: real)
    requires a > 0.0
    ensures b < c ==> b * a < c * a
    ensures b > c ==> b * a > c * a
  {
    Distribute(b, c, a);
    if b < c { ProductPositive(c - b, a); Distribute(c, b, a); } else if b > c { ProductPositive(b - c, a); }
  }

  /** No signal on bars `from .. to` is against `side`. */
  predicate NeverOpposed(side: Side, seen: seq<Seen>, from: nat, to: nat) {
    forall k :: from <= k < to && k < |seen| && seen[k].signal.Some? ==> seen[k].signal.value.side in {Flat, side}
  }

  /** The position after bars `from .. to`, none of which ends it. */
  function Managed(p: Position, bars: seq<Bar>, from: nat, to: nat): Position
    requires from <= to <= |bars|
  {
    if from == to then p
    else
      var q := Managed(p, bars, from, to - 1);
      Excursion(Aged(q), bars[to - 1].high, bars[to - 1].low)
  }

  lemma {:induction false} ExitBarSplits(p: Position, bars: seq<Bar>, from: nat, to: nat)
    requires from <= to <= |bars|
    requires ExitBar(p, bars, from).None? || ExitBar(p, bars, from).value.0 >= to
    ensures ExitBar(p, bars, from) == ExitBar(Managed(p, bars, from, to), bars, to)
  {
    if from < to {
      ExitBarSplits(p, bars, from, to - 1);
    }
  }

  /** The engine holds its position through bars `from .. to`. */
  ghost predicate HoldsThrough(cfg: Settings, e: Eng, bars: seq<Bar>, seen: seq<Seen>, from: nat, to: nat)
    requires from <= to <= |bars| == |seen|
  {
    forall k: nat :: from <= k <= to ==> Followed(cfg, e, bars, seen, from, k).book.position.Some?
  }

  lemma ManagedKeepsSide(p: Position, bars: seq<Bar>, from: nat, to: nat)
    requires from <= to <= |bars|
    ensures Managed(p, bars, from, to).side == p.side
  {}

  /** A bar that neither ends the position nor brings a signal against it only ages the position. */
  lemma UnopposedBar(cfg: Settings, e: Eng, bar: Bar, signal: Option<Signal>, atr: real)
    requires e.book.position.Some? && BarrierExit(Aged(e.book.position.value), bar).None?
    requires signal.Some? ==> signal.value.side in {Flat, e.book.position.value.side}
    ensures var book := PaperBar(cfg, e, bar, signal, atr).book;
            && book.position == Some(Excursion(Aged(e.book.position.value), bar.high, bar.low))
            && book.trades == e.book.trades
  {
    hide BarrierExit, Risk.SizeOrder, Equity;
  }

  lemma {:induction false} EngineStays(cfg: Settings, e: Eng, bars: seq<Bar>, seen: seq<Seen>,
                                       from: nat, to: nat)
    requires e.book.position.Some? && from <= to <= |bars| == |seen|
    requires NeverOpposed(e.book.position.value.side, seen, from, to)
    requires var exit := ExitBar(e.book.position.value, bars, from); exit.None? || to <= exit.value.0
    ensures var book := Followed(cfg, e, bars, seen, from, to).book;
            book.position == Some(Managed(e.book.position.value, bars, from, to)) && book.trades == e.book.trades
  {
    hide BarrierExit, Excursion, PaperBar;
    if from < to {
      EngineStays(cfg, e, bars, seen, from, to - 1);
      ExitBarSplits(e.book.position.value, bars, from, to - 1);
      ManagedKeepsSide(e.book.position.value, bars, from, to - 1);
      UnopposedBar(cfg, Followed(cfg, e, bars, seen, from, to - 1), bars[to - 1], seen[to - 1].signal,
                   seen[to - 1].atr);
    }
  }

  predicate EntersAt(signal: Option<Signal>) { signal.Some? && signal.value.side != Flat }

  lemma ManagedExit(cfg: Settings, e: Eng, bar: Bar, leave: Leave)
    requires e.book.position.Some? && BarrierExit(Aged(e.book.position.value), bar) == Some(leave)
    ensures var after, n := PaperManaged(cfg, e, bar), |e.book.trades|;
            && |after.book.trades| == n + 1 && after.book.trades[..n] == e.book.trades && after.book.position.None?
            && after.book.trades[n].reason == leave.reason && after.book.trades[n].exitTime == bar.time
            && (e.tradesSeen <= n ==> after.cooldown == cfg.setup.risk.cooldownBars)
  {}

  lemma EntryTakesNoTrade(cfg: Settings, e: Eng, bar: Bar, signal: Option<Signal>, atr: real)
    requires e.book.position.None? && Decide(cfg, e, bar, signal, atr).Enter?
    ensures var order := Decide(cfg, e, bar, signal, atr).order;
            var after := PaperEntry(cfg, e, order, bar);
            && after.Some? && after.value.book.trades == e.book.trades && e.cooldown == 0 && EntersAt(signal)
  {}

  /** A bar that ends the position books its trade whatever the signal; only a fresh entry, with no
      cooldown to wait for, can follow on the same bar. */
  lemma ExitOnBar(cfg: Settings, e: Eng, bar: Bar, leave: Leave, signal: Option<Signal>, atr: real)
    requires e.book.position.Some? && BarrierExit(Aged(e.book.position.value), bar) == Some(leave)
    ensures var after, n := PaperBar(cfg, e, bar, signal, atr).book, |e.book.trades|;
            && |after.trades| == n + 1 && after.trades[..n] == e.book.trades
            && after.trades[n].reason == leave.reason && after.trades[n].exitTime == bar.time
            && (after.position.Some? ==> EntersAt(signal))
            && (after.position.Some? && e.tradesSeen <= n ==> cfg.setup.risk.cooldownBars == 0)
  {
    hide BarrierExit, PaperManaged, PaperEntry, Decide, Equity;
    var managed := PaperManaged(cfg, e, bar);
    ManagedExit(cfg, e, bar, leave);
    DecidedWhileFlat(cfg, managed, bar, signal, atr);
    if Decide(cfg, managed, bar, signal, atr).Enter? { EntryTakesNoTrade(cfg, managed, bar, signal, atr); }
  }

  lemma DecidedWhileFlat(cfg: Settings, e: Eng, bar: Bar, signal: Option<Signal>, atr: real)
    requires e.book.position.None?
    ensures !Decide(cfg, e, bar, signal, atr).Exit?
  {}

  lemma ExitsHere(p: Position, bars: seq<Bar>, j: nat)
    requires j < |bars| && ExitBar(p, bars, j).Some? && ExitBar(p, bars, j).value.0 == j
    ensures BarrierExit(Aged(p), bars[j]).Some? && BarrierExit(Aged(p), bars[j]).value.reason
            == ExitBar(p, bars, j).value.1
  {
    if BarrierExit(Aged(p), bars[j]).None? {
      ExitBarRange(Excursion(Aged(p), bars[j].high, bars[j].low), bars, j + 1);
    }
  }

  lemma {:induction false} ExitBarRange(p: Position, bars: seq<Bar>, j: nat)
    requires ExitBar(p, bars, j).Some?
    ensures j <= ExitBar(p, bars, j).value.0 < |bars|
    decreases |bars| - j
  {
    if BarrierExit(Aged(p), bars[j]).None? {
      ExitBarRange(Excursion(Aged(p), bars[j].high, bars[j].low), bars, j + 1);
    }
  }

  /** The live engine itself, given any signals that never oppose the position before that bar, keeps the
      position through every earlier bar and books one trade, with that reason, on the bar that `ExitBar`
      names, whatever the signal there. */
  lemma EngineLeavesOnExitBar(cfg: Settings, e: Eng, bars: seq<Bar>, seen: seq<Seen>, from: nat)
    requires e.book.position.Some? && from <= |bars| == |seen| && ExitBar(e.book.position.value, bars, from).Some?
    requires NeverOpposed(e.book.position.value.side, seen, from, ExitBar(e.book.position.value, bars, from).value.0)
    ensures var (t1, reason) := ExitBar(e.book.position.value, bars, from).value;
            && from <= t1 < |bars|
            && HoldsThrough(cfg, e, bars, seen, from, t1)
            && var after, n := Followed(cfg, e, bars, seen, from, t1 + 1).book, |e.book.trades|;
            && |after.trades| == n + 1 && after.trades[..n] == e.book.trades
            && after.trades[n].reason == reason && after.trades[n].exitTime == bars[t1].time
            && (after.position.Some? ==> EntersAt(seen[t1].signal))
  {
    hide BarrierExit, Excursion, PaperBar, ExitBar, Managed, EntersAt;
    var p := e.book.position.value;
    ExitBarRange(p, bars, from);
    var (t1, reason) := ExitBar(p, bars, from).value;
    forall to: nat | from <= to <= t1 ensures Followed(cfg, e, bars, seen, from, to).book.position.Some? {
      EngineStays(cfg, e, bars, seen, from, to);
    }
    EngineStays(cfg, e, bars, seen, from, t1);
    ExitBarSplits(p, bars, from, t1);
    var q := Managed(p, bars, from, t1);
    ExitsHere(q, bars, t1);
    ExitOnBar(cfg, Followed(cfg, e, bars, seen, from, t1), bars[t1], BarrierExit(Aged(q), bars[t1]).value,
              seen[t1].signal, seen[t1].atr);
  }

  lemma CostlessFill(order: Order, base: real, exec: ExecConfig)
    requires exec.slippageBps == 0.0
    ensures CostModel.ApplyCosts(order, base, exec).price == base
  {}

  /** Without slippage the engine's own entry is the position the label describes. */
  lemma CostlessEntry(cfg: Settings, e: Eng, bars: seq<Bar>, atr: seq<Option<real>>, i: nat, signal: Signal)
    requires |bars| == |atr| && i < |bars| && atr[i].Some? && cfg.exec.slippageBps == 0.0
    requires Decide(cfg, e, bars[i], Some(signal), atr[i].value).Enter?
    ensures atr[i].value > 0.0 && signal.side != Flat
    ensures var order := Decide(cfg, e, bars[i], Some(signal), atr[i].value).order;
            var e' := PaperEntry(cfg, e, order, bars[i]);
            && e'.Some? && e'.value.book.trades == e.book.trades
            && e'.value.book.position
               == Some(EntryAt(signal.side, bars, i, order.quantity, Reach(atr, i, cfg.setup.barriers.slMult),
                               Reach(atr, i, cfg.setup.barriers.tpMult), cfg.setup.barriers.horizon))
  {
    hide Risk.SizeOrder, Equity;
    EntryOrderTerms(cfg.setup, signal, bars[i], atr[i].value, Equity(e.book, bars[i].close));
    var order := Decide(cfg, e, bars[i], Some(signal), atr[i].value).order;
    CostlessFill(order, bars[i].close, cfg.exec);
    assert order.stopDistance == Reach(atr, i, cfg.setup.barriers.slMult);
    assert order.tpDistance == Reach(atr, i, cfg.setup.barriers.tpMult);
  }

  lemma EntryOrderTerms(setup: RiskSetup, signal: Signal, bar: Bar, atr: real, equity: real)
    requires Risk.SizeOrder(setup, signal, bar, atr, equity, false).Some?
    ensures var o := Risk.SizeOrder(setup, signal, bar, atr, equity, false).value;
            && atr > 0.0 && o.side == signal.side != Flat && o.time == bar.time
            && o.maxHoldBars == setup.barriers.horizon
            && o.stopDistance == setup.barriers.slMult * atr && o.tpDistance == setup.barriers.tpMult * atr
  {}

  /** End to end: with zero slippage and no signal against it before bar t1, the trade the live engine enters on
      bar `i` stays open until bar t1, where it leaves for the reason the label names: a long with the label's
      multipliers whatever they are, a short when they are equal. */
  lemma EngineTradeIsTheLabel(cfg: Settings, e: Eng, bars: seq<Bar>, seen: seq<Seen>, atr: seq<Option<real>>,
                              i: nat, signal: Signal, verdict: int, t1: int)
    requires |bars| == |atr| == |seen| && cfg.exec.slippageBps == 0.0
    requires signal.side == Long || cfg.setup.barriers.tpMult == cfg.setup.barriers.slMult
    requires cfg.setup.barriers.horizon > 0 && i + cfg.setup.barriers.horizon < |bars| && atr[i].Some?
    requires Decide(cfg, PaperManaged(cfg, e, bars[i]), bars[i], Some(signal), atr[i].value).Enter?
    requires IsLabel(SeriesOf(bars, atr), cfg.setup.barriers.horizon, cfg.setup.barriers.tpMult,
                     cfg.setup.barriers.slMult, i, verdict, t1)
    requires NeverOpposed(signal.side, seen, i + 1, t1)
    ensures i < t1 < |bars|
    ensures var entered := PaperBar(cfg, e, bars[i], Some(signal), atr[i].value);
            var n := |entered.book.trades|;
            && HoldsThrough(cfg, entered, bars, seen, i + 1, t1)
            && var after := Followed(cfg, entered, bars, seen, i + 1, t1 + 1).book;
            && |after.trades| == n + 1 && after.trades[..n] == entered.book.trades
            && after.trades[n].exitTime == bars[t1].time
            && after.trades[n].reason
               == (if signal.side == Short then ShortReason(verdict)
                   else LongReason(verdict, Straddles(bars, atr, i, cfg.setup.barriers.tpMult,
                                                      cfg.setup.barriers.slMult, t1)))
            && (after.position.Some? ==> EntersAt(seen[t1].signal))
  {
    hide PaperManaged, ShortReason, LongReason, BarrierExit;
    var managed := PaperManaged(cfg, e, bars[i]);
    CostlessEntry(cfg, managed, bars, atr, i, signal);
    var order := Decide(cfg, managed, bars[i], Some(signal), atr[i].value).order;
    var entered := PaperBar(cfg, e, bars[i], Some(signal), atr[i].value);
    ExitFollowsLabel(bars, atr, cfg.setup.barriers.horizon, cfg.setup.barriers.tpMult, cfg.setup.barriers.slMult, i,
                     signal.side, order.quantity, verdict, t1);
    EngineLeavesOnExitBar(cfg, entered, bars, seen, i + 1);
  }
}
