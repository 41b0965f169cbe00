/** The controller's circuit breaker: risk check on every engine update, flatten-and-halt, resume. */
module CircuitBreaker {
  import opened Types
  import opened Arith
  import Dd = Drawdown

  datatype Limits = Limits(maxDailyLoss: real, maxDrawdown: real)

  /** One engine update: the equity of every engine, and the UTC day. */
  datatype Sample = Sample(equities: seq<real>, day: int)

  datatype Breach = DailyLoss | DrawdownHit

  datatype Breaker = Breaker(
    halted: bool, active: bool, peak: Option<real>, dayStart: Option<real>, day: Option<int>)

  /** A number that the source's truth tests accept. */
  predicate Truthy(x: Option<real>) { x.Some? && x.value != 0.0 }

  /** Neither halted nor active, with a baseline for the day's loss and one for the drawdown. */
  function Idle(start: real, peak: real, day: int): Breaker {
    Breaker(false, false, Some(peak), Some(start), Some(day))
  }

  function Armed(equity: real, day: int): Breaker { Idle(equity, equity, day) }

  /** Baselines as of a positive aggregate equity `eq`: a new day starts both afresh. */
  function Rebased(b: Breaker, eq: real, day: int): Breaker {
    var b1 := if b.day == Some(day) then b else b.(day := Some(day), dayStart := Some(eq), peak := Some(eq));
    b1.(peak := Some(Max(if Truthy(b1.peak) then b1.peak.value else eq, eq)))
  }

  function RiskBreach(l: Limits, b: Breaker, s: Sample): (Breaker, Option<Breach>) {
    var eq := Total(s.equities);
    if s.equities == [] || b.halted || eq <= 0.0 then (b, None)
    else
      var b2 := Rebased(b, eq, s.day);
      if l.maxDailyLoss > 0.0 && Truthy(b2.dayStart) && (b2.dayStart.value - eq) / b2.dayStart.value >= l.maxDailyLoss
      then (b2, Some(DailyLoss))
      else if l.maxDrawdown > 0.0 && Truthy(b2.peak) && (b2.peak.value - eq) / b2.peak.value >= l.maxDrawdown
      then (b2, Some(DrawdownHit))
      else (b2, None)
  }

  /** The check, and whether it schedules a flatten. */
  function Check(l: Limits, b: Breaker, s: Sample): (Breaker, bool) {
    if b.halted || b.active then (b, false)
    else
      var (b2, breach) := RiskBreach(l, b, s);
      if breach.Some? then (b2.(active := true), true) else (b2, false)
  }

  function Resumed(b: Breaker, equities: seq<real>): Breaker {
    b.(halted := false, active := false, peak := if Total(equities) != 0.0 then Some(Total(equities)) else b.peak)
  }

  class Controller {
    const limits: Limits
    var halted: bool
    var breakerActive: bool
    var peakEquity: Option<real>
    var dayStartEquity: Option<real>
    var day: Option<int>

    constructor (limits: Limits)
      ensures this.limits == limits && Snapshot() == Breaker(false, false, None, None, None)
    {
      this.limits, halted, breakerActive := limits, false, false;
      peakEquity, dayStartEquity, day := None, None, None;
    }

    ghost function Snapshot(): Breaker
      reads this
    {
      Breaker(halted, breakerActive, peakEquity, dayStartEquity, day)
    }

    method Start(accountEquity: real, today: int)
      modifies this
      ensures Snapshot() == Armed(accountEquity, today)
    {
      halted, breakerActive := false, false;
      peakEquity, dayStartEquity, day := Some(accountEquity), Some(accountEquity), Some(today);
    }

    method Breached(equities: seq<real>, today: int) returns (breach: Option<Breach>)
      modifies this
      ensures (Snapshot(), breach) == RiskBreach(limits, old(Snapshot()), Sample(equities, today))
    {
      if |equities| == 0 || halted {
        return None;
      }
      var eq := Total(equities);
      if eq <= 0.0 {
        return None;
      }
      if day != Some(today) {
        day, dayStartEquity, peakEquity := Some(today), Some(eq), Some(eq);
      }
      var peak := if Truthy(peakEquity) then peakEquity.value else eq;
      peakEquity := Some(Max(peak, eq));
      if limits.maxDailyLoss > 0.0 && Truthy(dayStartEquity) {
        if (dayStartEquity.value - eq) / dayStartEquity.value >= limits.maxDailyLoss {
          return Some(DailyLoss);
        }
      }
      if limits.maxDrawdown > 0.0 && Truthy(peakEquity) {
        if (peakEquity.value - eq) / peakEquity.value >= limits.maxDrawdown {
          return Some(DrawdownHit);
        }
      }
      return None;
    }

    /** Run on every engine update; `scheduled` tells whether a flatten task was created. */
    method CheckCircuitBreaker(equities: seq<real>, today: int) returns (scheduled: bool)
      modifies this
      ensures (Snapshot(), scheduled) == Check(limits, old(Snapshot()), Sample(equities, today))
    {
      if halted || breakerActive {
        return false;
      }
      var breach := Breached(equities, today);
      if breach.Some? {
        breakerActive := true;
        return true;
      }
      return false;
    }

    /** First step of flatten_all, the operator's or the breaker's own. */
    method FlattenAll()
      modifies this`halted
      ensures Snapshot() == old(Snapshot()).(halted := true)
    {
      halted := true;
    }

    method Resume(equities: seq<real>)
      modifies this
      ensures Snapshot() == Resumed(old(Snapshot()), equities)
    {
      halted, breakerActive := false, false;
      if Total(equities) != 0.0 {
        peakEquity := Some(Total(equities));
      }
    }
  }

  // ---------------------------------------------------------------- the first crossing

  /** The breaker after the first `n` updates. */
  function After(l: Limits, b: Breaker, samples: seq<Sample>, n: nat): Breaker
    requires n <= |samples|
  {
    if n == 0 then b else Check(l, After(l, b, samples, n - 1), samples[n - 1]).0
  }

  predicate FiresAt(l: Limits, b: Breaker, samples: seq<Sample>, n: nat)
    requires n < |samples|
  {
    Check(l, After(l, b, samples, n), samples[n]).1
  }

  /** Positive aggregate equity throughout, all on one day. */
  predicate WithinDay(samples: seq<Sample>, day: int) {
    forall k :: 0 <= k < |samples| ==>
      samples[k].equities != [] && samples[k].day == day && Total(samples[k].equities) > 0.0
  }

  /** The drawdown's baseline and the aggregate equity of the first `n` updates. */
  function Curve(peak: real, samples: seq<Sample>, n: nat): (curve: seq<real>)
    requires n <= |samples|
    ensures |curve| == n + 1
  {
    if n == 0 then [peak] else Curve(peak, samples, n - 1) + [Total(samples[n - 1].equities)]
  }

  /** Update `n` is at a limit: the day's loss, or the maximum drawdown of everything since the baseline. */
  predicate AtLimit(l: Limits, start: real, peak: real, samples: seq<Sample>, n: nat)
    requires n < |samples| && start > 0.0
  {
    || (l.maxDailyLoss > 0.0 && Dd.Loss(start, Total(samples[n].equities)) >= l.maxDailyLoss)
    || (l.maxDrawdown > 0.0 && Dd.MaxDrawdown(Curve(peak, samples, n + 1)) >= l.maxDrawdown)
  }

  predicate NoneAtLimit(l: Limits, start: real, peak: real, samples: seq<Sample>, n: nat)
    requires n <= |samples| && start > 0.0
  {
    forall m :: 0 <= m < n ==> !AtLimit(l, start, peak, samples, m)
  }

  /** The idle breaker tracks the running peak. */
  predicate Tracks(b: Breaker, start: real, day: int, curve: seq<real>)
    requires curve != []
  {
    b == Idle(start, Dd.Peak(curve), day)
  }

  /** Before any drawdown limit was reached, the maximum drawdown reaches it at an update exactly when
      the current fall from the peak does. */
  lemma CurrentFall(l: Limits, curve: seq<real>, e: real)
    requires curve != [] && e > 0.0 && l.maxDrawdown > 0.0 && Dd.MaxDrawdown(curve) < l.maxDrawdown
    ensures Dd.MaxDrawdown(curve + [e]) >= l.maxDrawdown <==> Dd.Loss(Max(Dd.Peak(curve), e), e) >= l.maxDrawdown
  {
    hide Dd.Loss;
    var c := curve + [e];
    assert c[..|c| - 1] == curve;
  }

  lemma NextPeak(curve: seq<real>, e: real)
    requires curve != []
    ensures Dd.Peak(curve + [e]) == Max(Dd.Peak(curve), e)
  {
    assert (curve + [e])[..|curve|] == curve;
  }

  /** One update of a tracking breaker. */
  lemma TrackingStep(l: Limits, b: Breaker, start: real, day: int, curve: seq<real>, s: Sample)
    requires start > 0.0 && curve != [] && Tracks(b, start, day, curve)
    requires s.equities != [] && s.day == day && Total(s.equities) > 0.0
    requires l.maxDrawdown > 0.0 ==> Dd.MaxDrawdown(curve) < l.maxDrawdown
    ensures var e := Total(s.equities);
            var (next, fires) := Check(l, b, s);
            && (fires <==> || (l.maxDailyLoss > 0.0 && Dd.Loss(start, e) >= l.maxDailyLoss)
                           || (l.maxDrawdown > 0.0 && Dd.MaxDrawdown(curve + [e]) >= l.maxDrawdown))
            && (fires ==> next.active)
            && (!fires ==> Tracks(next, start, day, curve + [e]))
  {
    hide Dd.MaxDrawdown, Dd.Peak, Total;
    var e := Total(s.equities);
    NextPeak(curve, e);
    if l.maxDrawdown > 0.0 { CurrentFall(l, curve, e); }
  }

  lemma DrawdownBelow(l: Limits, start: real, peak: real, samples: seq<Sample>, n: nat)
    requires n <= |samples| && start > 0.0 && NoneAtLimit(l, start, peak, samples, n) && l.maxDrawdown > 0.0
    ensures Dd.MaxDrawdown(Curve(peak, samples, n)) < l.maxDrawdown
  {
    if n == 0 {
      assert [peak][..0] == [];
      if peak > 0.0 { Dd.LossAtPeak(peak); }
    } else {
      assert !AtLimit(l, start, peak, samples, n - 1);
    }
  }

  /** While no update has been at a limit the breaker tracks the peak; afterwards it stays active. */
  lemma {:induction false} AfterTracks(l: Limits, start: real, peak: real, day: int, samples: seq<Sample>, n: nat)
    requires n <= |samples| && start > 0.0 && WithinDay(samples, day)
    ensures var b := After(l, Idle(start, peak, day), samples, n);
            if NoneAtLimit(l, start, peak, samples, n) then Tracks(b, start, day, Curve(peak, samples, n))
            else b.active
  {
    hide Check, Total, AtLimit, Tracks;
    if n == 0 {
      IdleTracks(start, peak, day);
    } else {
      AfterTracks(l, start, peak, day, samples, n - 1);
      if NoneAtLimit(l, start, peak, samples, n - 1) {
        UpdateAtLimit(l, start, peak, day, samples, n - 1);
      } else {
        ActiveStays(l, After(l, Idle(start, peak, day), samples, n - 1), samples[n - 1]);
      }
    }
  }

  lemma IdleTracks(start: real, peak: real, day: int)
    ensures Tracks(Idle(start, peak, day), start, day, [peak])
  {}

  lemma ActiveStays(l: Limits, b: Breaker, s: Sample)
    requires b.active
    ensures Check(l, b, s) == (b, false)
  {}

  lemma UpdateAtLimit(l: Limits, start: real, peak: real, day: int, samples: seq<Sample>, n: nat)
    requires n < |samples| && start > 0.0 && WithinDay(samples, day) && NoneAtLimit(l, start, peak, samples, n)
    requires Tracks(After(l, Idle(start, peak, day), samples, n), start, day, Curve(peak, samples, n))
    ensures FiresAt(l, Idle(start, peak, day), samples, n) <==> AtLimit(l, start, peak, samples, n)
    ensures var next := Check(l, After(l, Idle(start, peak, day), samples, n), samples[n]).0;
            if AtLimit(l, start, peak, samples, n) then next.active
            else Tracks(next, start, day, Curve(peak, samples, n + 1))
  {
    hide Check, Total, Tracks, Dd.Loss, Dd.MaxDrawdown, Dd.Peak, NoneAtLimit;
    if l.maxDrawdown > 0.0 { DrawdownBelow(l, start, peak, samples, n); }
    TrackingStep(l, After(l, Idle(start, peak, day), samples, n), start, day, Curve(peak, samples, n), samples[n]);
  }

  /** Within a day an idle breaker, whatever its two baselines, fires at exactly the first update at which
      the loss since the day's start, or the maximum drawdown of the peak baseline and every update since,
      reaches its limit. */
  lemma FiresAtFirstCrossing(l: Limits, start: real, peak: real, day: int, samples: seq<Sample>, n: nat)
    requires n < |samples| && start > 0.0 && WithinDay(samples, day)
    ensures FiresAt(l, Idle(start, peak, day), samples, n)
            <==> AtLimit(l, start, peak, samples, n) && NoneAtLimit(l, start, peak, samples, n)
  {
    hide Check, Total, AtLimit, Tracks;
    AfterTracks(l, start, peak, day, samples, n);
    if NoneAtLimit(l, start, peak, samples, n) {
      UpdateAtLimit(l, start, peak, day, samples, n);
    } else {
      ActiveStays(l, After(l, Idle(start, peak, day), samples, n), samples[n]);
    }
  }

  /** For the rest of a day after a resume, the drawdown counts from the equity resumed at and the day's
      loss still from the day's start. */
  lemma FiresAfterResume(l: Limits, b: Breaker, equities: seq<real>, day: int, samples: seq<Sample>, n: nat)
    requires b.day == Some(day) && b.dayStart.Some? && b.dayStart.value > 0.0 && Total(equities) != 0.0
    requires n < |samples| && WithinDay(samples, day)
    ensures FiresAt(l, Resumed(b, equities), samples, n)
            <==> && AtLimit(l, b.dayStart.value, Total(equities), samples, n)
                 && NoneAtLimit(l, b.dayStart.value, Total(equities), samples, n)
  {
    hide Check, Total, AtLimit, NoneAtLimit;
    FiresAtFirstCrossing(l, b.dayStart.value, Total(equities), day, samples, n);
  }

  /** The first update of a new day never fires and arms the breaker afresh with its own equity. */
  lemma NewDayRearms(l: Limits, b: Breaker, s: Sample)
    requires !b.halted && !b.active && b.day != Some(s.day) && s.equities != [] && Total(s.equities) > 0.0
    ensures Check(l, b, s) == (Armed(Total(s.equities), s.day), false)
  {
    Dd.LossAtPeak(Total(s.equities));
  }

  /** The risk check reports a breach if and only if it is not halted, some engine reports, their sum is positive,
      and a limit is reached from its baseline, a new day's baselines being the sum itself; a check that is
      halted, has no engine or no positive sum moves no baseline. */
  lemma RiskBreachExactly(l: Limits, b: Breaker, s: Sample, start: real, peak: real)
    requires start > 0.0 && peak > 0.0
    requires b.day == Some(s.day) ==> b.dayStart == Some(start) && b.peak == Some(peak)
    ensures var e := Total(s.equities);
            && (RiskBreach(l, b, s).1.Some?
                <==> && !b.halted && s.equities != [] && e > 0.0 && b.day == Some(s.day)
                     && ((l.maxDailyLoss > 0.0 && Dd.Loss(start, e) >= l.maxDailyLoss)
                         || (l.maxDrawdown > 0.0 && Dd.Loss(Max(peak, e), e) >= l.maxDrawdown)))
            && (b.halted || s.equities == [] || e <= 0.0 ==> RiskBreach(l, b, s).0 == b)
  {
    hide Total;
    if Total(s.equities) > 0.0 { Dd.LossAtPeak(Total(s.equities)); }
  }

  /** With the account wiped out the breaker neither fires nor moves its baselines, whatever the limits. */
  lemma WipedOutAccountIsIgnored(l: Limits, b: Breaker, s: Sample)
    requires Total(s.equities) <= 0.0
    ensures Check(l, b, s) == (b, false)
  {}

  /** Resuming forgives the drawdown but not the day's loss: the same equity fires again at once. */
  lemma ResumeKeepsTheDaysLoss(l: Limits, b: Breaker, s: Sample)
    requires b.day == Some(s.day) && b.dayStart.Some? && b.dayStart.value > 0.0
    requires s.equities != [] && Total(s.equities) > 0.0
    ensures Check(l, Resumed(b, s.equities), s).1
            <==> l.maxDailyLoss > 0.0 && Dd.Loss(b.dayStart.value, Total(s.equities)) >= l.maxDailyLoss
  {
    Dd.LossAtPeak(Total(s.equities));
  }

  // ---------------------------------------------------------------- one flatten per start or resume

  datatype Event =
    | Started(equity: real, day: int)
    | Updated(s: Sample)
    | FlattenRuns                       // a flatten task or an operator's kill-switch begins
    | ResumedAt(equities: seq<real>)

  function Step(l: Limits, b: Breaker, ev: Event): Breaker {
    match ev
    case Started(equity, day) => Armed(equity, day)
    case Updated(s) => Check(l, b, s).0
    case FlattenRuns => b.(halted := true)
    case ResumedAt(equities) => Resumed(b, equities)
  }

  function Run(l: Limits, b: Breaker, es: seq<Event>): Breaker {
    if es == [] then b else Step(l, Run(l, b, es[..|es| - 1]), es[|es| - 1])
  }

  /** Flatten tasks the breaker schedules over the events. */
  function Scheduled(l: Limits, b: Breaker, es: seq<Event>): nat {
    if es == [] then 0
    else
      var n := |es| - 1;
      Scheduled(l, b, es[..n])
      + (if es[n].Updated? && Check(l, Run(l, b, es[..n]), es[n].s).1 then 1 else 0)
  }

  function Rearms(es: seq<Event>): nat {
    if es == [] then 0
    else Rearms(es[..|es| - 1]) + (if es[|es| - 1].Started? || es[|es| - 1].ResumedAt? then 1 else 0)
  }

  /** On every schedule of updates, flattens, starts and resumes the breaker schedules at most one
      flatten per start or resume; an idle breaker has one to spend before the first. */
  lemma {:induction false} OneFlattenPerRearm(l: Limits, b: Breaker, es: seq<Event>)
    ensures Scheduled(l, b, es) + (if Run(l, b, es).active then 0 else 1) <= Rearms(es) + (if b.active then 0 else 1)
  {
    hide RiskBreach, Total;
    if es != [] { OneFlattenPerRearm(l, b, es[..|es| - 1]); }
  }
}
