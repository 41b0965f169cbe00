/** Triple-barrier labels: which barrier a bar's forward window touches first. */
module TripleBarrier {
  import opened Types

  /** The inputs, bar by bar; an ATR of `None` is NaN or infinite. */
  datatype Series = Series(close: seq<real>, high: seq<real>, low: seq<real>, atr: seq<Option<real>>)

  predicate Rectangular(s: Series) {
    |s.close| == |s.high| == |s.low| == |s.atr|
  }

  datatype Levels = Levels(upper: real, lower: real)

  function LevelsAt(s: Series, i: nat, tpMult: real, slMult: real): Levels
    requires Rectangular(s) && i < |s.close| && s.atr[i].Some?
  {
    LevelsAround(s.close[i], s.atr[i].value, tpMult, slMult)
  }

  function LevelsAround(close: real, atr: real, tpMult: real, slMult: real): Levels {
    Levels(close + tpMult * atr, close - slMult * atr)
  }

  predicate Touches(s: Series, k: Levels, j: nat)
    requires Rectangular(s) && j < |s.close|
  {
    s.high[j] >= k.upper || s.low[j] <= k.lower
  }

  /** No bar of `from .. to` (exclusive) touches a barrier. */
  predicate Untouched(s: Series, k: Levels, from: nat, to: nat)
    requires Rectangular(s) && to <= |s.close|
  {
    forall j :: from <= j < to ==> !Touches(s, k, j)
  }

  /** The first touch in the window i+1 .. i+horizon decides, the upper barrier winning a tie;
      no touch is 0 at the window's end. */
  predicate FirstTouch(s: Series, k: Levels, i: nat, horizon: nat, verdict: int, end: int)
    requires Rectangular(s) && i + horizon < |s.close|
  {
    && i <= end <= i + horizon
    && (verdict == 1 ==> i < end && Untouched(s, k, i + 1, end) && s.high[end] >= k.upper)
    && (verdict == -1 ==> i < end && Untouched(s, k, i + 1, end) && s.high[end] < k.upper && s.low[end] <= k.lower)
    && (verdict == 0 ==> end == i + horizon && Untouched(s, k, i + 1, i + horizon + 1))
    && verdict in {-1, 0, 1}
  }

  /** `verdict` and `end` are the triple-barrier label and window end of bar `i`. */
  predicate IsLabel(s: Series, horizon: nat, tpMult: real, slMult: real, i: nat, verdict: int, end: int)
    requires Rectangular(s) && i < |s.close|
  {
    if i + horizon >= |s.close| then verdict == 0 && end == |s.close| - 1
    else if s.atr[i].None? || s.atr[i].value <= 0.0 then verdict == 0 && end == i + horizon
    else FirstTouch(s, LevelsAt(s, i, tpMult, slMult), i, horizon, verdict, end)
  }

  /** Every bar has exactly one outcome. */
  lemma LabelIsUnique(s: Series, horizon: nat, tpMult: real, slMult: real, i: nat, l1: int, e1: int, l2: int, e2: int)
    requires Rectangular(s) && i < |s.close|
    requires IsLabel(s, horizon, tpMult, slMult, i, l1, e1) && IsLabel(s, horizon, tpMult, slMult, i, l2, e2)
    ensures l1 == l2 && e1 == e2
  {
    if i + horizon < |s.close| && s.atr[i].Some? && s.atr[i].value > 0.0 {
      var k := LevelsAt(s, i, tpMult, slMult);
      assert l1 != 0 ==> Touches(s, k, e1);
      assert l2 != 0 ==> Touches(s, k, e2);
    }
  }

  /** Labels and window ends of a whole series. */
  method MakeTripleBarrierLabels(s: Series, horizon: nat, tpMult: real, slMult: real)
    returns (labels: array<int>, t1: array<int>)
    requires Rectangular(s)
    ensures labels.Length == t1.Length == |s.close|
    ensures forall i :: 0 <= i < |s.close| ==> IsLabel(s, horizon, tpMult, slMult, i, labels[i], t1[i])
  {
    var n := |s.close|;
    labels := new int[n](_ => 0);
    t1 := new int[n](i => i);
    var i := 0;
    while i < n - horizon
      invariant 0 <= i <= n && (i > 0 ==> i <= n - horizon)
      invariant forall m :: 0 <= m < i ==> IsLabel(s, horizon, tpMult, slMult, m, labels[m], t1[m])
      invariant forall m :: i <= m < n ==> labels[m] == 0
    {
      if s.atr[i].None? || s.atr[i].value <= 0.0 {
        t1[i] := i + horizon;
      } else {
        var k := LevelsAt(s, i, tpMult, slMult);
        var verdict, end := 0, i + horizon;
        var j := i + 1;
        while j < i + 1 + horizon
          invariant i + 1 <= j <= i + 1 + horizon
          invariant verdict == 0 && end == i + horizon
          invariant Untouched(s, k, i + 1, j)
        {
          if s.high[j] >= k.upper {
            verdict, end := 1, j;
            break;
          }
          if s.low[j] <= k.lower {
            verdict, end := -1, j;
            break;
          }
          j := j + 1;
        }
        labels[i] := verdict;
        t1[i] := end;
      }
      i := i + 1;
    }
    i := if n >= horizon then n - horizon else 0;
    while i < n
      invariant 0 <= i <= n && n - horizon <= i
      invariant forall m :: 0 <= m < i ==> IsLabel(s, horizon, tpMult, slMult, m, labels[m], t1[m])
      invariant forall m :: i <= m < n ==> labels[m] == 0
    {
      t1[i] := n - 1;
      i := i + 1;
    }
  }

  /** Spans stay inside the series and never run backwards. */
  lemma LabelSpan(s: Series, horizon: nat, tpMult: real, slMult: real, i: nat, verdict: int, end: int)
    requires Rectangular(s) && i < |s.close| && IsLabel(s, horizon, tpMult, slMult, i, verdict, end)
    ensures i <= end <= |s.close| - 1 && end <= i + horizon
  {}

  /** `t` continues `s`. */
  predicate Extends(s: Series, t: Series) {
    && Rectangular(s) && Rectangular(t)
    && s.close <= t.close && s.high <= t.high && s.low <= t.low && s.atr <= t.atr
  }

  lemma SameUntouched(s: Series, t: Series, k: Levels, from: nat, to: nat)
    requires Extends(s, t) && to <= |s.close|
    ensures Untouched(s, k, from, to) <==> Untouched(t, k, from, to)
  {
    assert forall j :: from <= j < to ==> Touches(s, k, j) == Touches(t, k, j);
  }

  lemma SameFirstTouch(s: Series, t: Series, k: Levels, i: nat, horizon: nat, verdict: int, end: int)
    requires Extends(s, t) && i + horizon < |s.close|
    ensures FirstTouch(s, k, i, horizon, verdict, end) <==> FirstTouch(t, k, i, horizon, verdict, end)
  {
    hide Touches, Untouched;
    SameUntouched(s, t, k, i + 1, i + horizon + 1);
    if i <= end <= i + horizon {
      SameUntouched(s, t, k, i + 1, end);
      assert s.high[end] == t.high[end] && s.low[end] == t.low[end];
    }
  }

  /** A bar with its whole window inside the series keeps its label and window end on any longer series. */
  lemma FullWindowIsStable(s: Series, t: Series, horizon: nat, tpMult: real, slMult: real, i: nat, verdict: int,
                           end: int)
    requires Extends(s, t) && i + horizon < |s.close|
    ensures IsLabel(s, horizon, tpMult, slMult, i, verdict, end)
            <==> IsLabel(t, horizon, tpMult, slMult, i, verdict, end)
  {
    hide FirstTouch, LevelsAround;
    assert s.close[i] == t.close[i] && s.atr[i] == t.atr[i];
    if s.atr[i].Some? {
      SameFirstTouch(s, t, LevelsAt(s, i, tpMult, slMult), i, horizon, verdict, end);
    }
  }

  /** The other bars do not: label or window end changes as soon as the window fits, and without a usable
      ATR the end moves. */
  lemma ShortWindowIsNotStable(s: Series, t: Series, horizon: nat, tpMult: real, slMult: real, i: nat,
                               l1: int, e1: int, l2: int, e2: int)
    requires Extends(s, t) && i < |s.close| && |s.close| <= i + horizon < |t.close|
    requires IsLabel(s, horizon, tpMult, slMult, i, l1, e1) && IsLabel(t, horizon, tpMult, slMult, i, l2, e2)
    ensures (l1, e1) != (l2, e2)
    ensures s.atr[i].None? ==> e1 < e2
  {}

  /** A label is the one a longer series gives, once that series holds the whole window, exactly when the
      shorter series held it already. */
  lemma FinalExactly(s: Series, t: Series, horizon: nat, tpMult: real, slMult: real, i: nat, verdict: int, end: int)
    requires Extends(s, t) && i < |s.close| && i + horizon < |t.close|
    requires IsLabel(s, horizon, tpMult, slMult, i, verdict, end)
    ensures IsLabel(t, horizon, tpMult, slMult, i, verdict, end) <==> i + horizon < |s.close|
  {
    hide IsLabel;
    if i + horizon < |s.close| {
      FullWindowIsStable(s, t, horizon, tpMult, slMult, i, verdict, end);
    } else if IsLabel(t, horizon, tpMult, slMult, i, verdict, end) {
      ShortWindowIsNotStable(s, t, horizon, tpMult, slMult, i, verdict, end, verdict, end);
    }
  }
}
