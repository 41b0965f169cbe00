/** Feature columns: which of their inputs a value depends on. */
module Columns {
  import opened Types
  import opened Arith
  import opened Smoothing
  import Fractional = FractionalDifference

  /** `f` gives one value per input, and value `t` depends on the inputs up to `t` only. */
  ghost predicate Causal<A(!new), B(!new)>(f: seq<A> -> seq<B>) {
    && (forall s :: |f(s)| == |s|)
    && (forall s: seq<A>, end: nat :: 1 <= end <= |s| ==> f(s)[end - 1] == f(s[..end])[end - 1])
  }

  /** Moreover value `t` depends on the last `r` of them only: cutting off any others changes nothing. */
  ghost predicate Local<A(!new), B(!new)>(f: seq<A> -> seq<B>, r: nat) {
    && r >= 1 && Causal(f)
    && (forall s: seq<A>, c: nat, end: nat :: c + r <= end <= |s| ==> f(s)[end - 1] == f(s[c..end])[end - 1 - c])
  }

  /** What a causal column has computed is not changed by later inputs. */
  lemma CausalIsPrefixStable<A(!new), B(!new)>(f: seq<A> -> seq<B>, s: seq<A>, k: nat)
    requires Causal(f) && k <= |s|
    ensures f(s[..k]) == f(s)[..k]
  {
    forall t: nat | t < k ensures f(s[..k])[t] == f(s)[t] {
      assert s[..k][..t + 1] == s[..t + 1];
      assert f(s)[t] == f(s[..t + 1])[t];
    }
  }

  lemma CausalComposes<A(!new), B(!new), C(!new)>(f: seq<A> -> seq<B>, g: seq<B> -> seq<C>)
    requires Causal(f) && Causal(g)
    ensures Causal(s => g(f(s)))
  {
    var h := s => g(f(s));
    forall s: seq<A>, end: nat | 1 <= end <= |s| ensures h(s)[end - 1] == h(s[..end])[end - 1] {
      CausalIsPrefixStable(f, s, end);
      assert g(f(s))[end - 1] == g(f(s)[..end])[end - 1];
    }
  }

  /** Inside a window, the values of a local column past its own warm-up are those of the whole series. */
  lemma WindowAgrees<A(!new), B(!new)>(f: seq<A> -> seq<B>, r: nat, s: seq<A>, c: nat, t: nat)
    requires Local(f, r) && c + r <= t + 1 <= |s|
    ensures f(s)[c + (r - 1)..t + 1] == f(s[c..t + 1])[r - 1..]
  {
    var v := f(s[c..t + 1]);
    forall k: nat | c + (r - 1) <= k <= t ensures f(s)[k] == v[k - c] {
      assert f(s)[k] == f(s[c..k + 1])[k - c];
      assert s[c..t + 1][..k - c + 1] == s[c..k + 1];
      assert v[k - c] == f(s[c..t + 1][..k - c + 1])[k - c];
    }
  }

  lemma ComposedWindow<A(!new), B(!new), C(!new)>(f: seq<A> -> seq<B>, r1: nat, g: seq<B> -> seq<C>, r2: nat,
                                                  s: seq<A>, c: nat, end: nat)
    requires Local(f, r1) && Local(g, r2) && c + (r1 + r2 - 1) <= end <= |s|
    ensures g(f(s))[end - 1] == g(f(s[c..end]))[end - 1 - c]
  {
    var u, v, d := f(s), f(s[c..end]), r1 - 1;
    WindowAgrees(f, r1, s, c, end - 1);
    assert v[d..end - c] == v[d..];
    assert g(u)[end - 1] == g(u[c + d..end])[end - 1 - (c + d)];
    assert g(v)[end - c - 1] == g(v[d..end - c])[end - c - 1 - d];
  }

  /** Windows add up: a column of width r2 over a column of width r1 has width r1 + r2 - 1. */
  lemma LocalComposes<A(!new), B(!new), C(!new)>(f: seq<A> -> seq<B>, r1: nat, g: seq<B> -> seq<C>, r2: nat)
    requires Local(f, r1) && Local(g, r2)
    ensures Local(s => g(f(s)), r1 + r2 - 1)
  {
    var h := s => g(f(s));
    CausalComposes(f, g);
    forall s: seq<A>, c: nat, end: nat | c + (r1 + r2 - 1) <= end <= |s|
      ensures h(s)[end - 1] == h(s[c..end])[end - 1 - c]
    {
      ComposedWindow(f, r1, g, r2, s, c, end);
    }
  }

  // ---------------------------------------------------------------- columns of the feature engine

  /** `rolling(w, min_periods=w)` of a statistic: undefined in the warm-up and next to undefined inputs. */
  function Rolled(stat: seq<real> -> real, w: nat, s: seq<Option<real>>): (r: seq<Option<real>>)
    requires w >= 1
    ensures |r| == |s|
  {
    seq(|s|, t requires 0 <= t < |s| => RolledAt(stat, w, s, t))
  }

  function RolledAt(stat: seq<real> -> real, w: nat, s: seq<Option<real>>, t: nat): Option<real>
    requires w >= 1 && t < |s|
  {
    if t + 1 < w then None else Statistic(stat, s[t + 1 - w..t + 1])
  }

  function Statistic(stat: seq<real> -> real, window: seq<Option<real>>): Option<real> {
    if exists k :: 0 <= k < |window| && window[k].None? then None
    else Some(stat(seq(|window|, k requires 0 <= k < |window| => window[k].value)))
  }

  lemma RolledWindow(stat: seq<real> -> real, w: nat, s: seq<Option<real>>, c: nat, t: nat)
    requires w >= 1 && c <= t < |s| && (c == 0 || c + w <= t + 1)
    ensures RolledAt(stat, w, s, t) == RolledAt(stat, w, s[c..t + 1], t - c)
  {
    hide Statistic;
    if t + 1 >= w {
      SameWindow(s, c, t, w);
    }
  }

  lemma SameWindow<A>(s: seq<A>, c: nat, t: nat, w: nat)
    requires t < |s| && w >= 1 && c + w <= t + 1
    ensures s[t + 1 - w..t + 1] == s[c..t + 1][t - c + 1 - w..t - c + 1]
  {}

  lemma RolledIsLocal(stat: seq<real> -> real, w: nat)
    requires w >= 1
    ensures Local((s: seq<Option<real>>) => Rolled(stat, w, s), w)
  {
    hide RolledAt;
    forall s: seq<Option<real>>, c: nat, end: nat | c + w <= end <= |s|
      ensures Rolled(stat, w, s)[end - 1] == Rolled(stat, w, s[c..end])[end - 1 - c]
    {
      RolledWindow(stat, w, s, c, end - 1);
    }
    forall s: seq<Option<real>>, end: nat | 1 <= end <= |s|
      ensures Rolled(stat, w, s)[end - 1] == Rolled(stat, w, s[..end])[end - 1]
    {
      RolledWindow(stat, w, s, 0, end - 1);
      assert s[0..end] == s[..end];
    }
  }

  /** `shift(k)`. */
  function Lagged(k: nat, s: seq<Option<real>>): seq<Option<real>> {
    seq(|s|, t requires 0 <= t < |s| => if t < k then None else s[t - k])
  }

  lemma LaggedIsLocal(k: nat)
    ensures Local((s: seq<Option<real>>) => Lagged(k, s), k + 1)
  {}

  datatype Traded = Traded(close: real, volume: real)

  /** Signed volume of bar `t`; the first bar has no previous close and counts nothing. */
  function Flow(s: seq<Traded>, t: nat): real
    requires t < |s|
  {
    if t == 0 then 0.0 else (Sign(s[t].close - s[t - 1].close) as real) * s[t].volume
  }

  /** On-balance volume: the running sum since the first bar of the frame. */
  function Obv(s: seq<Traded>, t: nat): real
    requires t < |s|
  {
    if t == 0 then Flow(s, 0) else Obv(s, t - 1) + Flow(s, t)
  }

  function ObvChange(s: seq<Traded>): (r: seq<Option<real>>)
    ensures |r| == |s|
  {
    seq(|s|, t requires 0 <= t < |s| => if t == 0 then None else Some(Obv(s, t) - Obv(s, t - 1)))
  }

  lemma ObvChangeIsFlow(s: seq<Traded>, t: nat)
    requires t < |s|
    ensures ObvChange(s)[t] == if t == 0 then None else Some(Flow(s, t))
  {
    hide Flow;
  }

  lemma SameFlow(s: seq<Traded>, c: nat, t: nat)
    requires c < t < |s|
    ensures Flow(s, t) == Flow(s[c..t + 1], t - c)
  {}

  lemma ObvWindow(s: seq<Traded>, c: nat, t: nat)
    requires c <= t < |s| && (c == 0 || c < t)
    ensures ObvChange(s)[t] == ObvChange(s[c..t + 1])[t - c]
  {
    hide Flow, ObvChange;
    ObvChangeIsFlow(s, t);
    ObvChangeIsFlow(s[c..t + 1], t - c);
    if c < t { SameFlow(s, c, t); }
  }

  /** On-balance volume depends on where the frame starts; its differences do not. */
  lemma ObvChangeIsLocal()
    ensures Local(ObvChange, 2)
  {
    hide Flow, ObvChange;
    forall s: seq<Traded>, c: nat, end: nat | c + 2 <= end <= |s|
      ensures ObvChange(s)[end - 1] == ObvChange(s[c..end])[end - 1 - c]
    {
      ObvWindow(s, c, end - 1);
    }
    forall s: seq<Traded>, end: nat | 1 <= end <= |s| ensures ObvChange(s)[end - 1] == ObvChange(s[..end])[end - 1] {
      ObvWindow(s, 0, end - 1);
      assert s[0..end] == s[..end];
    }
  }

  function FracdiffRow(d: real, window: nat, s: seq<real>): (r: seq<Option<real>>)
    ensures |r| == |s|
  {
    if s == [] then [] else Fractional.Fracdiff(s, d, window).value
  }

  lemma FracdiffWindow(d: real, window: nat, s: seq<real>, c: nat, t: nat)
    requires window >= 1 && c <= t < |s| && (c == 0 || c + window <= t + 1)
    ensures FracdiffRow(d, window, s)[t] == FracdiffRow(d, window, s[c..t + 1])[t - c]
  {
    hide Fractional.Dot, Fractional.Weights;
    Fractional.FilterSeesItsWindow(s, d, window, t);
    Fractional.FilterSeesItsWindow(s[c..t + 1], d, window, t - c);
    if t + 1 >= window { SameWindow(s, c, t, window); }
  }

  lemma FracdiffIsLocal(d: real, window: nat)
    requires window >= 1
    ensures Local((s: seq<real>) => FracdiffRow(d, window, s), window)
  {
    hide FracdiffRow;
    forall s: seq<real>, c: nat, end: nat | c + window <= end <= |s|
      ensures FracdiffRow(d, window, s)[end - 1] == FracdiffRow(d, window, s[c..end])[end - 1 - c]
    {
      FracdiffWindow(d, window, s, c, end - 1);
    }
    forall s: seq<real>, end: nat | 1 <= end <= |s|
      ensures FracdiffRow(d, window, s)[end - 1] == FracdiffRow(d, window, s[..end])[end - 1]
    {
      FracdiffWindow(d, window, s, 0, end - 1);
      assert s[0..end] == s[..end];
    }
  }

  /** Smoothings see everything up to their bar, and nothing after it. */
  function EmaColumn(alpha: real, s: seq<real>): seq<real> {
    seq(|s|, t requires 0 <= t < |s| => Ema(alpha, s[..t + 1]))
  }

  function RmaColumn(period: nat, s: seq<real>): seq<Option<real>>
    requires period >= 1
  {
    seq(|s|, t requires 0 <= t < |s| => Rma(period, s[..t + 1]))
  }

  lemma SmoothedIsCausal(alpha: real, period: nat)
    requires period >= 1
    ensures Causal((s: seq<real>) => EmaColumn(alpha, s))
    ensures Causal((s: seq<real>) => RmaColumn(period, s))
  {
    hide Ema, Rma;
    forall s: seq<real>, end: nat | 1 <= end <= |s|
      ensures EmaColumn(alpha, s)[end - 1] == EmaColumn(alpha, s[..end])[end - 1]
      ensures RmaColumn(period, s)[end - 1] == RmaColumn(period, s[..end])[end - 1]
    {
      assert s[..end][..end] == s[..end];
    }
  }
}
