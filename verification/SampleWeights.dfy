/** Average-uniqueness sample weights and the information they conserve. */
module SampleWeights {
  import opened Types
  import opened Arith

  predicate Covers(ends: seq<nat>, i: nat, j: int)
    requires i < |ends|
  {
    i <= j <= ends[i]
  }

  /** How many of the first `m` spans cover bar `j`. */
  function Concurrency(ends: seq<nat>, m: nat, j: int): nat
    requires m <= |ends|
  {
    if m == 0 then 0 else Concurrency(ends, m - 1, j) + (if Covers(ends, m - 1, j) then 1 else 0)
  }

  function Share(c: real): real { 1.0 / Max(c, 1.0) }

  /** Sum of r[a..b). */
  function Sum(r: seq<real>, a: nat, b: nat): real
    requires b <= |r|
  {
    if b <= a then 0.0 else Sum(r, a, b - 1) + r[b - 1]
  }

  /** The information share of each bar: one over its concurrency. */
  function Shares(ends: seq<nat>, bars: nat): (r: seq<real>)
    ensures |r| == bars
    ensures forall j :: 0 <= j < bars ==> r[j] == Share(Concurrency(ends, |ends|, j) as real)
  {
    seq(bars, j requires 0 <= j < bars => Share(Concurrency(ends, |ends|, j) as real))
  }

  function SpanLength(ends: seq<nat>, i: nat): nat
    requires i < |ends|
  {
    if ends[i] < i then 0 else ends[i] - i + 1
  }

  /** Unnormalised weight: the mean share over the span, 1 for an empty span. */
  function Uniqueness(ends: seq<nat>, r: seq<real>, i: nat): real
    requires i < |ends| && ends[i] < |r|
  {
    if SpanLength(ends, i) == 0 then 1.0 else Sum(r, i, ends[i] + 1) / (SpanLength(ends, i) as real)
  }

  /** All unnormalised weights. */
  function RawWeights(ends: seq<nat>, bars: nat): seq<real>
    requires forall i :: 0 <= i < |ends| ==> ends[i] < bars
  {
    seq(|ends|, i requires 0 <= i < |ends| => Uniqueness(ends, Shares(ends, bars), i))
  }

  // ---------------------------------------------------------------- double counting

  /** Sum over the first `m` spans of the information they hold. */
  function Held(ends: seq<nat>, r: seq<real>, m: nat): real
    requires m <= |ends| && forall i :: 0 <= i < |ends| ==> ends[i] < |r|
  {
    if m == 0 then 0.0
    else Held(ends, r, m - 1) + (SpanLength(ends, m - 1) as real) * Uniqueness(ends, r, m - 1)
  }

  /** The same sum, bar by bar. */
  function ByBar(ends: seq<nat>, r: seq<real>, m: nat, bars: nat): real
    requires m <= |ends| && bars <= |r|
  {
    if bars == 0 then 0.0
    else ByBar(ends, r, m, bars - 1) + (Concurrency(ends, m, bars - 1) as real) * r[bars - 1]
  }

  function Covered(ends: seq<nat>, bars: nat): nat {
    if bars == 0 then 0
    else Covered(ends, bars - 1) + (if Concurrency(ends, |ends|, bars - 1) > 0 then 1 else 0)
  }

  /** Sum of r over the bars below `bars` that lie in [a, b). */
  function Clipped(r: seq<real>, a: nat, b: nat, bars: nat): real
    requires bars <= |r|
  {
    if bars == 0 then 0.0 else Clipped(r, a, b, bars - 1) + (if a <= bars - 1 < b then r[bars - 1] else 0.0)
  }

  lemma {:induction false} ClippedIsSum(r: seq<real>, a: nat, b: nat, bars: nat)
    requires bars <= |r|
    ensures Clipped(r, a, b, bars) == Sum(r, a, if b <= bars then b else bars)
  {
    if bars > 0 {
      ClippedIsSum(r, a, b, bars - 1);
    }
  }

  lemma OneMoreCovers(ends: seq<nat>, m: nat, j: nat)
    requires m < |ends|
    ensures Concurrency(ends, m + 1, j) == Concurrency(ends, m, j) + (if m <= j <= ends[m] then 1 else 0)
  {}

  lemma OneMoreShare(n: nat, covers: bool, share: real)
    ensures ((if covers then n + 1 else n) as real) * share == (n as real) * share + (if covers then share else 0.0)
  {
    Distribute(n as real, 1.0, share);
  }

  lemma {:induction false} OneMoreSpan(ends: seq<nat>, r: seq<real>, m: nat, bars: nat)
    requires m < |ends| && bars <= |r|
    ensures ByBar(ends, r, m + 1, bars) == ByBar(ends, r, m, bars) + Clipped(r, m, ends[m] + 1, bars)
  {
    hide Concurrency;
    if bars > 0 {
      OneMoreSpan(ends, r, m, bars - 1);
      OneMoreCovers(ends, m, bars - 1);
      OneMoreShare(Concurrency(ends, m, bars - 1), m <= bars - 1 <= ends[m], r[bars - 1]);
    }
  }

  lemma SpanHolds(ends: seq<nat>, r: seq<real>, i: nat)
    requires i < |ends| && ends[i] < |r|
    ensures (SpanLength(ends, i) as real) * Uniqueness(ends, r, i) == Sum(r, i, ends[i] + 1)
  {
    if SpanLength(ends, i) > 0 {
      QuotientTimes(Sum(r, i, ends[i] + 1), SpanLength(ends, i) as real);
    }
  }

  lemma {:induction false} HeldIsByBar(ends: seq<nat>, r: seq<real>, m: nat)
    requires m <= |ends| && forall i :: 0 <= i < |ends| ==> ends[i] < |r|
    ensures Held(ends, r, m) == ByBar(ends, r, m, |r|)
  {
    hide Uniqueness, SpanLength, Concurrency, Sum;
    if m == 0 {
      NoSpans(ends, r, |r|);
    } else {
      HeldIsByBar(ends, r, m - 1);
      OneMoreSpan(ends, r, m - 1, |r|);
      ClippedIsSum(r, m - 1, ends[m - 1] + 1, |r|);
      SpanHolds(ends, r, m - 1);
    }
  }

  lemma {:induction false} NoSpans(ends: seq<nat>, r: seq<real>, bars: nat)
    requires bars <= |r|
    ensures ByBar(ends, r, 0, bars) == 0.0
  {
    if bars > 0 { NoSpans(ends, r, bars - 1); }
  }

  /** Each covered bar contributes exactly one unit of information. */
  lemma {:induction false} BarsHoldOne(ends: seq<nat>, bars: nat, upto: nat)
    requires upto <= bars
    ensures ByBar(ends, Shares(ends, bars), |ends|, upto) == Covered(ends, upto) as real
  {
    if upto > 0 {
      BarsHoldOne(ends, bars, upto - 1);
      var c := Concurrency(ends, |ends|, upto - 1);
      if c > 0 {
        QuotientTimes(1.0, c as real);
        assert Shares(ends, bars)[upto - 1] == 1.0 / (c as real);
      }
    }
  }

  /** Information is conserved: over all spans, length times uniqueness adds up to the number of
      bars that some span covers. */
  lemma {:induction false} InformationIsConserved(ends: seq<nat>, bars: nat)
    requires forall i :: 0 <= i < |ends| ==> ends[i] < bars
    ensures Held(ends, Shares(ends, bars), |ends|) == Covered(ends, bars) as real
  {
    HeldIsByBar(ends, Shares(ends, bars), |ends|);
    BarsHoldOne(ends, bars, bars);
  }

  /** Spans that start at their own bar and stay inside the series cover all of it. */
  lemma {:induction false} LabelSpansCoverAll(ends: seq<nat>, bars: nat)
    requires bars <= |ends| && forall i :: 0 <= i < |ends| ==> i <= ends[i]
    ensures Covered(ends, bars) == bars
  {
    if bars > 0 {
      LabelSpansCoverAll(ends, bars - 1);
      CountsOwnSpan(ends, |ends|, bars - 1);
    }
  }

  lemma {:induction false} CountsOwnSpan(ends: seq<nat>, m: nat, j: nat)
    requires j < m <= |ends| && j <= ends[j]
    ensures Concurrency(ends, m, j) >= 1
  {
    if m - 1 > j { CountsOwnSpan(ends, m - 1, j); }
  }

  lemma {:induction false} MeanShare(r: seq<real>, a: nat, b: nat)
    requires a < b <= |r| && forall j :: a <= j < b ==> 0.0 < r[j] <= 1.0
    ensures 0.0 < Sum(r, a, b) <= (b - a) as real
  {
    if b - 1 > a { MeanShare(r, a, b - 1); } else { assert Sum(r, a, a) == 0.0; }
  }

  /** Every unnormalised weight lies in (0, 1]. */
  lemma UniquenessRange(ends: seq<nat>, bars: nat, i: nat)
    requires i < |ends| && ends[i] < bars
    ensures 0.0 < Uniqueness(ends, Shares(ends, bars), i) <= 1.0
  {
    var r := Shares(ends, bars);
    forall j | 0 <= j < bars ensures 0.0 < r[j] <= 1.0 { ShareRange(Concurrency(ends, |ends|, j) as real); }
    if SpanLength(ends, i) > 0 {
      MeanShare(r, i, ends[i] + 1);
      var len, total := SpanLength(ends, i) as real, Sum(r, i, ends[i] + 1);
      QuotientTimes(total, len);
      CancelLe(total / len, 1.0, len);
      ProductSign(total / len, len);
    }
  }

  lemma ShareRange(c: real)
    ensures 0.0 < Share(c) <= 1.0
  {
    var d := Max(c, 1.0);
    QuotientTimes(1.0, d);
    ProductSign(1.0 / d, d);
    CancelLe(1.0 / d, 1.0, d);
  }

  // ---------------------------------------------------------------- the algorithm

  /** `v` times `f` is `w`, element by element. */
  predicate ScaledBy(v: seq<real>, w: seq<real>, f: real) {
    |v| == |w| && forall i :: 0 <= i < |w| ==> v[i] * f == w[i]
  }

  predicate IsMean(mean: real, w: seq<real>) {
    mean * (|w| as real) == Total(w)
  }

  predicate AllPositive(w: seq<real>) {
    forall i :: 0 <= i < |w| ==> w[i] > 0.0
  }

  lemma {:induction false} ScaledTotal(w: seq<real>, v: seq<real>, f: real)
    requires ScaledBy(v, w, f)
    ensures Total(v) * f == Total(w)
  {
    if w != [] {
      var n := |w| - 1;
      ScaledTotal(w[..n], v[..n], f);
      Distribute(Total(v[..n]), v[n], f);
    }
  }

  lemma {:induction false} TotalPositive(w: seq<real>)
    requires w != [] && AllPositive(w)
    ensures Total(w) > 0.0
  {
    if |w| > 1 { TotalPositive(w[..|w| - 1]); } else { assert w[..0] == []; }
  }

  method Largest(ends: seq<nat>) returns (m: nat)
    requires ends != []
    ensures m in ends && forall i :: 0 <= i < |ends| ==> ends[i] <= m
  {
    m := ends[0];
    for i := 1 to |ends|
      invariant m in ends && forall k :: 0 <= k < i ==> ends[k] <= m
    {
      if ends[i] > m { m := ends[i]; }
    }
  }

  method CountConcurrency(ends: seq<nat>, bars: nat) returns (conc: array<real>)
    requires forall i :: 0 <= i < |ends| ==> ends[i] < bars
    ensures fresh(conc) && conc.Length == bars
    ensures forall j :: 0 <= j < bars ==> conc[j] == Concurrency(ends, |ends|, j) as real
  {
    conc := new real[bars](_ => 0.0);
    var i := 0;
    while i < |ends|
      invariant 0 <= i <= |ends|
      invariant forall j :: 0 <= j < bars ==> conc[j] == Concurrency(ends, i, j) as real
    {
      var j := i;
      while j < ends[i] + 1
        invariant i <= j && (j <= ends[i] + 1 || j == i)
        invariant forall k :: 0 <= k < bars ==>
                    conc[k] == (Concurrency(ends, i, k) + (if i <= k < j then 1 else 0)) as real
      {
        conc[j] := conc[j] + 1.0;
        j := j + 1;
      }
      i := i + 1;
    }
  }

  method MeanShareOf(ends: seq<nat>, conc: array<real>, i: nat) returns (u: real)
    requires i < |ends| && ends[i] < conc.Length
    requires forall j :: 0 <= j < conc.Length ==> conc[j] == Concurrency(ends, |ends|, j) as real
    ensures u == Uniqueness(ends, Shares(ends, conc.Length), i)
  {
    ghost var r := Shares(ends, conc.Length);
    var seg, j := 0.0, i;
    while j < ends[i] + 1
      invariant i <= j && (j <= ends[i] + 1 || j == i)
      invariant seg == if j <= ends[i] + 1 then Sum(r, i, j) else 0.0
    {
      seg := seg + 1.0 / Max(conc[j], 1.0);
      j := j + 1;
    }
    u := if ends[i] < i then 1.0 else seg / ((ends[i] - i + 1) as real);
  }

  method MeanOf(w: array<real>) returns (mean: real)
    requires w.Length > 0
    ensures IsMean(mean, w[..])
  {
    var sum := 0.0;
    var i := 0;
    while i < w.Length
      invariant 0 <= i <= w.Length && sum == Total(w[..i])
    {
      assert w[..i + 1][..i] == w[..i];
      sum := sum + w[i];
      i := i + 1;
    }
    assert w[..i] == w[..];
    mean := sum / (w.Length as real);
    QuotientTimes(sum, w.Length as real);
  }

  method DivideBy(w: array<real>, f: real)
    requires f > 0.0
    modifies w
    ensures ScaledBy(w[..], old(w[..]), f)
  {
    var i := 0;
    while i < w.Length
      invariant 0 <= i <= w.Length
      invariant forall k :: 0 <= k < i ==> w[k] * f == old(w[k])
      invariant forall k :: i <= k < w.Length ==> w[k] == old(w[k])
    {
      QuotientTimes(w[i], f);
      w[i] := w[i] / f;
      i := i + 1;
    }
  }

  /** Concurrency counted span by span, then the mean of its inverse over each span. */
  method MeanShares(ends: seq<nat>) returns (w: array<real>, ghost bars: nat)
    requires ends != []
    ensures fresh(w) && w.Length == |ends| && forall i :: 0 <= i < |ends| ==> ends[i] < bars
    ensures w[..] == RawWeights(ends, bars)
    ensures AllPositive(w[..])
  {
    w := new real[|ends|](_ => 0.0);
    var last := Largest(ends);
    bars := last + 2;
    var conc := CountConcurrency(ends, last + 2);
    var i := 0;
    while i < |ends|
      invariant 0 <= i <= |ends|
      invariant forall j :: 0 <= j < conc.Length ==> conc[j] == Concurrency(ends, |ends|, j) as real
      invariant forall k :: 0 <= k < i ==> w[k] == Uniqueness(ends, Shares(ends, bars), k)
      invariant forall k :: 0 <= k < i ==> w[k] > 0.0
    {
      w[i] := MeanShareOf(ends, conc, i);
      UniquenessRange(ends, bars, i);
      i := i + 1;
    }
  }

  /** Average-uniqueness weights scaled to mean 1: each is its span's uniqueness over the common `mean`. */
  method MakeSampleWeights(ends: seq<nat>) returns (w: array<real>, ghost bars: nat, ghost mean: real)
    ensures w.Length == |ends| && forall i :: 0 <= i < |ends| ==> ends[i] < bars
    ensures ScaledBy(w[..], RawWeights(ends, bars), mean)
    ensures ends != [] ==> mean > 0.0 && IsMean(mean, RawWeights(ends, bars))
    ensures Total(w[..]) == |ends| as real
  {
    if ends == [] {
      w := new real[0];
      bars, mean := 0, 0.0;
      return;
    }
    w, bars := MeanShares(ends);
    ghost var raw := w[..];
    var scale := MeanOf(w);
    mean := scale;
    MeanIsPositive(raw, mean);
    DivideBy(w, scale);
    TotalsToCount(raw, w[..], scale);
  }

  lemma MeanIsPositive(w: seq<real>, mean: real)
    requires w != [] && AllPositive(w) && IsMean(mean, w)
    ensures mean > 0.0
  {
    TotalPositive(w);
    ProductSign(mean, |w| as real);
  }

  /** Elements scaled down by their mean add up to their number. */
  lemma TotalsToCount(raw: seq<real>, v: seq<real>, mean: real)
    requires mean > 0.0 && IsMean(mean, raw) && ScaledBy(v, raw, mean)
    ensures Total(v) == |v| as real
  {
    ScaledTotal(raw, v, mean);
    CancelEq(Total(v), |v| as real, mean);
  }

  lemma CancelEq(a: real, b: real, f: real)
    requires f > 0.0 && a * f == f * b
    ensures a == b
  {
    CancelLe(a, b, f);
    CancelLe(b, a, f);
  }
}
