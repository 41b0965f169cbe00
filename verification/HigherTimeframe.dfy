/** Higher-timeframe features: resample to wider candles, keep the last close of each, compute trend,
    return and RSI on those closes, shift by one candle and forward-fill onto the base bars. */
module HigherTimeframe {
  import opened Types
  import opened Arith
  import opened Smoothing

  /** A base bar as the resampler sees it. */
  datatype Tick = Tick(time: int, close: real)

  /** Which candle a time falls into, and the time a candle is labelled with: its left edge. */
  datatype Grid = Grid(bucketOf: int -> int, edge: int -> int)

  ghost predicate ValidGrid(g: Grid) {
    forall bucket: int, time: int :: g.edge(bucket) <= time <==> bucket <= g.bucketOf(time)
  }

  datatype Candle = Candle(bucket: int, close: real)

  function BucketOf(g: Grid, time: int): int { g.bucketOf(time) }

  predicate InOrder(bars: seq<Tick>) {
    forall j, k :: 0 <= j <= k < |bars| ==> bars[j].time <= bars[k].time
  }

  /** The last close of a candle wins; a bar of a new candle starts it. */
  function WithBar(before: seq<Candle>, c: Candle): seq<Candle> {
    if before != [] && before[|before| - 1].bucket == c.bucket then before[..|before| - 1] + [c] else before + [c]
  }

  /** `resample(rule).agg(last).dropna()`: the non-empty candles, in order. */
  function Resampled(g: Grid, bars: seq<Tick>): seq<Candle>
  {
    if bars == [] then []
    else
      var last := bars[|bars| - 1];
      WithBar(Resampled(g, bars[..|bars| - 1]), Candle(BucketOf(g, last.time), last.close))
  }

  function Closes(htf: seq<Candle>): (hc: seq<real>)
    ensures |hc| == |htf|
  {
    seq(|htf|, k requires 0 <= k < |htf| => htf[k].close)
  }

  // ---------------------------------------------------------------- indicators on the candles

  datatype Setup = Setup(emaSpan: nat, rsiPeriod: nat)

  predicate ValidSetup(s: Setup) { s.rsiPeriod >= 1 && s.emaSpan >= 1 }

  function Gains(hc: seq<real>): seq<real> {
    if |hc| < 2 then [] else seq(|hc| - 1, k requires 0 <= k < |hc| - 1 => Max(hc[k + 1] - hc[k], 0.0))
  }

  function Losses(hc: seq<real>): seq<real> {
    if |hc| < 2 then [] else seq(|hc| - 1, k requires 0 <= k < |hc| - 1 => -Min(hc[k + 1] - hc[k], 0.0))
  }

  lemma {:induction false} EmaNonNegative(alpha: real, s: seq<real>)
    requires s != [] && 0.0 <= alpha <= 1.0 && forall k :: 0 <= k < |s| ==> s[k] >= 0.0
    ensures Ema(alpha, s) >= 0.0
  {
    hide Mul;
    if |s| > 1 {
      EmaNonNegative(alpha, s[..|s| - 1]);
      MulMonotone(1.0 - alpha, 0.0, Ema(alpha, s[..|s| - 1]));
      MulMonotone(alpha, 0.0, s[|s| - 1]);
      Units(alpha);
      Units(1.0 - alpha);
    }
  }

  lemma RmaNonNegative(period: nat, s: seq<real>)
    requires period >= 1 && forall k :: 0 <= k < |s| ==> s[k] >= 0.0
    ensures Rma(period, s).Some? ==> Rma(period, s).value >= 0.0
  {
    if |s| >= period {
      QuotientTimes(1.0, period as real);
      Reciprocal(period as real, 1.0 / period as real);
      EmaNonNegative(1.0 / period as real, s);
    }
  }

  function Strength(gain: real, loss: real): real
    requires gain >= 0.0 && loss >= 0.0
  {
    RatioNonNegative(gain, loss + EPS);
    100.0 - 100.0 / (1.0 + gain / (loss + EPS))
  }

  lemma RatioNonNegative(a: real, b: real)
    requires a >= 0.0 && b > 0.0
    ensures a / b >= 0.0
  {
    QuotientTimes(a, b);
    ProductSign(a / b, b);
  }

  /** Latest RSI of the closes; the first difference is undefined and does not count. */
  function Rsi(period: nat, hc: seq<real>): Option<real>
    requires period >= 1
  {
    RmaNonNegative(period, Gains(hc));
    RmaNonNegative(period, Losses(hc));
    var gain, loss := Rma(period, Gains(hc)), Rma(period, Losses(hc));
    if gain.None? || loss.None? then None else Some(Strength(gain.value, loss.value))
  }

  /** The three features of one candle; `None` is a NaN. */
  datatype Reading = Reading(trend: Option<real>, ret: Option<real>, rsi: Option<real>)

  const NO_READING: Reading := Reading(None, None, None)

  /** The features of the newest of the candles closing at `hc`; `logRatio` is log(a / b). */
  function Features(s: Setup, logRatio: (real, real) -> real, hc: seq<real>): Reading
    requires ValidSetup(s) && hc != []
  {
    var last := hc[|hc| - 1];
    var rsi := Rsi(s.rsiPeriod, hc);
    Reading(Some(Sign(last - Ema(SpanAlpha(s.emaSpan), hc)) as real),
            if |hc| < 2 then None else Some(logRatio(last, hc[|hc| - 2])),
            if rsi.None? then None else Some((rsi.value - 50.0) / 50.0))
  }

  // ---------------------------------------------------------------- shift, align, fill

  datatype Filled = Filled(trend: real, ret: real, rsi: real)

  const NOTHING: Filled := Filled(0.0, 0.0, 0.0)

  function OrZero(x: Option<real>): real { if x.None? then 0.0 else x.value }

  function Fill(r: Reading): Filled { Filled(OrZero(r.trend), OrZero(r.ret), OrZero(r.rsi)) }

  /** The source's indicators as a function of the candles closed so far. */
  function Indicators(s: Setup, logRatio: (real, real) -> real): seq<real> -> Reading
    requires ValidSetup(s)
  {
    hc => if hc == [] then NO_READING else Features(s, logRatio, hc)
  }

  /** Row `k` of the candle table after `shift(1)`. */
  function Shifted(f: seq<real> -> Reading, hc: seq<real>, k: nat): Reading
    requires k < |hc|
  {
    if k == 0 then NO_READING else f(hc[..k])
  }

  /** How many candles are labelled at or before `time`: the forward fill takes the last of them. */
  function Found(g: Grid, htf: seq<Candle>, time: int): (n: nat)
    ensures n <= |htf|
  {
    if htf == [] then 0
    else if g.edge(htf[|htf| - 1].bucket) <= time then |htf|
    else Found(g, htf[..|htf| - 1], time)
  }

  /** The three columns at base bar `i`, for indicators `f`. */
  function Column(f: seq<real> -> Reading, g: Grid, bars: seq<Tick>, i: nat): Filled
    requires i < |bars|
  {
    var htf := Resampled(g, bars);
    var n := Found(g, htf, bars[i].time);
    if |htf| > 2 then Fill(if n == 0 then NO_READING else Shifted(f, Closes(htf), n - 1)) else NOTHING
  }

  // ---------------------------------------------------------------- what the columns depend on

  /** Number of leading bars that lie in buckets before `bucket`. */
  function Earlier(g: Grid, bars: seq<Tick>, bucket: int): (p: nat)
    ensures p <= |bars|
    ensures forall k :: 0 <= k < p ==> BucketOf(g, bars[k].time) < bucket
    ensures p < |bars| ==> BucketOf(g, bars[p].time) >= bucket
  {
    if bars == [] || BucketOf(g, bars[0].time) >= bucket then 0 else 1 + Earlier(g, bars[1..], bucket)
  }

  /** The features of the completed candles `hc`, zero where there are none. */
  function Completed(f: seq<real> -> Reading, hc: seq<real>): Filled {
    if hc == [] then NOTHING else Fill(f(hc))
  }

  /** Indicators that say nothing on a single candle. */
  ghost predicate NeedsTwo(f: seq<real> -> Reading) {
    forall c: real :: Fill(f([c])) == NOTHING
  }

  lemma BucketsInOrder(g: Grid, s: int, t: int)
    requires ValidGrid(g) && s <= t
    ensures BucketOf(g, s) <= BucketOf(g, t)
  {
    assert g.edge(BucketOf(g, s)) <= s;
    assert g.edge(BucketOf(g, s)) <= t;
  }

  predicate BucketsSorted(g: Grid, bars: seq<Tick>)
  {
    forall j, k :: 0 <= j <= k < |bars| ==> BucketOf(g, bars[j].time) <= BucketOf(g, bars[k].time)
  }

  lemma InOrderSorts(g: Grid, bars: seq<Tick>)
    requires ValidGrid(g) && InOrder(bars)
    ensures BucketsSorted(g, bars)
  {
    hide BucketOf;
    forall j, k | 0 <= j <= k < |bars| ensures BucketOf(g, bars[j].time) <= BucketOf(g, bars[k].time) {
      BucketsInOrder(g, bars[j].time, bars[k].time);
    }
  }

  predicate AllBefore(htf: seq<Candle>, bucket: int) {
    forall k :: 0 <= k < |htf| ==> htf[k].bucket < bucket
  }

  lemma {:induction false} ResampledBefore(g: Grid, bars: seq<Tick>, bucket: int)
    requires forall k :: 0 <= k < |bars| ==> BucketOf(g, bars[k].time) < bucket
    ensures AllBefore(Resampled(g, bars), bucket)
  {
    hide BucketOf, WithBar, AllBefore;
    if bars == [] {
      NoneBefore(bucket);
    } else {
      var last := bars[|bars| - 1];
      ResampledBefore(g, bars[..|bars| - 1], bucket);
      AddBefore(Resampled(g, bars[..|bars| - 1]), Candle(BucketOf(g, last.time), last.close), bucket);
    }
  }

  lemma NoneBefore(bucket: int)
    ensures AllBefore([], bucket)
  {}

  lemma AddBefore(before: seq<Candle>, c: Candle, bucket: int)
    requires AllBefore(before, bucket) && c.bucket < bucket
    ensures AllBefore(WithBar(before, c), bucket)
  {}

  /** Candles from `bucket` on leave the earlier candles alone and start with `bucket` itself. */
  predicate Extends(htf: seq<Candle>, done: seq<Candle>, bucket: int) {
    && |htf| > |done| && htf[..|done|] == done && htf[|done|].bucket == bucket
    && forall k :: |done| < k < |htf| ==> htf[k].bucket > bucket
  }

  /** Bar `j` is the last of its candle. */
  ghost predicate LastOfCandle(g: Grid, bars: seq<Tick>, j: nat, c: Candle) {
    && j < |bars| && BucketOf(g, bars[j].time) == c.bucket && bars[j].close == c.close
    && forall i :: j < i < |bars| ==> BucketOf(g, bars[i].time) > c.bucket
  }

  ghost predicate IsLastClose(g: Grid, bars: seq<Tick>, c: Candle) { exists j: nat :: LastOfCandle(g, bars, j, c) }

  /** One candle for every bucket with a bar in it, in order, each with the close of its last bar. */
  ghost predicate Summarises(htf: seq<Candle>, g: Grid, bars: seq<Tick>) {
    && (forall a, b :: 0 <= a < b < |htf| ==> htf[a].bucket < htf[b].bucket)
    && (forall k :: 0 <= k < |htf| ==> IsLastClose(g, bars, htf[k]))
    && (forall j :: 0 <= j < |bars| ==> HasBucket(htf, BucketOf(g, bars[j].time)))
  }

  predicate HasBucket(htf: seq<Candle>, bucket: int) { exists k :: 0 <= k < |htf| && htf[k].bucket == bucket }

  lemma WithBarHas(before: seq<Candle>, c: Candle, bucket: int)
    ensures HasBucket(WithBar(before, c), bucket) <==> HasBucket(before, bucket) || bucket == c.bucket
  {
    var after := WithBar(before, c);
    assert after[|after| - 1] == c;
    if k :| 0 <= k < |before| && before[k].bucket == bucket {
      assert k < |after| && after[k].bucket == bucket;
    }
    if k :| 0 <= k < |after| && after[k].bucket == bucket {
      if k < |before| { assert before[k].bucket == bucket && HasBucket(before, bucket); }
    }
  }

  lemma StillLast(g: Grid, bars: seq<Tick>, j: nat, c: Candle)
    requires bars != [] && BucketsSorted(g, bars) && LastOfCandle(g, bars[..|bars| - 1], j, c)
    requires BucketOf(g, bars[|bars| - 1].time) != c.bucket
    ensures LastOfCandle(g, bars, j, c)
  {
    hide BucketOf;
    assert bars[..|bars| - 1][j] == bars[j];
    forall i | j < i < |bars| ensures BucketOf(g, bars[i].time) > c.bucket {
      if i < |bars| - 1 { assert bars[..|bars| - 1][i] == bars[i]; }
    }
  }

  lemma BucketOrder(g: Grid, bars: seq<Tick>, before: seq<Candle>, k: nat)
    requires bars != [] && BucketsSorted(g, bars) && Summarises(before, g, bars[..|bars| - 1]) && k < |before|
    ensures before[k].bucket <= BucketOf(g, bars[|bars| - 1].time)
    ensures before[k].bucket == BucketOf(g, bars[|bars| - 1].time) ==> k == |before| - 1
  {
    hide BucketOf;
    assert IsLastClose(g, bars[..|bars| - 1], before[k]);
    var j: nat :| LastOfCandle(g, bars[..|bars| - 1], j, before[k]);
    assert bars[..|bars| - 1][j] == bars[j];
    if k < |before| - 1 {
      assert IsLastClose(g, bars[..|bars| - 1], before[|before| - 1]);
      var last: nat :| LastOfCandle(g, bars[..|bars| - 1], last, before[|before| - 1]);
      assert bars[..|bars| - 1][last] == bars[last];
    }
  }

  lemma StaysIncreasing(g: Grid, bars: seq<Tick>, before: seq<Candle>, c: Candle)
    requires bars != [] && BucketsSorted(g, bars) && Summarises(before, g, bars[..|bars| - 1])
    requires c == Candle(BucketOf(g, bars[|bars| - 1].time), bars[|bars| - 1].close)
    ensures var after := WithBar(before, c);
            forall a, b :: 0 <= a < b < |after| ==> after[a].bucket < after[b].bucket
  {
    hide BucketOf, HasBucket, IsLastClose, WithBar;
    var after := WithBar(before, c);
    WithBarIs(before, c);
    forall k: nat | k < |after| - 1 ensures after[k].bucket < c.bucket { BucketOrder(g, bars, before, k); }
  }

  lemma HasBuckets(g: Grid, bars: seq<Tick>, before: seq<Candle>, c: Candle)
    requires bars != [] && Summarises(before, g, bars[..|bars| - 1])
    requires c == Candle(BucketOf(g, bars[|bars| - 1].time), bars[|bars| - 1].close)
    ensures forall j :: 0 <= j < |bars| ==> HasBucket(WithBar(before, c), BucketOf(g, bars[j].time))
  {
    hide BucketOf, HasBucket, IsLastClose, WithBar;
    forall j | 0 <= j < |bars| ensures HasBucket(WithBar(before, c), BucketOf(g, bars[j].time)) {
      WithBarHas(before, c, BucketOf(g, bars[j].time));
      if j < |bars| - 1 { assert bars[..|bars| - 1][j] == bars[j]; }
    }
  }

  /** Resampling gives every bucket with a bar in it the close of its last bar. */
  lemma {:induction false} CandlesAreLastCloses(g: Grid, bars: seq<Tick>)
    requires BucketsSorted(g, bars)
    ensures Summarises(Resampled(g, bars), g, bars)
  {
    hide BucketOf, HasBucket, IsLastClose, WithBar;
    if bars != [] {
      var last := bars[|bars| - 1];
      var c := Candle(BucketOf(g, last.time), last.close);
      var before := Resampled(g, bars[..|bars| - 1]);
      CandlesAreLastCloses(g, bars[..|bars| - 1]);
      StaysIncreasing(g, bars, before, c);
      HasBuckets(g, bars, before, c);
      ClosesAreLast(g, bars, before, c);
    }
  }

  lemma ClosesAreLast(g: Grid, bars: seq<Tick>, before: seq<Candle>, c: Candle)
    requires bars != [] && BucketsSorted(g, bars) && Summarises(before, g, bars[..|bars| - 1])
    requires c == Candle(BucketOf(g, bars[|bars| - 1].time), bars[|bars| - 1].close)
    ensures var after := WithBar(before, c);
            forall k :: 0 <= k < |after| ==> IsLastClose(g, bars, after[k])
  {
    hide BucketOf, HasBucket, WithBar;
    var after := WithBar(before, c);
    WithBarIs(before, c);
    assert LastOfCandle(g, bars, |bars| - 1, c);
    forall k | 0 <= k < |after| ensures IsLastClose(g, bars, after[k]) {
      if k < |after| - 1 {
        assert IsLastClose(g, bars[..|bars| - 1], before[k]);
        var j: nat :| LastOfCandle(g, bars[..|bars| - 1], j, before[k]);
        BucketOrder(g, bars, before, k);
        StillLast(g, bars, j, before[k]);
      }
    }
  }

  lemma WithBarIs(before: seq<Candle>, c: Candle)
    ensures var after := WithBar(before, c);
            && after != [] && after[|after| - 1] == c && |after| - 1 <= |before|
            && (forall k :: 0 <= k < |after| - 1 ==> after[k] == before[k])
            && (|after| - 1 < |before| ==> before[|after| - 1].bucket == c.bucket && |after| == |before|)
            && (|after| - 1 == |before| ==> before == [] || before[|before| - 1].bucket != c.bucket)
  {}

  predicate EndsAt(htf: seq<Candle>, bucket: int) { htf != [] && htf[|htf| - 1].bucket == bucket }

  lemma StartExtends(done: seq<Candle>, c: Candle)
    requires AllBefore(done, c.bucket)
    ensures Extends(WithBar(done, c), done, c.bucket) && EndsAt(WithBar(done, c), c.bucket)
  {}

  lemma AddExtends(before: seq<Candle>, c: Candle, done: seq<Candle>, bucket: int, newest: int)
    requires Extends(before, done, bucket) && EndsAt(before, newest) && bucket <= newest <= c.bucket
    ensures Extends(WithBar(before, c), done, bucket) && EndsAt(WithBar(before, c), c.bucket)
  {}

  lemma {:induction false} ResampledExtends(g: Grid, bars: seq<Tick>, p: nat, n: nat, bucket: int)
    requires p < n <= |bars| && BucketsSorted(g, bars) && BucketOf(g, bars[p].time) == bucket
    requires forall k :: 0 <= k < p ==> BucketOf(g, bars[k].time) < bucket
    ensures Extends(Resampled(g, bars[..n]), Resampled(g, bars[..p]), bucket)
    ensures EndsAt(Resampled(g, bars[..n]), BucketOf(g, bars[n - 1].time))
  {
    hide BucketOf, WithBar, AllBefore, Extends, EndsAt;
    assert bars[..n][..n - 1] == bars[..n - 1];
    var c := Candle(BucketOf(g, bars[n - 1].time), bars[n - 1].close);
    if n == p + 1 {
      ResampledBefore(g, bars[..p], bucket);
      StartExtends(Resampled(g, bars[..p]), c);
    } else {
      ResampledExtends(g, bars, p, n - 1, bucket);
      AddExtends(Resampled(g, bars[..n - 1]), c, Resampled(g, bars[..p]), bucket, BucketOf(g, bars[n - 2].time));
    }
  }

  lemma {:induction false} FoundAt(g: Grid, htf: seq<Candle>, done: seq<Candle>, bucket: int, time: int)
    requires ValidGrid(g) && Extends(htf, done, bucket) && BucketOf(g, time) == bucket
    ensures Found(g, htf, time) == |done| + 1
  {
    assert g.edge(htf[|htf| - 1].bucket) <= time <==> htf[|htf| - 1].bucket <= g.bucketOf(time);
    if |htf| > |done| + 1 { FoundAt(g, htf[..|htf| - 1], done, bucket, time); }
  }

  /** One candle has no trend, return or RSI, so the short-frame branch agrees with the long one. */
  lemma IndicatorsNeedTwo(s: Setup, logRatio: (real, real) -> real)
    requires ValidSetup(s)
    ensures NeedsTwo(Indicators(s, logRatio))
  {
    forall c: real ensures Fill(Indicators(s, logRatio)([c])) == NOTHING {
      assert Gains([c]) == [];
    }
  }

  /** The columns of a base bar are exactly the features of the candles completed before its own:
      nothing in its own candle or later reaches them, on short frames and long ones. */
  lemma {:induction false} OnlyCompletedCandles(f: seq<real> -> Reading, g: Grid, bars: seq<Tick>, i: nat)
    requires NeedsTwo(f) && ValidGrid(g) && InOrder(bars) && i < |bars|
    ensures var p := Earlier(g, bars, BucketOf(g, bars[i].time));
            Column(f, g, bars, i) == Completed(f, Closes(Resampled(g, bars[..p])))
  {
    hide BucketOf, Found, WithBar;
    var bucket := BucketOf(g, bars[i].time);
    var p := Earlier(g, bars, bucket);
    InOrderSorts(g, bars);
    EarlierEnds(g, bars, bucket, i);
    var htf, done := Resampled(g, bars), Resampled(g, bars[..p]);
    ResampledExtends(g, bars, p, |bars|, bucket);
    assert bars[..|bars|] == bars;
    FoundAt(g, htf, done, bucket, bars[i].time);
    assert Closes(htf)[..|done|] == Closes(done);
    assert |done| == 1 ==> Closes(done) == [done[0].close];
  }

  /** Two frames whose completed candles before a bar's own close alike give that bar the same columns. */
  lemma {:induction false} LeakFree(f: seq<real> -> Reading, g: Grid, u: seq<Tick>, i: nat, v: seq<Tick>, j: nat)
    requires NeedsTwo(f) && ValidGrid(g) && InOrder(u) && InOrder(v) && i < |u| && j < |v|
    requires Closes(Resampled(g, u[..Earlier(g, u, BucketOf(g, u[i].time))]))
             == Closes(Resampled(g, v[..Earlier(g, v, BucketOf(g, v[j].time))]))
    ensures Column(f, g, u, i) == Column(f, g, v, j)
  {
    hide BucketOf, Column, NeedsTwo, Resampled, Closes;
    OnlyCompletedCandles(f, g, u, i);
    OnlyCompletedCandles(f, g, v, j);
  }

  lemma EarlierEnds(g: Grid, bars: seq<Tick>, bucket: int, i: nat)
    requires i < |bars| && BucketOf(g, bars[i].time) == bucket
    ensures Earlier(g, bars, bucket) <= i
  {
    hide BucketOf;
  }

  lemma {:induction false} EarlierOfPrefix(g: Grid, bars: seq<Tick>, n: nat, bucket: int)
    requires Earlier(g, bars, bucket) <= n <= |bars|
    ensures Earlier(g, bars[..n], bucket) == Earlier(g, bars, bucket)
  {
    hide BucketOf;
    if n > 0 && Earlier(g, bars, bucket) > 0 {
      assert bars[..n][1..] == bars[1..][..n - 1];
      EarlierOfPrefix(g, bars[1..], n - 1, bucket);
    }
  }

  /** Cutting the frame off right after a bar changes nothing at that bar. */
  lemma {:induction false} TruncationChangesNothing(f: seq<real> -> Reading, g: Grid, bars: seq<Tick>, i: nat)
    requires NeedsTwo(f) && ValidGrid(g) && InOrder(bars) && i < |bars|
    ensures Column(f, g, bars[..i + 1], i) == Column(f, g, bars, i)
  {
    hide BucketOf, Column, NeedsTwo;
    var bucket := BucketOf(g, bars[i].time);
    EarlierEnds(g, bars, bucket, i);
    EarlierOfPrefix(g, bars, i + 1, bucket);
    assert bars[..i + 1][..Earlier(g, bars, bucket)] == bars[..Earlier(g, bars, bucket)];
    LeakFree(f, g, bars[..i + 1], i, bars, i);
  }

  /** Both for the source's own indicators. */
  lemma {:induction false} SourceColumnsAreLeakFree(s: Setup, logRatio: (real, real) -> real, g: Grid,
                                                    bars: seq<Tick>, i: nat)
    requires ValidSetup(s) && ValidGrid(g) && InOrder(bars) && i < |bars|
    ensures var f := Indicators(s, logRatio);
            && Column(f, g, bars[..i + 1], i) == Column(f, g, bars, i)
            && Column(f, g, bars, i)
               == Completed(f, Closes(Resampled(g, bars[..Earlier(g, bars, BucketOf(g, bars[i].time))])))
  {
    hide *;
    IndicatorsNeedTwo(s, logRatio);
    TruncationChangesNothing(Indicators(s, logRatio), g, bars, i);
    OnlyCompletedCandles(Indicators(s, logRatio), g, bars, i);
  }

  // ---------------------------------------------------------------- fixed-width candles

  /** Candles of `width` seconds from `origin`, which depends on the first bar only. */
  function FixedGrid(origin: int, width: int): Grid
    requires width > 0
  {
    Grid(time => (time - origin) / width, bucket => origin + bucket * width)
  }

  lemma Floor(x: int, w: int)
    requires w > 0
    ensures x / w * w <= x < (x / w + 1) * w
  {}

  lemma TimesMonotone(a: int, b: int, w: int)
    requires w > 0 && a <= b
    ensures a * w <= b * w
  {}

  lemma FloorUnique(x: int, w: int, q: int)
    requires w > 0
    ensures q * w <= x <==> q <= x / w
  {
    Floor(x, w);
    if q <= x / w { TimesMonotone(q, x / w, w); } else { TimesMonotone(x / w + 1, q, w); }
  }

  lemma FixedGridIsValid(origin: int, width: int)
    requires width > 0
    ensures ValidGrid(FixedGrid(origin, width))
  {
    var g := FixedGrid(origin, width);
    forall bucket: int, time: int ensures g.edge(bucket) <= time <==> bucket <= g.bucketOf(time) {
      FloorUnique(time - origin, width, bucket);
    }
  }
}
