/** The streaming feature engine: a bounded buffer of bars, recomputed on every update, against the
    same features computed over the whole history. */
module BufferedFeatures {
  import opened Types
  import opened Arith
  import opened Smoothing
  import opened Columns

  /** What a deque of capacity `cap` holds after being fed `history`. */
  function LastOf<T>(history: seq<T>, cap: nat): seq<T> {
    if |history| <= cap then history else history[|history| - cap..]
  }

  lemma LastOfGrows<T>(history: seq<T>, x: T, cap: nat)
    requires cap >= 1
    ensures LastOf(history + [x], cap)
            == if |LastOf(history, cap)| < cap then LastOf(history, cap) + [x] else LastOf(history, cap)[1..] + [x]
  {}

  type FeatureRow = seq<Option<real>>

  /** The latest observation of the live recorder, by column. */
  type Obs = map<string, real>

  predicate Complete(row: FeatureRow) {
    forall k :: 0 <= k < |row| ==> row[k].Some?
  }

  function Capacity(warmup: nat): (cap: nat)
    ensures 5 * warmup <= cap && 700 <= cap && (cap == 5 * warmup || cap == 700)
  {
    if warmup * 5 >= 700 then warmup * 5 else 700
  }

  method IsComplete(row: FeatureRow) returns (complete: bool)
    ensures complete == Complete(row)
  {
    complete := true;
    var k := 0;
    while k < |row|
      invariant 0 <= k <= |row|
      invariant complete <==> Complete(row[..k])
    {
      complete := complete && row[k].Some?;
      assert row[..k + 1][..k] == row[..k];
      k := k + 1;
    }
    assert row[..k] == row;
  }

  class FeatureEngine {
    const warmup: nat
    const capacity: nat
    const lastRow: (seq<Bar>, Option<Obs>) -> FeatureRow   // last row of `transform` on a frame
    var buffer: seq<Bar>
    var lastFeatures: Option<FeatureRow>
    var externalObs: Option<Obs>
    ghost var history: seq<Bar>                            // every bar since the last reset

    ghost predicate Valid()
      reads this
    {
      capacity == Capacity(warmup) && buffer == LastOf(history, capacity)
    }

    constructor (warmup: nat, lastRow: (seq<Bar>, Option<Obs>) -> FeatureRow)
      ensures Valid() && history == [] && lastFeatures == None && externalObs == None
      ensures this.warmup == warmup && this.lastRow == lastRow
    {
      this.warmup, this.lastRow, capacity := warmup, lastRow, Capacity(warmup);
      buffer, lastFeatures, externalObs, history := [], None, None, [];
    }

    /** The row of the newest bar: computed from the first `warmup` bars on, handed out only when
        complete, and always from the last `capacity` bars of the whole history. */
    method Update(bar: Bar) returns (row: Option<FeatureRow>)
      requires Valid()
      modifies this`buffer, this`lastFeatures, this`history
      ensures Valid() && history == old(history) + [bar]
      ensures |history| < warmup ==> row == None && lastFeatures == old(lastFeatures)
      ensures |history| >= warmup ==>
                var computed := lastRow(LastOf(history, capacity), externalObs);
                && lastFeatures == Some(computed)
                && row == if Complete(computed) then Some(computed) else None
    {
      LastOfGrows(history, bar, capacity);
      if |buffer| == capacity {
        buffer := buffer[1..];
      }
      buffer := buffer + [bar];
      history := history + [bar];
      if |buffer| < warmup {
        return None;
      }
      var computed := lastRow(buffer, externalObs);
      lastFeatures := Some(computed);
      var complete := IsComplete(computed);
      return if complete then Some(computed) else None;
    }

    method SetExternal(obs: Option<Obs>)
      requires Valid()
      modifies this`externalObs
      ensures Valid() && externalObs == if obs == Some(map[]) then None else obs
    {
      externalObs := if obs.Some? && |obs.value| == 0 then None else obs;
    }

    method Reset()
      requires Valid()
      modifies this`buffer, this`lastFeatures, this`history
      ensures Valid() && history == [] && lastFeatures == None
    {
      buffer, history, lastFeatures := [], [], None;
    }
  }

  function Last<T>(s: seq<T>): T
    requires s != []
  {
    s[|s| - 1]
  }

  /** A feature of width r is the same live and over the whole history once r bars fit the buffer. */
  lemma LocalFeatureIsExact<A(!new), B(!new)>(f: seq<A> -> seq<B>, r: nat, history: seq<A>, cap: nat)
    requires Local(f, r) && r <= cap && r <= |history|
    ensures f(LastOf(history, cap)) != [] && f(history) != []
    ensures Last(f(LastOf(history, cap))) == Last(f(history))
  {
    assert |f(LastOf(history, cap))| == |LastOf(history, cap)| && |f(history)| == |history|;
    if |history| > cap {
      var c, t := |history| - cap, |history| - 1;
      assert f(history)[t] == f(history[c..t + 1])[t - c];
      assert history[c..t + 1] == history[c..];
    }
  }

  /** Live smoothing against smoothing the whole history: equal while the history fits the buffer,
      and afterwards off by exactly the faded difference at the cut. */
  lemma LiveSmoothing(alpha: real, history: seq<real>, cap: nat)
    requires history != [] && cap >= 1
    ensures |history| <= cap ==> Ema(alpha, LastOf(history, cap)) == Ema(alpha, history)
    ensures |history| > cap ==>
              var cut := |history| - cap;
              Ema(alpha, LastOf(history, cap)) - Ema(alpha, history)
              == Mul(Power(1.0 - alpha, cap - 1), history[cut] - Ema(alpha, history[..cut + 1]))
  {
    if |history| > cap {
      var cut := |history| - cap;
      assert LastOf(history, cap)[1..] == history[cut + 1..];
      SeedFades(alpha, LastOf(history, cap), history, cut);
    }
  }
}
