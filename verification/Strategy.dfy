/** Predictions to signals, and the batch table a backtest looks its signals up in. */
module Strategy {
  import opened Types

  datatype Prediction = Prediction(direction: Side, confidence: real)

  datatype StrategyConfig = StrategyConfig(
    longThreshold: real, shortThreshold: real, allowShort: bool,
    trendFilter: bool, volGate: bool, volGateLow: real, volGateHigh: real)

  /** One row of the feature frame. `valid` says that no column of the row is NaN. */
  datatype Row = Row(valid: bool, atr: real, trend: real, volPct: real, features: seq<real>)

  function ToSignal(cfg: StrategyConfig, p: Prediction, trend: real, volPct: real): Option<Signal> {
    if cfg.trendFilter && trend != 0.0 && p.direction == Long && trend < 0.0 then None
    else if cfg.trendFilter && trend != 0.0 && p.direction == Short && trend > 0.0 then None
    else if cfg.volGate && !(cfg.volGateLow <= volPct <= cfg.volGateHigh) then None
    else if p.direction == Long && p.confidence >= cfg.longThreshold then Some(Signal(Long, p.confidence))
    else if p.direction == Short && cfg.allowShort && p.confidence >= cfg.shortThreshold
    then Some(Signal(Short, p.confidence))
    else None
  }

  /** A prediction becomes a signal if and only if it has a direction, does not fight the trend under the trend
      filter, meets a volatility rank inside the gate when there is one, is a long or an allowed short, and is
      as confident as its side asks; the signal is then the prediction. */
  lemma SignalExactly(cfg: StrategyConfig, p: Prediction, trend: real, volPct: real)
    ensures ToSignal(cfg, p, trend, volPct).Some?
            <==> && p.direction != Flat
                 && (cfg.trendFilter ==> Signed(p.direction, trend) >= 0.0)
                 && (cfg.volGate ==> cfg.volGateLow <= volPct <= cfg.volGateHigh)
                 && (p.direction == Short ==> cfg.allowShort)
                 && p.confidence >= (if p.direction == Long then cfg.longThreshold else cfg.shortThreshold)
    ensures ToSignal(cfg, p, trend, volPct).Some? ==>
              ToSignal(cfg, p, trend, volPct).value == Signal(p.direction, p.confidence)
  {}

  datatype Forecast = Forecast(prediction: Prediction, trend: real, volPct: real)

  /** Predictions of the valid rows keyed by timestamp; a later row with the same timestamp wins. */
  function Table(times: seq<int>, rows: seq<Row>, predict: Row -> Prediction): map<int, Forecast>
    requires |times| == |rows|
  {
    if times == [] then map[]
    else
      var n := |times| - 1;
      var before := Table(times[..n], rows[..n], predict);
      if rows[n].valid then before[times[n] := Forecast(predict(rows[n]), rows[n].trend, rows[n].volPct)]
      else before
  }

  function SignalAt(cfg: StrategyConfig, table: map<int, Forecast>, time: int): Option<Signal> {
    if time !in table then None
    else ToSignal(cfg, table[time].prediction, table[time].trend, table[time].volPct)
  }

  /** The last valid row carrying a timestamp. */
  function LastValid(times: seq<int>, rows: seq<Row>, time: int): Option<Row>
    requires |times| == |rows|
  {
    if times == [] then None
    else
      var n := |times| - 1;
      if rows[n].valid && times[n] == time then Some(rows[n]) else LastValid(times[..n], rows[..n], time)
  }

  /** A bar is served the forecast of the last valid row with its timestamp, and nothing else. */
  lemma {:induction false} TableServesLastValid(times: seq<int>, rows: seq<Row>, predict: Row -> Prediction, time: int)
    requires |times| == |rows|
    ensures var last := LastValid(times, rows, time);
            && (time in Table(times, rows, predict) <==> last.Some?)
            && (last.Some? ==> Table(times, rows, predict)[time]
                               == Forecast(predict(last.value), last.value.trend, last.value.volPct))
  {
    if times != [] {
      var n := |times| - 1;
      TableServesLastValid(times[..n], rows[..n], predict, time);
    }
  }

  /** From rows to signals: a bar is given a signal if and only if some valid row carries its timestamp, and the last
      of them predicts a direction that its own trend and volatility rank let through. */
  lemma ServedSignalExactly(cfg: StrategyConfig, times: seq<int>, rows: seq<Row>, predict: Row -> Prediction, time: int)
    requires |times| == |rows|
    ensures var signal, last := SignalAt(cfg, Table(times, rows, predict), time), LastValid(times, rows, time);
            && (last.None? ==> signal == None)
            && (last.Some? ==>
                  var p := predict(last.value);
                  && (signal.Some?
                      <==> && p.direction != Flat
                           && (cfg.trendFilter ==> Signed(p.direction, last.value.trend) >= 0.0)
                           && (cfg.volGate ==> cfg.volGateLow <= last.value.volPct <= cfg.volGateHigh)
                           && (p.direction == Short ==> cfg.allowShort)
                           && p.confidence >= (if p.direction == Long then cfg.longThreshold else cfg.shortThreshold))
                  && (signal.Some? ==> signal.value == Signal(p.direction, p.confidence)))
  {
    TableServesLastValid(times, rows, predict, time);
    if LastValid(times, rows, time).Some? {
      var row := LastValid(times, rows, time).value;
      SignalExactly(cfg, predict(row), row.trend, row.volPct);
    }
  }

  /** Rows after the `k`-th are invisible to a timestamp that none of the valid ones repeats. */
  lemma {:induction false} UnrepeatedTimeIgnoresLaterRows(times: seq<int>, rows: seq<Row>, k: nat, time: int)
    requires |times| == |rows| && k <= |times|
    requires forall m :: k <= m < |times| && rows[m].valid ==> times[m] != time
    ensures LastValid(times, rows, time) == LastValid(times[..k], rows[..k], time)
  {
    if k == |times| {
      assert times[..k] == times && rows[..k] == rows;
    } else {
      var n := |times| - 1;
      UnrepeatedTimeIgnoresLaterRows(times[..n], rows[..n], k, time);
      assert times[..n][..k] == times[..k] && rows[..n][..k] == rows[..k];
    }
  }

  /** The two tables serve a timestamp alike. */
  predicate ServedAlike(whole: map<int, Forecast>, part: map<int, Forecast>, time: int) {
    (time in whole <==> time in part) && (time in whole ==> whole[time] == part[time])
  }

  /** Later rows leave what a timestamp is served alone, whatever the predictor, exactly when they leave
      its last valid row alone. */
  lemma ServedAlikeExactly(times: seq<int>, rows: seq<Row>, k: nat, time: int)
    requires |times| == |rows| && k <= |times|
    ensures (forall predict: Row -> Prediction ::
               ServedAlike(Table(times, rows, predict), Table(times[..k], rows[..k], predict), time))
            <==> LastValid(times, rows, time) == LastValid(times[..k], rows[..k], time)
  {
    if LastValid(times, rows, time) == LastValid(times[..k], rows[..k], time) {
      forall predict: Row -> Prediction
        ensures ServedAlike(Table(times, rows, predict), Table(times[..k], rows[..k], predict), time)
      {
        TableServesLastValid(times, rows, predict, time);
        TableServesLastValid(times[..k], rows[..k], predict, time);
      }
    } else {
      var predict := RepeatedTimeSeesLaterRows(times, rows, k, time);
      assert !ServedAlike(Table(times, rows, predict), Table(times[..k], rows[..k], predict), time);
    }
  }

  /** Otherwise some predictor tells the two apart: later rows change what the bar is served. */
  lemma RepeatedTimeSeesLaterRows(times: seq<int>, rows: seq<Row>, k: nat, time: int)
    returns (predict: Row -> Prediction)
    requires |times| == |rows| && k <= |times|
    requires LastValid(times, rows, time) != LastValid(times[..k], rows[..k], time)
    ensures var whole, part := Table(times, rows, predict), Table(times[..k], rows[..k], predict);
            (time in whole) != (time in part) || (time in whole && whole[time] != part[time])
  {
    var last := LastValid(times, rows, time);
    predict := r => if Some(r) == last then Prediction(Long, 1.0) else Prediction(Short, 1.0);
    TableServesLastValid(times, rows, predict, time);
    TableServesLastValid(times[..k], rows[..k], predict, time);
  }
}
