/**
 * The forecast wrapper arima_forecast and the horizon aggregator
 * multi_horizon_forecasts. The ARIMA estimator and the percentage-error
 * metric belong to numerical libraries; they are given here as a Library
 * value whose answers the wrapper consumes, None standing for a call that
 * raised. Everything around those calls is modelled as the code does it.
 */
module Forecasting {
  import opened Wrappers
  import opened Sums

  /** The (p, d, q) order of an ARIMA model. */
  datatype Order = Order(p: nat, d: nat, q: nat)

  const DefaultOrder := Order(1, 1, 1)

  /**
   * A model the library has fitted: forecast(steps) continues the training
   * data by steps values; predict(start, end) predicts positions start..end
   * of the series; None when the call raises.
   */
  datatype FittedModel = FittedModel(
    forecast: nat -> Option<seq<real>>,
    predict: (nat, nat) -> Option<seq<real>>)

  /**
   * The library calls the wrapper makes: fitting a model of the given order
   * to a training series, and the mean absolute percentage error of
   * predictions against observed values; None when the call raises.
   */
  datatype Library = Library(
    fit: (seq<real>, Order) -> Option<FittedModel>,
    mape: (seq<real>, seq<real>) -> Option<real>)

  /** A fitted model's forecast has as many values as were asked for. */
  ghost predicate ForecastsHaveRequestedLength(lib: Library) {
    forall train, order, steps: nat
      {:trigger lib.fit(train, order).value.forecast(steps)} ::
      lib.fit(train, order).Some? && lib.fit(train, order).value.forecast(steps).Some? ==>
        |lib.fit(train, order).value.forecast(steps).value| == steps
  }

  /** The error metric is never negative. */
  ghost predicate MapeNonNegative(lib: Library) {
    forall observed, predicted ::
      lib.mape(observed, predicted).Some? ==> lib.mape(observed, predicted).value >= 0.0
  }

  /**
   * Forecasting fewer steps yields a prefix of forecasting more, and both
   * calls fail or succeed together.
   */
  ghost predicate ForecastsArePrefixes(lib: Library) {
    forall train, order, s1: nat, s2: nat
      {:trigger lib.fit(train, order).value.forecast(s1), lib.fit(train, order).value.forecast(s2)} ::
      s1 <= s2 && lib.fit(train, order).Some? ==>
        var m := lib.fit(train, order).value;
        (m.forecast(s1).Some? <==> m.forecast(s2).Some?)
        && (m.forecast(s2).Some? && s1 <= |m.forecast(s2).value| ==>
              m.forecast(s1).value == m.forecast(s2).value[..s1])
  }

  /** What arima_forecast returns: the forecast values, the sum of the input and an accuracy percentage. */
  datatype ForecastResult = ForecastResult(values: seq<real>, historicalSum: real, accuracy: real)

  /** Length of the training prefix: int(len * 0.8). */
  function TrainSize(n: nat): (k: nat)
    ensures k <= n
    ensures 5 * k <= 4 * n < 5 * (k + 1)
  {
    n * 8 / 10
  }

  /** The chronological split into the first 80% for training and the rest for testing. */
  function Split(series: seq<real>): (r: (seq<real>, seq<real>))
    ensures r.0 + r.1 == series
    ensures |r.0| == TrainSize(|series|)
    ensures series != [] ==> |r.1| >= 1
  {
    var k := TrainSize(|series|);
    (series[..k], series[k..])
  }

  /** Training and test parts together carry the whole series' sum. */
  lemma SplitSums(series: seq<real>)
    ensures Sum(Split(series).0) + Sum(Split(series).1) == Sum(series)
  {
    SumConcat(Split(series).0, Split(series).1);
  }

  /** Some observed value is non-zero, so a percentage error is defined. */
  predicate HasNonZero(s: seq<real>) {
    exists i :: 0 <= i < |s| && s[i] != 0.0
  }

  /** max(0, (1 - mape) * 100): the accuracy percentage for an error rate. */
  function AccuracyFromError(err: real): (acc: real)
    ensures acc >= 0.0
    ensures err >= 0.0 ==> acc <= 100.0
    ensures err <= 1.0 ==> acc == 100.0 - 100.0 * err
    ensures err >= 1.0 ==> acc == 0.0
  {
    var pct := (1.0 - err) * 100.0;
    if pct > 0.0 then pct else 0.0
  }

  /**
   * The body of the try block: fit on the training part, forecast steps
   * values and score predictions over the test span. None when any library
   * call in it raises.
   */
  function TryArima(train: seq<real>, test: seq<real>, steps: nat, order: Order, lib: Library)
    : (r: Option<(seq<real>, real)>)
    ensures r.Some? ==>
      && lib.fit(train, order).Some?
      && lib.fit(train, order).value.forecast(steps).Some?
      && r.value.0 == lib.fit(train, order).value.forecast(steps).value
    ensures r.None? <==>
      || lib.fit(train, order).None?
      || lib.fit(train, order).value.forecast(steps).None?
      || (HasNonZero(test)
          && (|| lib.fit(train, order).value.predict(|train|, |train| + |test| - 1).None?
              || lib.mape(test, lib.fit(train, order).value.predict(|train|, |train| + |test| - 1).value).None?))
    ensures r.Some? ==> r.value.1 >= 0.0
    ensures r.Some? && MapeNonNegative(lib) ==> r.value.1 <= 100.0
  {
    match lib.fit(train, order)
    case None => None
    case Some(model) =>
      match model.forecast(steps)
      case None => None
      case Some(values) =>
        if |test| > 0 && HasNonZero(test) then
          match model.predict(|train|, |train| + |test| - 1)
          case None => None
          case Some(preds) =>
            match lib.mape(test, preds)
            case None => None
            case Some(err) => Some((values, AccuracyFromError(err)))
        else
          Some((values, 100.0))
  }

  /**
   * arima_forecast: all zeros for an empty series; otherwise the fitted
   * model's forecast with its accuracy, or, when any library call raises, the
   * series mean repeated with accuracy 0. It never fails.
   */
  function ArimaForecast(series: seq<real>, steps: nat, order: Order, lib: Library): (r: ForecastResult)
    requires ForecastsHaveRequestedLength(lib)
    ensures |r.values| == steps
    ensures series == [] ==>
      r.values == Repeat(0.0, steps) && r.historicalSum == 0.0 && r.accuracy == 0.0
    ensures series != [] ==> r.historicalSum == Sum(series)
    ensures r.accuracy >= 0.0
    ensures MapeNonNegative(lib) ==> r.accuracy <= 100.0
  {
    if series == [] then
      ForecastResult(Repeat(0.0, steps), 0.0, 0.0)
    else
      var (train, test) := Split(series);
      match TryArima(train, test, steps, order, lib)
      case Some((values, accuracy)) => ForecastResult(values, Sum(series), accuracy)
      case None => ForecastResult(Repeat(Mean(series), steps), Sum(series), 0.0)
  }

  /** The largest horizon (Python's max). */
  function MaxHorizon(horizons: seq<nat>): (m: nat)
    requires |horizons| > 0
    ensures m in horizons
    ensures forall h :: h in horizons ==> h <= m
  {
    if |horizons| == 1 then horizons[0]
    else
      var rest := MaxHorizon(horizons[1..]);
      assert forall h :: h in horizons[1..] ==> h in horizons;
      assert forall h :: h in horizons ==> h == horizons[0] || h in horizons[1..];
      if horizons[0] > rest then horizons[0] else rest
  }

  /** The single forecast multi_horizon_forecasts draws every horizon from. */
  function HorizonForecast(series: seq<real>, horizons: seq<nat>, lib: Library): (f: seq<real>)
    requires |horizons| > 0 && ForecastsHaveRequestedLength(lib)
    ensures |f| == MaxHorizon(horizons)
  {
    ArimaForecast(series, MaxHorizon(horizons), DefaultOrder, lib).values
  }

  /**
   * multi_horizon_forecasts: one forecast of max(horizons) steps; each
   * horizon h maps to the sum of its first h values. With no negative
   * forecast value, a longer horizon never maps to less.
   */
  method MultiHorizonForecasts(series: seq<real>, horizons: seq<nat>, lib: Library)
    returns (results: map<nat, real>)
    requires |horizons| > 0
    requires ForecastsHaveRequestedLength(lib)
    ensures results.Keys == set h | h in horizons
    ensures forall h :: h in results ==>
      h <= |HorizonForecast(series, horizons, lib)|
      && results[h] == Sum(HorizonForecast(series, horizons, lib)[..h])
    ensures AllNonNegative(HorizonForecast(series, horizons, lib)) ==>
      forall h1, h2 :: h1 in results && h2 in results && h1 <= h2 ==> results[h1] <= results[h2]
  {
    var forecast := ArimaForecast(series, MaxHorizon(horizons), DefaultOrder, lib).values;
    results := map[];
    for i := 0 to |horizons|
      invariant results.Keys == set h | h in horizons[..i]
      invariant forall h :: h in results ==> h <= |forecast| && results[h] == Sum(forecast[..h])
    {
      var h := horizons[i];
      assert h in horizons;
      assert horizons[..i + 1] == horizons[..i] + [h];
      results := results[h := Sum(forecast[..h])];
    }
    assert horizons[..|horizons|] == horizons;
    if AllNonNegative(forecast) {
      forall h1, h2 | h1 in results && h2 in results && h1 <= h2
        ensures results[h1] <= results[h2]
      {
        PrefixSumMonotone(forecast, h1, h2);
      }
    }
  }

  // ---------------------------------------------------------------------
  // Properties of the wrapper

  /**
   * When any library call of the try block raises (fit, forecast, predict or
   * the error metric), every value is the mean of the whole series, the
   * accuracy is 0 and the historical sum is still the series' sum.
   */
  lemma FallbackIsMean(series: seq<real>, steps: nat, order: Order, lib: Library)
    requires ForecastsHaveRequestedLength(lib)
    requires series != []
    requires TryArima(Split(series).0, Split(series).1, steps, order, lib).None?
    ensures var r := ArimaForecast(series, steps, order, lib);
      r.accuracy == 0.0
      && r.historicalSum == Sum(series)
      && forall i :: 0 <= i < steps ==> r.values[i] == Mean(series)
  {
  }

  /** A constant series on which the try block raises is forecast as that constant. */
  lemma ConstantSeriesFallback(series: seq<real>, c: real, steps: nat, order: Order, lib: Library)
    requires ForecastsHaveRequestedLength(lib)
    requires series != [] && forall i :: 0 <= i < |series| ==> series[i] == c
    requires TryArima(Split(series).0, Split(series).1, steps, order, lib).None?
    ensures var r := ArimaForecast(series, steps, order, lib);
      r.accuracy == 0.0 && forall i :: 0 <= i < steps ==> r.values[i] == c
  {
    MeanOfConstant(series, c);
  }

  /** The fallback forecast of a series without negative days has no negative value. */
  lemma FallbackNonNegative(series: seq<real>, steps: nat, order: Order, lib: Library)
    requires ForecastsHaveRequestedLength(lib)
    requires series != [] && AllNonNegative(series)
    requires TryArima(Split(series).0, Split(series).1, steps, order, lib).None?
    ensures AllNonNegative(ArimaForecast(series, steps, order, lib).values)
  {
    MeanNonNegative(series);
  }

  /**
   * On success with a test part that is all zeros, the accuracy is 100 and
   * the values are the model's forecast from the end of the training part.
   */
  lemma AllZeroTestScoresFull(series: seq<real>, steps: nat, order: Order, lib: Library)
    requires ForecastsHaveRequestedLength(lib)
    requires series != [] && !HasNonZero(Split(series).1)
    requires lib.fit(Split(series).0, order).Some?
    requires lib.fit(Split(series).0, order).value.forecast(steps).Some?
    ensures var r := ArimaForecast(series, steps, order, lib);
      r.accuracy == 100.0
      && r.values == lib.fit(Split(series).0, order).value.forecast(steps).value
  {
  }

  /**
   * On success with a non-zero test part, the accuracy is computed from the
   * error of the predictions over exactly the test positions.
   */
  lemma ScoredAgainstTestSpan(series: seq<real>, steps: nat, order: Order, lib: Library)
    requires ForecastsHaveRequestedLength(lib)
    requires series != [] && HasNonZero(Split(series).1)
    requires lib.fit(Split(series).0, order).Some?
    requires lib.fit(Split(series).0, order).value.forecast(steps).Some?
    requires lib.fit(Split(series).0, order).value.predict(TrainSize(|series|), |series| - 1).Some?
    requires lib.mape(Split(series).1,
      lib.fit(Split(series).0, order).value.predict(TrainSize(|series|), |series| - 1).value).Some?
    ensures var r := ArimaForecast(series, steps, order, lib);
      var model := lib.fit(Split(series).0, order).value;
      var err := lib.mape(Split(series).1, model.predict(TrainSize(|series|), |series| - 1).value).value;
      r.values == model.forecast(steps).value
      && (err <= 1.0 ==> r.accuracy == 100.0 - 100.0 * err)
      && (err >= 1.0 ==> r.accuracy == 0.0)
  {
  }

  /**
   * Forecasting more steps and keeping the first h values gives the forecast
   * of h steps, provided the library's forecasts are prefixes of each other.
   */
  lemma ForecastPrefix(series: seq<real>, h: nat, steps: nat, order: Order, lib: Library)
    requires ForecastsHaveRequestedLength(lib) && ForecastsArePrefixes(lib)
    requires h <= steps
    ensures ArimaForecast(series, steps, order, lib).values[..h]
      == ArimaForecast(series, h, order, lib).values
  {
    if series != [] {
      var (train, test) := Split(series);
      match lib.fit(train, order)
      case None =>
      case Some(model) =>
        assert model.forecast(h).Some? <==> model.forecast(steps).Some?;
        if model.forecast(steps).Some? {
          assert model.forecast(h).value == model.forecast(steps).value[..h];
        }
    }
  }

  /**
   * Each horizon's total equals summing the first h values of a separate
   * h-step forecast, provided the library's forecasts are prefixes of each other.
   */
  lemma HorizonMatchesDirectForecast(series: seq<real>, horizons: seq<nat>, h: nat, lib: Library)
    requires |horizons| > 0 && h in horizons
    requires ForecastsHaveRequestedLength(lib) && ForecastsArePrefixes(lib)
    ensures Sum(HorizonForecast(series, horizons, lib)[..h])
      == Sum(ArimaForecast(series, h, DefaultOrder, lib).values)
  {
    ForecastPrefix(series, h, MaxHorizon(horizons), DefaultOrder, lib);
  }
}
