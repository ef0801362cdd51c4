/** The ensemble forecaster: runs the five statistical forecasters with their
    default parameters, takes the linear-regression prediction as given, and
    combines the six predictions with fixed weights. A band of 1.96 standard
    deviations either side of the combined value is reported as the
    confidence interval; the standard deviation of the predictions is taken
    as given as well. */
module Ensemble {
  import opened Stats
  import opened Smoothing
  import opened Decomposition
  import opened Arima

  /** One real per algorithm, in the order the predictions are collected:
      moving average, exponential smoothing, Holt-Winters, ARIMA, linear
      regression, seasonal decomposition. Used for both the predictions and
      the weights. */
  datatype PerAlgorithm = PerAlgorithm(
    movingAverage: real,
    exponentialSmoothing: real,
    holtWinters: real,
    arima: real,
    linearRegression: real,
    seasonalDecomposition: real)

  /** The lower and upper end of the confidence interval. */
  datatype Interval = Interval(lower: real, upper: real)

  /** Everything the ensemble reports. The linear-regression details are not
      part of this model. */
  datatype EnsembleResult = EnsembleResult(
    ensemblePrediction: real,
    individual: PerAlgorithm,
    confidence: Interval,
    predictionVariance: real,
    weights: PerAlgorithm,
    seasonalAnalysis: SeasonalResult)

  /** The fixed algorithm weights. */
  const Weights := PerAlgorithm(0.15, 0.20, 0.25, 0.05, 0.20, 0.15)

  /** The multiplier of the standard deviation in the confidence band. */
  const Z := 1.96

  /** The six values in collection order. */
  function Values(p: PerAlgorithm): (v: seq<real>)
    ensures |v| == 6
    ensures v[0] == p.movingAverage && v[1] == p.exponentialSmoothing
    ensures v[2] == p.holtWinters && v[3] == p.arima
    ensures v[4] == p.linearRegression && v[5] == p.seasonalDecomposition
  {
    [p.movingAverage, p.exponentialSmoothing, p.holtWinters, p.arima,
     p.linearRegression, p.seasonalDecomposition]
  }

  /** The weights are non-negative and sum to 1, so the ensemble is a convex
      combination of the predictions. */
  lemma WeightsConvex()
    ensures forall i :: 0 <= i < 6 ==> Values(Weights)[i] >= 0.0
    ensures Sum(Values(Weights)) == 1.0
  {
    var w := Values(Weights);
    assert w[..1][..0] == [];
    assert Sum(w[..1]) == 0.15;
    assert w[..2][..1] == w[..1];
    assert Sum(w[..2]) == 0.35;
    assert w[..3][..2] == w[..2];
    assert Sum(w[..3]) == 0.60;
    assert w[..4][..3] == w[..3];
    assert Sum(w[..4]) == 0.65;
    assert w[..5][..4] == w[..4];
    assert Sum(w[..5]) == 0.85;
    assert w[..5] == w[..|w| - 1];
  }

  /** The weighted sum of the predictions with the fixed weights. As the
      weights are convex, it lies between the smallest and the largest
      prediction and equals their common value when they all agree. */
  function Combined(p: PerAlgorithm): (r: real)
    ensures SeqMin(Values(p)) <= r <= SeqMax(Values(p))
    ensures Constant(Values(p), p.movingAverage) ==> r == p.movingAverage
  {
    p.movingAverage * Weights.movingAverage
    + p.exponentialSmoothing * Weights.exponentialSmoothing
    + p.holtWinters * Weights.holtWinters
    + p.arima * Weights.arima
    + p.linearRegression * Weights.linearRegression
    + p.seasonalDecomposition * Weights.seasonalDecomposition
  }

  /** Because the weights are convex, the combined value lies within any
      bounds that hold for every individual prediction. */
  lemma CombinedWithin(p: PerAlgorithm, lo: real, hi: real)
    requires Within(Values(p), lo, hi)
    ensures lo <= Combined(p) <= hi
  {
    var v := Values(p);
    assert lo <= v[0] <= hi && lo <= v[1] <= hi && lo <= v[2] <= hi;
    assert lo <= v[3] <= hi && lo <= v[4] <= hi && lo <= v[5] <= hi;
  }

  /** When every prediction agrees, the ensemble is that common value. */
  lemma CombinedAgreement(p: PerAlgorithm, c: real)
    requires Constant(Values(p), c)
    ensures Combined(p) == c
  {
    CombinedWithin(p, c, c);
  }

  /** The confidence band: 1.96 standard deviations either side of the
      prediction, unclamped. A non-negative deviation gives a band that
      contains the prediction, is centred on it and is 3.92 deviations wide. */
  function Confidence(prediction: real, std: real): (b: Interval)
    requires std >= 0.0
    ensures b.lower <= prediction <= b.upper
    ensures b.upper - prediction == prediction - b.lower
    ensures b.upper - b.lower == 2.0 * Z * std
    ensures std == 0.0 ==> b.lower == prediction == b.upper
  {
    Interval(prediction - Z * std, prediction + Z * std)
  }

  /** Assembles the result from the individual predictions, the standard
      deviation of the predictions and the seasonal analysis. */
  function Combine(p: PerAlgorithm, std: real, seasonal: SeasonalResult): (r: EnsembleResult)
    requires std >= 0.0
    ensures SeqMin(Values(p)) <= r.ensemblePrediction <= SeqMax(Values(p))
    ensures r.confidence.lower <= r.ensemblePrediction <= r.confidence.upper
    ensures r.individual == p && r.weights == Weights && r.predictionVariance == std
    ensures r.seasonalAnalysis == seasonal
  {
    var e := Combined(p);
    EnsembleResult(e, p, Confidence(e, std), std, Weights, seasonal)
  }

  /** The six predictions for `data` with the default parameters of each
      forecaster: a 24-hour window and period, alpha 0.3, beta and gamma 0.1,
      and ARIMA(1, 1, 1). */
  function Predictions(data: seq<real>, linearRegression: real): (p: PerAlgorithm)
    requires |data| > 0
    ensures SeqMin(data) <= p.movingAverage <= SeqMax(data)
    ensures SeqMin(data) <= p.exponentialSmoothing <= SeqMax(data)
    ensures |data| < 48 ==> SeqMin(data) <= p.holtWinters <= SeqMax(data)
    ensures |data| < 2 ==> SeqMin(data) <= p.arima <= SeqMax(data)
    ensures |data| >= 2 ==> p.arima >= 0.0
    ensures p.linearRegression == linearRegression
    ensures |data| >= 72 ==> p.seasonalDecomposition >= 0.0
    ensures |data| < 72 ==> SeqMin(data) <= p.seasonalDecomposition <= SeqMax(data)
  {
    ExpSmoothedBetweenMinMax(data, 0.3);
    PerAlgorithm(
      MovingAverage(data, 24),
      ExpSmoothed(data, 0.3),
      HoltWintersForecast(data, 24, 0.3, 0.1, 0.1),
      ArimaForecast(data, 1, 1, 1),
      linearRegression,
      SeasonalDecomposition(data, 24).prediction)
  }

  /** The ensemble forecast of `data`: the six default-parameter predictions
      combined, with the seasonal analysis of a 24-hour period. The ensemble
      lies between the smallest and largest prediction and inside its band,
      and the seasonal-decomposition prediction is the one the analysis
      reports. */
  function EnsembleOf(data: seq<real>, linearRegression: real, std: real): (r: EnsembleResult)
    requires |data| > 0 && std >= 0.0
    ensures SeqMin(Values(r.individual)) <= r.ensemblePrediction <= SeqMax(Values(r.individual))
    ensures r.confidence.lower <= r.ensemblePrediction <= r.confidence.upper
    ensures r.individual.linearRegression == linearRegression
    ensures r.individual.seasonalDecomposition == r.seasonalAnalysis.prediction
    ensures r.weights == Weights && r.predictionVariance == std
  {
    Combine(Predictions(data, linearRegression), std, SeasonalDecomposition(data, 24))
  }

  /** A non-negative constant load, with the linear regression agreeing, is
      forecast as that constant by every algorithm and so by the ensemble; with
      no spread the confidence interval collapses to that point. */
  lemma EnsembleConstant(data: seq<real>, c: real, std: real)
    requires |data| > 0 && c >= 0.0 && std >= 0.0
    requires Constant(data, c)
    ensures Values(EnsembleOf(data, c, std).individual) == [c, c, c, c, c, c]
    ensures EnsembleOf(data, c, std).ensemblePrediction == c
    ensures std == 0.0 ==> EnsembleOf(data, c, std).confidence == Interval(c, c)
  {
    MovingAverageConstant(data, 24, c);
    ExpSmoothedConstant(data, 0.3, c);
    HoltWintersConstant(data, 24, 0.3, 0.1, 0.1, c);
    ArimaConstant(data, 1, 1, 1, c);
    SeasonalDecompositionConstant(data, 24, c);
    var p := Predictions(data, c);
    assert Values(p) == [c, c, c, c, c, c];
    CombinedAgreement(p, c);
  }

  /** The ensemble forecast, computed as `ensemble_forecast` does: each forecaster is
      run in turn and the results are combined. */
  method EnsembleForecast(data: seq<real>, linearRegression: real, std: real) returns (r: EnsembleResult)
    requires |data| > 0 && std >= 0.0
    ensures r == EnsembleOf(data, linearRegression, std)
    ensures SeqMin(Values(r.individual)) <= r.ensemblePrediction <= SeqMax(Values(r.individual))
    ensures r.confidence.lower <= r.ensemblePrediction <= r.confidence.upper
    ensures r.individual.linearRegression == linearRegression
    ensures r.individual.seasonalDecomposition == r.seasonalAnalysis.prediction
  {
    var ma := MovingAverage(data, 24);
    var es := ExponentialSmoothing(data, 0.3);
    var hw := HoltWinters(data, 24, 0.3, 0.1, 0.1);
    var arima := ArimaSimple(data, 1, 1, 1);
    var seasonal := SeasonalDecompositionForecast(data, 24);
    var predictions := PerAlgorithm(ma, es, hw, arima, linearRegression, seasonal.prediction);
    r := Combine(predictions, std, seasonal);
  }
}
