# Energy forecasting engine — a verified Dafny model

This project models the statistical forecasting engine of the energy
forecasting application. The engine is the class `EnergyForecastingAlgorithms`
in `backend/forecasting_algorithms.py`. Given an ordered series of hourly
consumption readings, each forecaster predicts the next reading:

- a moving average over the last 24 readings;
- simple exponential smoothing;
- Holt-Winters triple exponential smoothing with a 24-hour season;
- a moving-average seasonal decomposition;
- a fixed-coefficient "ARIMA" that adds a halving-weighted sum of recent
  differences to the last reading.

`ensemble_forecast` runs all five with their default parameters. It also takes
a linear-regression prediction, combines the six predictions with the fixed
weights 0.15 (moving average), 0.20 (exponential smoothing), 0.25
(Holt-Winters), 0.05 (ARIMA), 0.20 (linear regression) and 0.15 (seasonal
decomposition), and reports a band of ±1.96 standard deviations around the
result.

The project also models the deterministic parts of the synthetic data
generator in `backend/dataset_generator.py`:

- the month → season map;
- the seasonal pattern and temperature tables it looks up;
- the holiday calendar;
- the shaping of one hourly reading and its clamp at zero.

Numbers are modelled as `real`. A mean is only taken of a non-empty sequence,
because numpy returns NaN for the mean of an empty one.

Modules:

- `Stats` (Stats.dfy): sum, mean, minimum, maximum and the `max(0, x)` clamp,
  with the bounds lemmas the forecasters share.
- `Smoothing` (Smoothing.dfy): moving average, exponential smoothing and
  Holt-Winters.
- `Decomposition` (Decomposition.dfy): seasonal decomposition.
- `Arima` (Arima.dfy): the simplified ARIMA.
- `Ensemble` (Ensemble.dfy): the weighted ensemble and its confidence
  interval.
- `Dataset` (Dataset.dfy): seasons, patterns, holidays and the recorded
  consumption.

Each forecaster that the Python code writes as a loop is a `method` with that loop.
The method is proved equal to a recursive or comprehension-based specification
function: `ExpSmoothed`, `HwRun`/`HoltWintersForecast`, `SeasonalDecomposition`
and `ArimaForecast`. The properties are proved as lemmas about those functions.

## Model

| member | source | states |
|---|---|---|
| Stats.SeqMin | energy-forecasting-app/backend/forecasting_algorithms.py:17-19 | the minimum is an element of the series and no element is smaller |
| Stats.SeqMax | energy-forecasting-app/backend/forecasting_algorithms.py:17-19 | the maximum is an element of the series and no element is larger |
| Stats.ClampAtZero | energy-forecasting-app/backend/forecasting_algorithms.py:137-139 | `max(0, x)` is non-negative, at least `x`, equal to `x` when `x >= 0` and 0 otherwise |
| Stats.Mean | energy-forecasting-app/backend/forecasting_algorithms.py:18-19 | `np.mean`: the sum of a non-empty series divided by its length (its bounds are stated by MeanWithin and MeanBetweenMinMax) |
| Stats.MeanWithin | energy-forecasting-app/backend/forecasting_algorithms.py:17-19 | the mean of a non-empty series lies within any bounds that hold for each element |
| Stats.MeanBetweenMinMax | energy-forecasting-app/backend/forecasting_algorithms.py:17-19 | the mean lies between the series' minimum and maximum |
| Stats.MeanConstant | energy-forecasting-app/backend/forecasting_algorithms.py:17-19 | the mean of a constant series is that constant |
| Smoothing.AveragedSlice | energy-forecasting-app/backend/forecasting_algorithms.py:15-19 | the averaged slice is the whole series when it is shorter than the window (or the window is 0), otherwise exactly the last `window` readings |
| Smoothing.MovingAverage | energy-forecasting-app/backend/forecasting_algorithms.py:15-19 | the forecast lies between the min and max of the whole series when shorter than the window, of the last `window` readings otherwise, and always of the whole series |
| Smoothing.MovingAverageIgnoresOlderHistory | energy-forecasting-app/backend/forecasting_algorithms.py:19 | once the series is a window long, prepending older readings does not change the forecast |
| Smoothing.MovingAverageConstant | energy-forecasting-app/backend/forecasting_algorithms.py:15-19 | a constant series is forecast as that constant |
| Smoothing.Blend | energy-forecasting-app/backend/forecasting_algorithms.py:28 | the smoothing update `w * x + (1 - w) * prev` shared by all three smoothing recurrences (its convexity is stated by ConvexStep and BlendSame) |
| Smoothing.BlendSame | energy-forecasting-app/backend/forecasting_algorithms.py:28 | an update that blends a value with itself returns that value, for every weight |
| Smoothing.ConvexStep | energy-forecasting-app/backend/forecasting_algorithms.py:28 | with 0 ≤ alpha ≤ 1, one update stays within any interval holding both the previous result and the new reading |
| Smoothing.ExpSmoothed | energy-forecasting-app/backend/forecasting_algorithms.py:21-29 | 0 on the empty series, otherwise the left fold of the update from `data[0]`; with alpha = 1 it is the last reading and with alpha = 0 the first |
| Smoothing.ExpSmoothedWithin | energy-forecasting-app/backend/forecasting_algorithms.py:25-29 | for 0 ≤ alpha ≤ 1 the smoothed value stays within any bounds every reading respects |
| Smoothing.ExpSmoothedBetweenMinMax | energy-forecasting-app/backend/forecasting_algorithms.py:21-29 | for 0 ≤ alpha ≤ 1 the smoothed value lies between the series' min and max |
| Smoothing.ExpSmoothedConstant | energy-forecasting-app/backend/forecasting_algorithms.py:21-29 | a constant series is smoothed to that constant, for any alpha |
| Smoothing.ExponentialSmoothing | energy-forecasting-app/backend/forecasting_algorithms.py:21-29 | the loop computes the left fold of the smoothing update from the first reading; 0 on the empty series; within [min, max] for 0 ≤ alpha ≤ 1 |
| Smoothing.HwInit | energy-forecasting-app/backend/forecasting_algorithms.py:37-40 | the initial seasonal buffer has exactly `season_length` entries |
| Smoothing.HwStep | energy-forecasting-app/backend/forecasting_algorithms.py:43-47 | one step keeps the seasonal buffer at `season_length` entries and changes only the entry at `i % season_length` |
| Smoothing.HwRun | energy-forecasting-app/backend/forecasting_algorithms.py:42-47 | after any number of steps the seasonal buffer still has `season_length` entries, so every `seasonal[i % season_length]` is in bounds |
| Smoothing.HwStepFixpoint | energy-forecasting-app/backend/forecasting_algorithms.py:43-47 | a step on reading c leaves level c, trend 0 and an all-zero seasonal buffer unchanged |
| Smoothing.HwRunConstant | energy-forecasting-app/backend/forecasting_algorithms.py:37-47 | on a constant series the level stays at the constant and the trend and every seasonal entry stay 0 |
| Smoothing.HoltWintersConstant | energy-forecasting-app/backend/forecasting_algorithms.py:31-49 | a constant series is forecast as that constant on both branches |
| Smoothing.SmoothedBetweenMinMaxWhenConvex | energy-forecasting-app/backend/forecasting_algorithms.py:21-29 | for a non-empty series and 0 ≤ alpha ≤ 1 the smoothed value lies in [min, max] |
| Smoothing.HoltWintersForecast | energy-forecasting-app/backend/forecasting_algorithms.py:31-49 | exponential smoothing below two seasons, hence within [min, max] for 0 ≤ alpha ≤ 1 there; otherwise level + trend + seasonal[0] after the run |
| Smoothing.HoltWinters | energy-forecasting-app/backend/forecasting_algorithms.py:31-49 | the in-place loop over level, trend and the seasonal array computes the specification; with fewer than two seasons the result is exponential smoothing with the same alpha, otherwise level + trend + seasonal[0] after all steps |
| Decomposition.TrendWindow | energy-forecasting-app/backend/forecasting_algorithms.py:89-91 | the window `[max(0, i - period//2), min(n, i + period//2 + 1))` is non-empty, contains `i` and lies within the series; it is clipped at the start exactly when `i <= period//2` and at the end exactly when `n <= i + period//2 + 1`, and otherwise extends `period//2` on each side |
| Decomposition.TrendAt | energy-forecasting-app/backend/forecasting_algorithms.py:89-92 | the trend at position i is the mean of the readings in its clipped window |
| Decomposition.Trend | energy-forecasting-app/backend/forecasting_algorithms.py:88-94 | there is one trend value per reading |
| Decomposition.Strided | energy-forecasting-app/backend/forecasting_algorithms.py:102 | `s[start::step]` starts with `s[start]` when start is in range and is empty otherwise; its elements come from `s` |
| Decomposition.StridedAt | energy-forecasting-app/backend/forecasting_algorithms.py:102 | the k-th element of `s[start::step]` is `s[start + k*step]`, which is in bounds |
| Decomposition.MeanOrZero | energy-forecasting-app/backend/forecasting_algorithms.py:103 | 0 for an empty slice, otherwise the slice's mean, which lies between its min and max |
| Decomposition.SeasonalComponent | energy-forecasting-app/backend/forecasting_algorithms.py:100-103 | the seasonal component has exactly `period` entries, so `seasonal[len(data) % period]` is in bounds |
| Decomposition.NextTrend | energy-forecasting-app/backend/forecasting_algorithms.py:106 | the next trend value continues the last step of the trend (or repeats a one-point trend), and exceeds the last trend value exactly when the trend rose over its last step |
| Decomposition.TrendDirection | energy-forecasting-app/backend/forecasting_algorithms.py:115 | the direction is increasing exactly when the next trend value exceeds the last one |
| Decomposition.DirectionOfTrend | energy-forecasting-app/backend/forecasting_algorithms.py:106-115 | for a trend of two or more values the direction is increasing iff trend[-1] > trend[-2], iff the next trend exceeds trend[-1] |
| Decomposition.SeasonalDecomposition | energy-forecasting-app/backend/forecasting_algorithms.py:80-116 | a direction is reported exactly on the decomposition path; the fallback mean lies in [min, max]; the decomposition prediction is `max(0, next_trend + next_seasonal)`, with `next_trend` and the direction taken from the trend series |
| Decomposition.SeasonalDecompositionBranches | energy-forecasting-app/backend/forecasting_algorithms.py:82-115 | fewer than 3·period readings give the plain mean and no direction; otherwise the prediction is non-negative and a direction is reported |
| Decomposition.TrendDirectionIncreasingIff | energy-forecasting-app/backend/forecasting_algorithms.py:106-115 | the direction is increasing iff the last trend value exceeds the one before, iff the extrapolated next trend exceeds the last trend value |
| Decomposition.TrendConstant | energy-forecasting-app/backend/forecasting_algorithms.py:88-92 | every trend value of a constant series is that constant |
| Decomposition.SeasonalDecompositionConstant | energy-forecasting-app/backend/forecasting_algorithms.py:80-112 | a non-negative constant series is forecast as that constant |
| Decomposition.SeasonalDecompositionForecast | energy-forecasting-app/backend/forecasting_algorithms.py:80-116 | the trend-append loop and the seasonal-array loop compute the specification; the fallback result and the non-negative decomposition prediction |
| Arima.Diff | energy-forecasting-app/backend/forecasting_algorithms.py:126 | `np.diff` is one shorter and holds the neighbouring differences |
| Arima.DiffN | energy-forecasting-app/backend/forecasting_algorithms.py:124-126 | differencing d times shortens the series by d |
| Arima.Halved | energy-forecasting-app/backend/forecasting_algorithms.py:134 | scaling by `0.5 ** i` keeps the sign and never enlarges the value, and halves it at least once for i > 0 |
| Arima.ArTerm | energy-forecasting-app/backend/forecasting_algorithms.py:134 | the i-th term `0.5 ** i * diff[-i]` has the sign of `diff[-i]` and is no larger in magnitude |
| Arima.ArSum | energy-forecasting-app/backend/forecasting_algorithms.py:131-134 | the AR correction: the sum over i = 1..k of the terms (its sign is stated by ArSumPositive and ArSumZero) |
| Arima.ArPath | energy-forecasting-app/backend/forecasting_algorithms.py:124-139 | the main path `max(0, data[-1] + correction)` is never negative |
| Arima.ArimaForecast | energy-forecasting-app/backend/forecasting_algorithms.py:118-139 | below max(p, q) + d readings the forecast is the mean, within [min, max]; otherwise it is the main path and non-negative |
| Arima.DifferencedLongEnough | energy-forecasting-app/backend/forecasting_algorithms.py:120-134 | past the first length check the differenced series has at least max(p, q) entries, so the second check never fires and the AR sum runs over exactly p terms |
| Arima.ArSumPositive | energy-forecasting-app/backend/forecasting_algorithms.py:132-134 | an AR sum over positive differences is positive |
| Arima.ArSumZero | energy-forecasting-app/backend/forecasting_algorithms.py:132-134 | an AR sum over zero differences is zero |
| Arima.DiffNConstant | energy-forecasting-app/backend/forecasting_algorithms.py:124-126 | differencing a constant series at least once gives all zeros |
| Arima.IncreasingCorrectionPositive | energy-forecasting-app/backend/forecasting_algorithms.py:124-134 | over a strictly increasing series the AR correction on the first differences is positive |
| Arima.ArimaNonNegative | energy-forecasting-app/backend/forecasting_algorithms.py:137-139 | past the length guard the forecast is non-negative |
| Arima.ArimaIncreasing | energy-forecasting-app/backend/forecasting_algorithms.py:118-139 | with d = 1 and p ≥ 1, a strictly increasing series is forecast strictly above its last reading |
| Arima.ArimaConstant | energy-forecasting-app/backend/forecasting_algorithms.py:118-139 | a non-negative constant series is forecast as that constant when d ≥ 1 |
| Arima.Difference | energy-forecasting-app/backend/forecasting_algorithms.py:124-126 | the differencing loop yields the series differenced d times |
| Arima.Correction | energy-forecasting-app/backend/forecasting_algorithms.py:131-134 | the accumulator loop yields the AR correction over min(p, len(diff)) terms |
| Arima.ArimaSimple | energy-forecasting-app/backend/forecasting_algorithms.py:118-139 | the differencing loop and the AR accumulator compute the specification; the short-series mean lies in [min, max]; the main path is non-negative |
| Ensemble.Values | energy-forecasting-app/backend/forecasting_algorithms.py:146-174 | the prediction list holds the six predictions in collection order |
| Ensemble.WeightsConvex | energy-forecasting-app/backend/forecasting_algorithms.py:162-169 | the six weights are non-negative and sum to 1 |
| Ensemble.Combined | energy-forecasting-app/backend/forecasting_algorithms.py:172 | the weighted sum lies between the smallest and largest prediction and equals their common value when all agree |
| Ensemble.CombinedWithin | energy-forecasting-app/backend/forecasting_algorithms.py:172 | the weighted sum lies within any bounds every prediction respects |
| Ensemble.CombinedAgreement | energy-forecasting-app/backend/forecasting_algorithms.py:172 | when all predictions agree the ensemble equals them |
| Ensemble.Confidence | energy-forecasting-app/backend/forecasting_algorithms.py:182-183 | for std ≥ 0 the interval contains the prediction, is centred on it, is 2·1.96·std wide and collapses to a point when std = 0 |
| Ensemble.Combine | energy-forecasting-app/backend/forecasting_algorithms.py:171-189 | the ensemble lies between the min and max prediction and inside its interval; the result carries the predictions, the weights, the std and the seasonal analysis |
| Ensemble.Predictions | energy-forecasting-app/backend/forecasting_algorithms.py:146-159 | with the default parameters: moving average and exponential smoothing within [min, max] of the series; Holt-Winters, ARIMA and seasonal decomposition within [min, max] on their fallback paths and ARIMA and seasonal decomposition non-negative otherwise; the regression value passed through |
| Ensemble.EnsembleOf | energy-forecasting-app/backend/forecasting_algorithms.py:141-189 | the ensemble result of the six default-parameter predictions (window 24, alpha 0.3, Holt-Winters (24, 0.3, 0.1, 0.1), ARIMA(1, 1, 1), period 24) with the seasonal analysis of period 24: the ensemble lies between the smallest and largest prediction and inside its band, the regression value is passed through, the seasonal-decomposition prediction is the one the analysis reports, and the fixed weights and the std are reported |
| Ensemble.EnsembleConstant | energy-forecasting-app/backend/forecasting_algorithms.py:141-189 | a non-negative constant series with an agreeing regression is forecast as that constant by all six algorithms and by the ensemble; the interval collapses when std = 0 |
| Ensemble.EnsembleForecast | energy-forecasting-app/backend/forecasting_algorithms.py:141-189 | running the five forecaster methods and combining them computes the specification; the ensemble lies between min and max prediction and inside its interval |
| Dataset.GetSeason | energy-forecasting-app/backend/dataset_generator.py:17-26 | months 12, 1, 2 are winter, 3–5 spring, 6–8 summer, every other integer autumn; the result is a key of both lookup tables |
| Dataset.SeasonsOfTheYear | energy-forecasting-app/backend/dataset_generator.py:17-26 | the months 1–12 split into four seasons of three months, with autumn = {9, 10, 11} |
| Dataset.PeakAndNightDisjoint | energy-forecasting-app/backend/dataset_generator.py:10-45 | in every season no hour is both a peak hour and a night hour |
| Dataset.ShapeOrderIrrelevant | energy-forecasting-app/backend/dataset_generator.py:42-45 | testing night hours before peak hours gives the same daily shape |
| Dataset.DailyLoad | energy-forecasting-app/backend/dataset_generator.py:39-45 | a peak hour adds 80 % of the amplitude, the maximum; a night hour takes 60 % of the base, the minimum; any other hour is the base |
| Dataset.ShapedLoad | energy-forecasting-app/backend/dataset_generator.py:35-49 | the shaped load is between 31.5 and 132 and is reduced to 75 % exactly at the weekend |
| Dataset.WeatherLoad | energy-forecasting-app/backend/dataset_generator.py:54-58 | the cooling draw applies on summer hours 12–15, the heating draw on winter hours 6–8 and 17–19, and nothing otherwise |
| Dataset.RawConsumption | energy-forecasting-app/backend/dataset_generator.py:39-58 | the shaped load plus the noise and weather draws: at least 31.5 + noise with non-negative weather draws, at most 132 + noise with non-positive ones |
| Dataset.RecordedConsumption | energy-forecasting-app/backend/dataset_generator.py:62 | the recorded value is non-negative whatever the noise and weather draws, and equals the raw value when that is non-negative |
| Dataset.ClampInactiveForModestNoise | energy-forecasting-app/backend/dataset_generator.py:39-62 | with non-negative weather draws and a noise draw that takes away no more than the shaped load (noise ≥ −load), the clamp changes nothing |
| Dataset.IsHoliday | energy-forecasting-app/backend/dataset_generator.py:92-100 | a date is a holiday exactly when it is 1 January, 4 July or 25 December |
| Dataset.HolidaySeasons | energy-forecasting-app/backend/dataset_generator.py:92-100 | every holiday falls in winter or summer, and no month holds two |

## Left out

- `linear_regression_forecast` (an sklearn fit, prediction and score) is not
  part of this model. Its prediction is a plain `real` parameter of the
  ensemble, and its details dictionary is not reported.
- Ensemble.Combine: the standard deviation of the predictions (`np.std`, which
  needs a square root) is a parameter required to be non-negative. It is not tied to
  the six predictions.
- Floating point is modelled as exact `real` arithmetic: no rounding,
  overflow, NaN or infinity.
- Integer parameters are `nat`. Negative windows, periods and orders are not
  modelled. `season_length` and `period` must be at least 1, because
  `holt_winters` and `seasonal_decomposition_forecast` divide by or take the
  remainder modulo them.
- The mean of an empty series is NaN in numpy. The moving average, Holt-Winters
  initialisation, seasonal decomposition, ARIMA and ensemble therefore require
  a non-empty series. Exponential smoothing returns 0 on the empty series, as
  `exponential_smoothing` does. `arima_simple` with p = q = d = 0 also fails on
  the empty series: its length guard does not fire and `data[-1]` raises an
  index error.
- Arima.ArimaSimple: the second length check in `arima_simple`
  (`len(diff_data) < max(p, q)`, returning `data[-1]`) is not a branch of the
  model. `Arima.DifferencedLongEnough` proves it can never fire.
- Decomposition.SeasonalDecompositionBranches: the prediction is non-negative
  only on the decomposition path. The fallback returns the plain mean, which is
  negative for negative readings.
- The fallback result of `seasonal_decomposition_forecast` carries no trend
  direction. It is modelled as `None`.
- The trend and seasonal values of that fallback are integer zeros in
  `seasonal_decomposition_forecast` and `0.0` here.
- `models.py` (GRU/LSTM networks, model loading, scalers) is not part of this
  model: it is learned numerics in a foreign library.
- `main.py` and `simple_main.py` (HTTP routing, request validation, the
  `< 10` length check and the confidence expression) are not part of this
  model: they are request-handling glue.
- The random and clock-driven parts of the data generator are not modelled:
  the normal and uniform draws, the date range, `simulate_temperature` and the
  pandas group and correlation statistics.
  - The noise and the cooling and heating draws become parameters of
    `Dataset.RecordedConsumption`.
  - The temperature table is modelled only as a lookup that cannot fail.
- The unused `StandardScaler` field of the forecasting class is left out.
