/** Seasonal-decomposition forecasting: a centred moving-average trend, a
    per-position seasonal component averaged over the detrended series, and a
    forecast of the next trend value extrapolated linearly plus the seasonal
    component of the next position. */
module Decomposition {
  import opened Stats

  datatype Option<T> = None | Some(value: T)

  /** Whether the trend rose over its last step. */
  datatype Direction = Increasing | Decreasing

  /** The forecast and its parts. `direction` is None on the fall-back path,
      which reports no trend direction. */
  datatype SeasonalResult = SeasonalResult(
    prediction: real,
    trend: real,
    seasonal: real,
    direction: Option<Direction>)

  /** The half-open index window [start, end) of the centred moving average at
      position `i` of a series of length `n`, clipped to the series. */
  function TrendWindow(n: nat, period: nat, i: nat): (w: (nat, nat))
    requires period >= 1 && i < n
    ensures w.0 <= i < w.1 <= n
    ensures w.0 == 0 || i - w.0 == period / 2
    ensures w.1 == n || w.1 - i == period / 2 + 1
    ensures w.0 == 0 ==> i <= period / 2
    ensures w.1 == n ==> n <= i + period / 2 + 1
  {
    var start := if i - period / 2 < 0 then 0 else i - period / 2;
    var end := if n < i + period / 2 + 1 then n else i + period / 2 + 1;
    (start, end)
  }

  /** The trend at position `i`: the mean of the readings in its window. */
  function TrendAt(data: seq<real>, period: nat, i: nat): real
    requires period >= 1 && i < |data|
  {
    var w := TrendWindow(|data|, period, i);
    Mean(data[w.0..w.1])
  }

  /** The whole trend series, one value per reading. */
  function Trend(data: seq<real>, period: nat): (t: seq<real>)
    requires period >= 1
    ensures |t| == |data|
  {
    seq(|data|, i requires 0 <= i < |data| => TrendAt(data, period, i))
  }

  /** Every `step`-th element of `s` from index `start` on: the slice
      `s[start::step]`. */
  function Strided(s: seq<real>, start: nat, step: nat): (r: seq<real>)
    requires step >= 1
    ensures start < |s| ==> |r| > 0 && r[0] == s[start]
    ensures start >= |s| ==> r == []
    ensures forall x :: x in r ==> x in s
    decreases |s| - start
  {
    if start >= |s| then [] else [s[start]] + Strided(s, start + step, step)
  }

  /** The k-th element of `s[start::step]` is `s[start + k * step]`. */
  lemma {:induction false} StridedAt(s: seq<real>, start: nat, step: nat, k: nat)
    requires step >= 1 && k < |Strided(s, start, step)|
    ensures start + k * step < |s|
    ensures Strided(s, start, step)[k] == s[start + k * step]
    decreases k
  {
    if k > 0 {
      StridedAt(s, start + step, step, k - 1);
      assert start + k * step == (start + step) + (k - 1) * step;
    }
  }

  /** The mean of `s`, or 0 when `s` is empty. */
  function MeanOrZero(s: seq<real>): (r: real)
    ensures |s| == 0 ==> r == 0.0
    ensures |s| > 0 ==> SeqMin(s) <= r <= SeqMax(s)
  {
    if |s| > 0 then MeanBetweenMinMax(s); Mean(s) else 0.0
  }

  /** The seasonal component: for each position in the period, the mean of
      the detrended readings at that position. */
  function SeasonalComponent(detrended: seq<real>, period: nat): (c: seq<real>)
    requires period >= 1
    ensures |c| == period
  {
    seq(period, i requires 0 <= i < period => MeanOrZero(Strided(detrended, i, period)))
  }

  /** The next trend value: the last trend value extended by its last step,
      or the last value itself when there is no step to extend. It exceeds
      the last trend value exactly when the trend rose over its last step. */
  function NextTrend(trend: seq<real>): (r: real)
    requires |trend| > 0
    ensures |trend| > 1 ==> r - trend[|trend| - 1] == trend[|trend| - 1] - trend[|trend| - 2]
    ensures |trend| == 1 ==> r == trend[0]
    ensures r > trend[|trend| - 1] <==> |trend| > 1 && trend[|trend| - 1] > trend[|trend| - 2]
  {
    var n := |trend|;
    if n > 1 then trend[n - 1] + (trend[n - 1] - trend[n - 2]) else trend[n - 1]
  }

  /** Increasing when the trend rose over its last step, Decreasing otherwise
      (including a flat or one-point trend). */
  function TrendDirection(trend: seq<real>): (d: Direction)
    ensures |trend| > 0 ==> (d == Increasing <==> NextTrend(trend) > trend[|trend| - 1])
  {
    var n := |trend|;
    if n > 1 && trend[n - 1] > trend[n - 2] then Increasing else Decreasing
  }

  /** The seasonal-decomposition forecast. Fewer than three periods of data
      fall back to the plain mean. */
  function SeasonalDecomposition(data: seq<real>, period: nat): (r: SeasonalResult)
    requires |data| > 0 && period >= 1
    ensures r.direction.None? <==> |data| < 3 * period
    ensures |data| < 3 * period ==> SeqMin(data) <= r.prediction <= SeqMax(data)
    ensures |data| >= 3 * period ==>
      r.prediction >= 0.0 && r.prediction >= r.trend + r.seasonal
      && (r.trend + r.seasonal >= 0.0 ==> r.prediction == r.trend + r.seasonal)
    ensures |data| >= 3 * period ==>
      r.trend == NextTrend(Trend(data, period))
      && r.direction == Some(TrendDirection(Trend(data, period)))
  {
    MeanBetweenMinMax(data);
    if |data| < 3 * period then SeasonalResult(Mean(data), 0.0, 0.0, None)
    else
      var trend := Trend(data, period);
      var detrended := seq(|data|, i requires 0 <= i < |data| => data[i] - trend[i]);
      var seasonal := SeasonalComponent(detrended, period);
      var nextTrend := NextTrend(trend);
      var nextSeasonal := seasonal[|data| % period];
      SeasonalResult(ClampAtZero(nextTrend + nextSeasonal), nextTrend, nextSeasonal,
                     Some(TrendDirection(trend)))
  }

  /** The decomposition path never predicts a negative value and reports a
      trend direction; the fall-back path predicts the plain mean and reports
      none. */
  lemma SeasonalDecompositionBranches(data: seq<real>, period: nat)
    requires |data| > 0 && period >= 1
    ensures var r := SeasonalDecomposition(data, period);
      && (|data| < 3 * period ==> r.prediction == Mean(data) && r.direction == None)
      && (|data| >= 3 * period ==> r.prediction >= 0.0 && r.direction.Some?)
      && SeqMin(data) <= Mean(data) <= SeqMax(data)
  {
    MeanBetweenMinMax(data);
  }

  /** For a trend of at least two values, the direction is Increasing exactly
      when the trend rose over its last step, which is exactly when the next
      trend value exceeds the last. */
  lemma DirectionOfTrend(t: seq<real>)
    requires |t| >= 2
    ensures TrendDirection(t) == Increasing <==> t[|t| - 1] > t[|t| - 2]
    ensures TrendDirection(t) == Increasing <==> NextTrend(t) > t[|t| - 1]
  {
  }

  /** The reported direction is Increasing exactly when the last trend value
      exceeds the one before it, which is exactly when the extrapolated next
      trend exceeds the last trend value. */
  lemma TrendDirectionIncreasingIff(data: seq<real>, period: nat)
    requires period >= 1 && |data| >= 3 * period
    ensures var r := SeasonalDecomposition(data, period);
      var t := Trend(data, period);
      && (r.direction == Some(Increasing) <==> t[|data| - 1] > t[|data| - 2])
      && (r.direction == Some(Increasing) <==> r.trend > t[|data| - 1])
  {
    DirectionOfTrend(Trend(data, period));
  }

  /** Every trend value of a constant series is that constant. */
  lemma TrendConstant(data: seq<real>, period: nat, c: real)
    requires period >= 1
    requires Constant(data, c)
    ensures Constant(Trend(data, period), c)
  {
    var t := Trend(data, period);
    forall i | 0 <= i < |t| ensures t[i] == c {
      var w := TrendWindow(|data|, period, i);
      var window := data[w.0..w.1];
      assert Constant(window, c) by {
        forall k | 0 <= k < |window| ensures window[k] == c { assert window[k] == data[w.0 + k]; }
      }
      MeanConstant(window, c);
    }
  }

  /** The forecast for a non-negative constant series is that constant: the
      trend is flat, the detrended series is zero, so is every seasonal
      component, and the clamp leaves the constant unchanged. */
  lemma SeasonalDecompositionConstant(data: seq<real>, period: nat, c: real)
    requires |data| > 0 && period >= 1 && c >= 0.0
    requires Constant(data, c)
    ensures SeasonalDecomposition(data, period).prediction == c
  {
    if |data| < 3 * period {
      MeanConstant(data, c);
    } else {
      var n := |data|;
      var trend := Trend(data, period);
      TrendConstant(data, period, c);
      var detrended := seq(n, i requires 0 <= i < n => data[i] - trend[i]);
      assert Constant(detrended, 0.0);
      var j := n % period;
      var values := Strided(detrended, j, period);
      assert Constant(values, 0.0) by {
        forall k | 0 <= k < |values| ensures values[k] == 0.0 {
          assert values[k] in values;
        }
      }
      MeanConstant(values, 0.0);
      assert SeasonalComponent(detrended, period)[j] == 0.0;
      assert NextTrend(trend) == c;
    }
  }

  /** Seasonal-decomposition forecast, computed as
      `seasonal_decomposition_forecast` does: the trend
      list built by appending one window mean per reading, and the seasonal
      array filled position by position. */
  method SeasonalDecompositionForecast(data: seq<real>, period: nat) returns (r: SeasonalResult)
    requires |data| > 0 && period >= 1
    ensures r == SeasonalDecomposition(data, period)
    ensures |data| >= 3 * period ==> r.prediction >= 0.0 && r.direction.Some?
    ensures |data| < 3 * period ==> r == SeasonalResult(Mean(data), 0.0, 0.0, None)
  {
    var n := |data|;
    if n < 3 * period {
      return SeasonalResult(Mean(data), 0.0, 0.0, None);
    }
    var trend: seq<real> := [];
    for i := 0 to n
      invariant |trend| == i
      invariant forall k :: 0 <= k < i ==> trend[k] == TrendAt(data, period, k)
    {
      var w := TrendWindow(n, period, i);
      trend := trend + [Mean(data[w.0..w.1])];
    }
    assert trend == Trend(data, period);
    var detrended := seq(n, i requires 0 <= i < n => data[i] - trend[i]);
    var seasonal := new real[period](_ => 0.0);
    for i := 0 to period
      invariant forall k :: 0 <= k < i ==> seasonal[k] == SeasonalComponent(detrended, period)[k]
    {
      var values := Strided(detrended, i, period);
      seasonal[i] := if |values| > 0 then Mean(values) else 0.0;
    }
    assert seasonal[..] == SeasonalComponent(detrended, period);
    var nextTrend := NextTrend(trend);
    var nextSeasonal := seasonal[n % period];
    r := SeasonalResult(ClampAtZero(nextTrend + nextSeasonal), nextTrend, nextSeasonal,
                        Some(TrendDirection(trend)));
  }
}
