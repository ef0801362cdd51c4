/** The smoothing forecasters: moving average, simple exponential smoothing and
    Holt-Winters triple exponential smoothing. Each predicts the value that
    follows `data`, an ordered series of hourly consumption readings. */
module Smoothing {
  import opened Stats

  /** The slice a moving average of width `window` averages: the whole series
      when it is shorter than the window, otherwise its last `window` readings.
      A window of 0 selects the whole series, as the slice `data[-0:]` does. */
  function AveragedSlice(data: seq<real>, window: nat): (r: seq<real>)
    ensures |data| < window ==> r == data
    ensures 0 < window <= |data| ==> |r| == window && r == data[|data| - window..]
    ensures window == 0 ==> r == data
  {
    if |data| < window || window == 0 then data else data[|data| - window..]
  }

  /** Moving-average forecast: the mean of the last `window` readings, or of
      the whole series when it is shorter than the window. The forecast lies
      between the smallest and the largest averaged reading. */
  function MovingAverage(data: seq<real>, window: nat): (r: real)
    requires |data| > 0
    ensures |data| < window ==> SeqMin(data) <= r <= SeqMax(data)
    ensures 0 < window <= |data| ==>
      SeqMin(data[|data| - window..]) <= r <= SeqMax(data[|data| - window..])
    ensures SeqMin(data) <= r <= SeqMax(data)
  {
    var slice := AveragedSlice(data, window);
    MeanBetweenMinMax(slice);
    MeanWithin(slice, SeqMin(data), SeqMax(data));
    Mean(slice)
  }

  /** Only the last `window` readings matter: older history does not change
      the moving average once the series is at least a window long. */
  lemma MovingAverageIgnoresOlderHistory(older: seq<real>, data: seq<real>, window: nat)
    requires 0 < window <= |data|
    ensures MovingAverage(older + data, window) == MovingAverage(data, window)
  {
    var all := older + data;
    assert all[|all| - window..] == data[|data| - window..];
    assert AveragedSlice(all, window) == AveragedSlice(data, window);
  }

  /** The moving average of a constant series is that constant. */
  lemma MovingAverageConstant(data: seq<real>, window: nat, c: real)
    requires |data| > 0
    requires Constant(data, c)
    ensures MovingAverage(data, window) == c
  {
    var slice := AveragedSlice(data, window);
    assert Constant(slice, c) by {
      forall i | 0 <= i < |slice| ensures slice[i] == c {
        if 0 < window <= |data| { assert slice[i] == data[|data| - window + i]; }
      }
    }
    MeanConstant(slice, c);
  }

  /** The smoothing update shared by every forecaster in this module: weight
      `w` on the new value `x` and `1 - w` on the previous value `prev`. */
  function Blend(w: real, x: real, prev: real): real
  {
    w * x + (1.0 - w) * prev
  }

  /** Blending a value with itself gives that value back, whatever the weight. */
  lemma BlendSame(w: real, x: real)
    ensures Blend(w, x, x) == x
  {
  }

  /** Simple exponential smoothing of `data`: 0 for the empty series, otherwise
      the first reading folded with `Blend(alpha, x, result)` over the
      remaining readings in order. With alpha 1 it follows the last reading;
      with alpha 0 it keeps the first. */
  function ExpSmoothed(data: seq<real>, alpha: real): (r: real)
    ensures |data| > 0 && alpha == 1.0 ==> r == data[|data| - 1]
    ensures |data| > 0 && alpha == 0.0 ==> r == data[0]
    decreases |data|
  {
    if |data| == 0 then 0.0
    else if |data| == 1 then data[0]
    else Blend(alpha, data[|data| - 1], ExpSmoothed(data[..|data| - 1], alpha))
  }

  /** A fraction `alpha` in [0, 1] of `d` lies between 0 and `d`. */
  lemma FractionBetween(alpha: real, d: real)
    requires 0.0 <= alpha <= 1.0
    ensures d >= 0.0 ==> 0.0 <= alpha * d <= d
    ensures d <= 0.0 ==> d <= alpha * d <= 0.0
  {
    assert d - alpha * d == (1.0 - alpha) * d;
  }

  /** One smoothing step keeps a value inside an interval that holds both the
      previous result and the new reading, provided 0 <= alpha <= 1. */
  lemma ConvexStep(alpha: real, x: real, prev: real, lo: real, hi: real)
    requires 0.0 <= alpha <= 1.0
    requires lo <= x <= hi && lo <= prev <= hi
    ensures lo <= Blend(alpha, x, prev) <= hi
  {
    var d := x - prev;
    FractionBetween(alpha, d);
    var t := alpha * d;
    if d >= 0.0 {
      assert 0.0 <= t <= d;
    } else {
      assert d <= t <= 0.0;
    }
    assert lo <= prev + t <= hi;
    assert alpha * x + (1.0 - alpha) * prev == prev + t;
  }

  /** With 0 <= alpha <= 1, the smoothed value of a non-empty series stays
      inside any interval that holds every reading. */
  lemma {:induction false} ExpSmoothedWithin(data: seq<real>, alpha: real, lo: real, hi: real)
    requires |data| > 0
    requires 0.0 <= alpha <= 1.0
    requires Within(data, lo, hi)
    ensures lo <= ExpSmoothed(data, alpha) <= hi
    decreases |data|
  {
    if |data| > 1 {
      var p := data[..|data| - 1];
      assert Within(p, lo, hi) by {
        forall i | 0 <= i < |p| ensures lo <= p[i] <= hi { assert p[i] == data[i]; }
      }
      ExpSmoothedWithin(p, alpha, lo, hi);
      ConvexStep(alpha, data[|data| - 1], ExpSmoothed(p, alpha), lo, hi);
    }
  }

  /** With 0 <= alpha <= 1, the smoothed value lies between the smallest and
      the largest reading. */
  lemma ExpSmoothedBetweenMinMax(data: seq<real>, alpha: real)
    requires |data| > 0
    requires 0.0 <= alpha <= 1.0
    ensures SeqMin(data) <= ExpSmoothed(data, alpha) <= SeqMax(data)
  {
    ExpSmoothedWithin(data, alpha, SeqMin(data), SeqMax(data));
  }

  /** Smoothing a constant series gives back the constant, whatever alpha is. */
  lemma {:induction false} ExpSmoothedConstant(data: seq<real>, alpha: real, c: real)
    requires |data| > 0
    requires Constant(data, c)
    ensures ExpSmoothed(data, alpha) == c
    decreases |data|
  {
    if |data| > 1 {
      var p := data[..|data| - 1];
      assert Constant(p, c) by {
        forall i | 0 <= i < |p| ensures p[i] == c { assert p[i] == data[i]; }
      }
      ExpSmoothedConstant(p, alpha, c);
      BlendSame(alpha, c);
    }
  }

  /** Exponential-smoothing forecast, computed by a loop that updates the
      running result reading by reading. */
  method ExponentialSmoothing(data: seq<real>, alpha: real) returns (r: real)
    ensures r == ExpSmoothed(data, alpha)
    ensures data == [] ==> r == 0.0
    ensures data != [] && 0.0 <= alpha <= 1.0 ==> SeqMin(data) <= r <= SeqMax(data)
  {
    if |data| == 0 {
      return 0.0;
    }
    r := data[0];
    for i := 1 to |data|
      invariant r == ExpSmoothed(data[..i], alpha)
    {
      assert data[..i + 1][..i] == data[..i];
      r := Blend(alpha, data[i], r);
    }
    assert data[..|data|] == data;
    if 0.0 <= alpha <= 1.0 {
      ExpSmoothedBetweenMinMax(data, alpha);
    }
  }

  /** The Holt-Winters components: the smoothed level, the smoothed trend and
      one seasonal offset per position in the season. */
  datatype HwState = HwState(level: real, trend: real, seasonal: seq<real>)

  /** The components before smoothing starts: the level is the mean of the
      first season, the trend the per-step change between the means of the
      first two seasons, and each seasonal offset a first-season reading
      minus that level. */
  function HwInit(data: seq<real>, m: nat): (st: HwState)
    requires 1 <= m && 2 * m <= |data|
    ensures |st.seasonal| == m
  {
    var level := Mean(data[..m]);
    HwState(level,
            (Mean(data[m..2 * m]) - Mean(data[..m])) / (m as real),
            seq(m, i requires 0 <= i < m => data[i] - level))
  }

  /** One smoothing step on reading `x` at position `i` of the series; only
      the seasonal offset at `i % m` changes. */
  function HwStep(st: HwState, x: real, i: nat, m: nat, alpha: real, beta: real, gamma: real): (r: HwState)
    requires 1 <= m && |st.seasonal| == m
    ensures |r.seasonal| == m
    ensures forall k :: 0 <= k < m && k != i % m ==> r.seasonal[k] == st.seasonal[k]
  {
    var j := i % m;
    var level := Blend(alpha, x - st.seasonal[j], st.level + st.trend);
    var trend := Blend(beta, level - st.level, st.trend);
    HwState(level, trend, st.seasonal[j := Blend(gamma, x - level, st.seasonal[j])])
  }

  /** The components after smoothing readings m .. k-1. */
  function HwRun(data: seq<real>, m: nat, alpha: real, beta: real, gamma: real, k: nat): (st: HwState)
    requires 1 <= m && 2 * m <= |data| && m <= k <= |data|
    ensures |st.seasonal| == m
    decreases k
  {
    if k == m then HwInit(data, m)
    else HwStep(HwRun(data, m, alpha, beta, gamma, k - 1), data[k - 1], k - 1, m, alpha, beta, gamma)
  }

  /** ExpSmoothedBetweenMinMax for every input, stated under its condition. */
  lemma SmoothedBetweenMinMaxWhenConvex(data: seq<real>, alpha: real)
    ensures |data| > 0 && 0.0 <= alpha <= 1.0 ==>
      SeqMin(data) <= ExpSmoothed(data, alpha) <= SeqMax(data)
  {
    if |data| > 0 && 0.0 <= alpha <= 1.0 {
      ExpSmoothedBetweenMinMax(data, alpha);
    }
  }

  /** Holt-Winters forecast: exponential smoothing with the same alpha when the
      series holds fewer than two seasons, otherwise level + trend + the
      seasonal offset at position 0 after smoothing the whole series. */
  function HoltWintersForecast(data: seq<real>, m: nat, alpha: real, beta: real, gamma: real): (r: real)
    requires m >= 1
    ensures 0 < |data| < 2 * m && 0.0 <= alpha <= 1.0 ==> SeqMin(data) <= r <= SeqMax(data)
  {
    if |data| < 2 * m then
      SmoothedBetweenMinMaxWhenConvex(data, alpha);
      ExpSmoothed(data, alpha)
    else
      var st := HwRun(data, m, alpha, beta, gamma, |data|);
      st.level + st.trend + st.seasonal[0]
  }

  /** A smoothing step on reading `c` leaves the state (c, 0, zeros) as it is. */
  lemma HwStepFixpoint(c: real, i: nat, m: nat, alpha: real, beta: real, gamma: real)
    requires m >= 1
    ensures HwStep(HwState(c, 0.0, seq(m, _ => 0.0)), c, i, m, alpha, beta, gamma)
         == HwState(c, 0.0, seq(m, _ => 0.0))
  {
    var zeros := seq(m, _ => 0.0);
    BlendSame(alpha, c);
    BlendSame(beta, 0.0);
    BlendSame(gamma, 0.0);
    assert zeros[i % m := 0.0] == zeros;
  }

  /** On a constant series the level stays at the constant while the trend
      and every seasonal offset stay 0. */
  lemma {:induction false} HwRunConstant(data: seq<real>, m: nat, alpha: real, beta: real, gamma: real, k: nat, c: real)
    requires 1 <= m && 2 * m <= |data| && m <= k <= |data|
    requires Constant(data, c)
    ensures HwRun(data, m, alpha, beta, gamma, k) == HwState(c, 0.0, seq(m, _ => 0.0))
    decreases k
  {
    var zeros := seq(m, _ => 0.0);
    if k == m {
      assert Constant(data[..m], c);
      assert Constant(data[m..2 * m], c);
      MeanConstant(data[..m], c);
      MeanConstant(data[m..2 * m], c);
      assert HwInit(data, m).seasonal == zeros;
    } else {
      HwRunConstant(data, m, alpha, beta, gamma, k - 1, c);
      assert data[k - 1] == c;
      HwStepFixpoint(c, k - 1, m, alpha, beta, gamma);
    }
  }

  /** The Holt-Winters forecast of a constant series is that constant. */
  lemma HoltWintersConstant(data: seq<real>, m: nat, alpha: real, beta: real, gamma: real, c: real)
    requires m >= 1 && |data| > 0
    requires Constant(data, c)
    ensures HoltWintersForecast(data, m, alpha, beta, gamma) == c
  {
    if |data| < 2 * m {
      ExpSmoothedConstant(data, alpha, c);
    } else {
      HwRunConstant(data, m, alpha, beta, gamma, |data|, c);
    }
  }

  /** Holt-Winters forecast, computed by a loop that updates the level and the
      trend and overwrites one entry of the seasonal buffer per reading. */
  method HoltWinters(data: seq<real>, seasonLength: nat, alpha: real, beta: real, gamma: real)
    returns (r: real)
    requires seasonLength >= 1
    ensures r == HoltWintersForecast(data, seasonLength, alpha, beta, gamma)
    ensures |data| < 2 * seasonLength ==> r == ExpSmoothed(data, alpha)
    ensures |data| >= 2 * seasonLength ==>
      r == HwRun(data, seasonLength, alpha, beta, gamma, |data|).level
         + HwRun(data, seasonLength, alpha, beta, gamma, |data|).trend
         + HwRun(data, seasonLength, alpha, beta, gamma, |data|).seasonal[0]
  {
    var m := seasonLength;
    if |data| < 2 * m {
      r := ExponentialSmoothing(data, alpha);
      return;
    }
    var level := Mean(data[..m]);
    var trend := (Mean(data[m..2 * m]) - Mean(data[..m])) / (m as real);
    var first := level;
    var seasonal := new real[m](i requires 0 <= i < m => data[i] - first);
    assert seasonal[..] == HwInit(data, m).seasonal;
    for i := m to |data|
      invariant level == HwRun(data, m, alpha, beta, gamma, i).level
      invariant trend == HwRun(data, m, alpha, beta, gamma, i).trend
      invariant seasonal[..] == HwRun(data, m, alpha, beta, gamma, i).seasonal
    {
      ghost var next := HwStep(HwState(level, trend, seasonal[..]), data[i], i, m, alpha, beta, gamma);
      assert next == HwRun(data, m, alpha, beta, gamma, i + 1);
      var j := i % m;
      var prevLevel := level;
      level := Blend(alpha, data[i] - seasonal[j], level + trend);
      trend := Blend(beta, level - prevLevel, trend);
      seasonal[j] := Blend(gamma, data[i] - level, seasonal[j]);
      assert seasonal[..] == next.seasonal;
    }
    r := level + trend + seasonal[0];
  }
}
