/** The simplified ARIMA forecaster: difference the series `d` times, then add
    to the last reading an autoregressive correction that weighs the last `p`
    differences by the fixed coefficients 0.5, 0.25, 0.125, ... There is no
    fitting and no moving-average part; `q` only enters the length guard. */
module Arima {
  import opened Stats

  /** Python's `max` on two orders. */
  function MaxOrder(a: nat, b: nat): (r: nat)
    ensures r >= a && r >= b && (r == a || r == b)
  {
    if a >= b then a else b
  }

  /** Python's `min` on two counts. */
  function MinCount(a: nat, b: nat): (r: nat)
    ensures r <= a && r <= b && (r == a || r == b)
  {
    if a <= b then a else b
  }

  /** First difference (`np.diff`): the change between neighbouring readings. */
  function Diff(s: seq<real>): (r: seq<real>)
    ensures |s| > 0 ==> |r| == |s| - 1
    ensures |s| == 0 ==> r == []
    ensures forall i :: 0 <= i < |r| ==> r[i] == s[i + 1] - s[i]
  {
    if |s| == 0 then [] else seq(|s| - 1, i requires 0 <= i < |s| - 1 => s[i + 1] - s[i])
  }

  /** The series differenced `d` times. */
  function DiffN(s: seq<real>, d: nat): (r: seq<real>)
    ensures |s| >= d ==> |r| == |s| - d
    decreases d
  {
    if d == 0 then s else Diff(DiffN(s, d - 1))
  }

  /** `x` scaled by the autoregressive coefficient of the i-th most recent
      difference, 0.5 to the power i: halving `x` i times keeps the scaling
      linear. Scaling keeps the sign of `x` and never enlarges it. */
  function Halved(x: real, i: nat): (r: real)
    ensures x > 0.0 ==> 0.0 < r <= x
    ensures x == 0.0 ==> r == 0.0
    ensures x < 0.0 ==> x <= r < 0.0
    ensures i > 0 && x > 0.0 ==> r <= x / 2.0
  {
    if i == 0 then x else 0.5 * Halved(x, i - 1)
  }

  /** The contribution of the i-th most recent difference: it has the sign
      of that difference and is no larger in magnitude. */
  function ArTerm(diff: seq<real>, i: nat): (r: real)
    requires 1 <= i <= |diff|
    ensures diff[|diff| - i] > 0.0 ==> 0.0 < r <= diff[|diff| - i]
    ensures diff[|diff| - i] == 0.0 ==> r == 0.0
    ensures diff[|diff| - i] < 0.0 ==> diff[|diff| - i] <= r < 0.0
  {
    Halved(diff[|diff| - i], i)
  }

  /** The autoregressive correction over the last `k` differences: the sum
      over i = 1..k of 0.5 ** i * diff[-i]. */
  function ArSum(diff: seq<real>, k: nat): real
    requires k <= |diff|
    decreases k
  {
    if k == 0 then 0.0 else ArSum(diff, k - 1) + ArTerm(diff, k)
  }

  /** The forecast path: the last reading plus the autoregressive correction
      over the d-times differenced series, clamped at 0, so never
      negative. */
  function ArPath(data: seq<real>, p: nat, d: nat): (r: real)
    requires |data| > 0
    ensures r >= 0.0
  {
    var diff := DiffN(data, d);
    ClampAtZero(data[|data| - 1] + ArSum(diff, MinCount(p, |diff|)))
  }

  /** The ARIMA(p, d, q) forecast: the plain mean when the series is shorter
      than max(p, q) + d, otherwise the forecast path. */
  function ArimaForecast(data: seq<real>, p: nat, d: nat, q: nat): (r: real)
    requires |data| > 0
    ensures |data| < MaxOrder(p, q) + d ==> SeqMin(data) <= r <= SeqMax(data)
    ensures |data| >= MaxOrder(p, q) + d ==> r >= 0.0
  {
    MeanBetweenMinMax(data);
    if |data| < MaxOrder(p, q) + d then Mean(data) else ArPath(data, p, d)
  }

  /** Once the series has max(p, q) + d readings, the differenced series has
      at least max(p, q) of them: the second length check of `arima_simple`
      (`len(diff_data) < max(p, q)`) can never fire, and the correction always
      runs over exactly p differences. */
  lemma DifferencedLongEnough(data: seq<real>, p: nat, d: nat, q: nat)
    requires |data| >= MaxOrder(p, q) + d
    ensures |DiffN(data, d)| >= MaxOrder(p, q)
    ensures MinCount(p, |DiffN(data, d)|) == p
  {
  }

  /** A correction over positive differences is positive. */
  lemma {:induction false} ArSumPositive(diff: seq<real>, k: nat)
    requires 1 <= k <= |diff|
    requires forall i :: 0 <= i < |diff| ==> diff[i] > 0.0
    ensures ArSum(diff, k) > 0.0
    decreases k
  {
    assert ArTerm(diff, k) > 0.0;
    if k > 1 {
      ArSumPositive(diff, k - 1);
    }
  }

  /** A correction over zero differences is zero. */
  lemma {:induction false} ArSumZero(diff: seq<real>, k: nat)
    requires k <= |diff|
    requires Constant(diff, 0.0)
    ensures ArSum(diff, k) == 0.0
    decreases k
  {
    if k > 0 {
      ArSumZero(diff, k - 1);
      assert diff[|diff| - k] == 0.0;
    }
  }

  /** Differencing a constant series at least once gives zeros. */
  lemma {:induction false} DiffNConstant(data: seq<real>, d: nat, c: real)
    requires d >= 1
    requires Constant(data, c)
    ensures Constant(DiffN(data, d), 0.0)
    decreases d
  {
    var prev := DiffN(data, d - 1);
    var k := if d > 1 then 0.0 else c;
    if d > 1 {
      DiffNConstant(data, d - 1, c);
    }
    assert Constant(prev, k);
    var r := Diff(prev);
    forall i | 0 <= i < |r| ensures r[i] == 0.0 {
      assert r[i] == prev[i + 1] - prev[i];
    }
  }

  ghost predicate StrictlyIncreasing(s: seq<real>)
  {
    forall i, j :: 0 <= i < j < |s| ==> s[i] < s[j]
  }

  /** Over a strictly increasing series, the correction over the last p
      first differences is positive. */
  lemma IncreasingCorrectionPositive(data: seq<real>, p: nat)
    requires 1 <= p <= |data| - 1
    requires StrictlyIncreasing(data)
    ensures ArSum(DiffN(data, 1), p) > 0.0
  {
    var diff := DiffN(data, 1);
    assert diff == Diff(data);
    forall i | 0 <= i < |diff| ensures diff[i] > 0.0 {
      assert diff[i] == data[i + 1] - data[i];
    }
    ArSumPositive(diff, p);
  }

  /** A positive correction puts the forecast path above the last reading. */
  lemma ArPathAbove(data: seq<real>, p: nat)
    requires 1 <= p <= |data| - 1
    requires ArSum(DiffN(data, 1), p) > 0.0
    ensures ArPath(data, p, 1) > data[|data| - 1]
  {
  }

  /** The forecast path never predicts a negative value. */
  lemma ArimaNonNegative(data: seq<real>, p: nat, d: nat, q: nat)
    requires |data| >= MaxOrder(p, q) + d && |data| > 0
    ensures ArimaForecast(data, p, d, q) >= 0.0
  {
  }

  /** With one differencing step and at least one autoregressive term, a
      strictly increasing series is forecast strictly above its last
      reading. */
  lemma ArimaIncreasing(data: seq<real>, p: nat, q: nat)
    requires p >= 1 && |data| >= MaxOrder(p, q) + 1
    requires StrictlyIncreasing(data)
    ensures ArimaForecast(data, p, 1, q) > data[|data| - 1]
  {
    DifferencedLongEnough(data, p, 1, q);
    IncreasingCorrectionPositive(data, p);
    ArPathAbove(data, p);
  }

  /** A non-negative constant series is forecast as that constant whenever it
      is differenced at least once. */
  lemma ArimaConstant(data: seq<real>, p: nat, d: nat, q: nat, c: real)
    requires |data| > 0 && d >= 1 && c >= 0.0
    requires Constant(data, c)
    ensures ArimaForecast(data, p, d, q) == c
  {
    if |data| < MaxOrder(p, q) + d {
      MeanConstant(data, c);
    } else {
      var diff := DiffN(data, d);
      DiffNConstant(data, d, c);
      ArSumZero(diff, MinCount(p, |diff|));
    }
  }

  /** The differencing loop of `arima_simple`: `np.diff` applied d times. */
  method Difference(data: seq<real>, d: nat) returns (diff: seq<real>)
    ensures diff == DiffN(data, d)
  {
    diff := data;
    for k := 0 to d
      invariant diff == DiffN(data, k)
    {
      diff := Diff(diff);
    }
  }

  /** The accumulator loop of `arima_simple`: the autoregressive correction
      over the last min(p, len(diff)) differences. */
  method Correction(diff: seq<real>, p: nat) returns (ar: real)
    ensures ar == ArSum(diff, MinCount(p, |diff|))
  {
    ar := 0.0;
    for i := 1 to MinCount(p + 1, |diff| + 1)
      invariant ar == ArSum(diff, i - 1)
    {
      ar := ar + ArTerm(diff, i);
    }
  }

  /** Simplified ARIMA forecast, computed as `arima_simple` does: the mean of
      a short series, otherwise the differencing loop, then the accumulator
      loop, then the clamp. */
  method ArimaSimple(data: seq<real>, p: nat, d: nat, q: nat) returns (r: real)
    requires |data| > 0
    ensures r == ArimaForecast(data, p, d, q)
    ensures |data| < MaxOrder(p, q) + d ==> SeqMin(data) <= r <= SeqMax(data)
    ensures |data| >= MaxOrder(p, q) + d ==> r >= 0.0
  {
    if |data| < MaxOrder(p, q) + d {
      return Mean(data);
    }
    var diff := Difference(data, d);
    DifferencedLongEnough(data, p, d, q);
    var ar := Correction(diff, p);
    r := ClampAtZero(data[|data| - 1] + ar);
  }
}
