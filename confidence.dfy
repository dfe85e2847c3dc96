/**
 * `calculate_confidence_interval`: a Student-t interval around the sample
 * mean, or `(0, 0)` when there are fewer than two values.
 */
module Confidence {
  import opened Numeric

  /**
   * `stats.sem(data)`: the sample standard deviation over the root of the
   * sample size, taken here as the root of the variance over the size.
   */
  function StandardError(data: seq<real>, sqrt: real -> real): real
    requires |data| >= 2
  {
    sqrt(SampleVariance(data) / |data| as real)
  }

  /**
   * The interval at level `confidence`. `tQuantile(p, df)` is the quantile
   * function of Student's t distribution (`stats.t.ppf`).
   */
  function ConfidenceInterval(data: seq<real>, confidence: real, sqrt: real -> real,
                              tQuantile: (real, int) -> real): (r: (real, real))
    ensures |data| < 2 ==> r == (0.0, 0.0)
    ensures |data| >= 2 ==> r.0 + r.1 == 2.0 * Mean(data)
  {
    if |data| < 2 then (0.0, 0.0)
    else
      var interval := StandardError(data, sqrt) * tQuantile((1.0 + confidence) / 2.0, |data| - 1);
      (Mean(data) - interval, Mean(data) + interval)
  }

  /** The standard error is never negative. */
  lemma StandardErrorNonNegative(data: seq<real>, sqrt: real -> real)
    requires IsSqrt(sqrt) && |data| >= 2
    ensures StandardError(data, sqrt) >= 0.0
  {
    var v := SampleVariance(data);
    VarianceNonNegative(data);
    QuotientBounds(v, |data| as real, 0.0, v / |data| as real);
  }

  /** With a non-negative critical value the interval contains the mean. */
  lemma IntervalContainsMean(data: seq<real>, confidence: real, sqrt: real -> real,
                             tQuantile: (real, int) -> real)
    requires IsSqrt(sqrt) && |data| >= 2
    requires tQuantile((1.0 + confidence) / 2.0, |data| - 1) >= 0.0
    ensures var r := ConfidenceInterval(data, confidence, sqrt, tQuantile);
            r.0 <= Mean(data) <= r.1
  {
    StandardErrorNonNegative(data, sqrt);
    var se := StandardError(data, sqrt);
    var t := tQuantile((1.0 + confidence) / 2.0, |data| - 1);
    assert se * t >= 0.0;
  }

  /** Equal values give the zero-width interval at that value, whatever the level. */
  lemma ConstantDataDegenerate(data: seq<real>, c: real, confidence: real, sqrt: real -> real,
                               tQuantile: (real, int) -> real)
    requires IsSqrt(sqrt) && |data| >= 2
    requires forall i :: 0 <= i < |data| ==> data[i] == c
    ensures ConfidenceInterval(data, confidence, sqrt, tQuantile) == (c, c)
  {
    VarianceZeroIffConstant(data);
    SqrtZero(sqrt, 0.0);
    SumConstant(data, c);
    assert Mean(data) == c;
    assert StandardError(data, sqrt) == 0.0;
  }
}
