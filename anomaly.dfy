/**
 * `detect_anomaly`: the z-score test of a new amount against the category's
 * transaction-level mean and standard deviation.
 */
module Anomaly {
  import opened Wrappers
  import opened Records
  import opened Numeric
  import opened CategoryStatistics

  /** The window `detect_anomaly` asks for: the default six months. */
  const AnomalyWindowMonths: int := 6

  /** The decision on already computed statistics: `(is_anomaly, z_score)`. */
  function Decide(stats: Option<CategoryStats>, amount: real, threshold: real): (r: (bool, real))
    ensures stats.None? ==> r == (false, 0.0)
    ensures stats.Some? && stats.value.transactionStd == 0.0 ==> r == (false, 0.0)
    ensures stats.Some? && stats.value.transactionStd != 0.0 ==>
              && r.1 * stats.value.transactionStd == amount - stats.value.transactionMean
              && (r.0 <==> Abs(r.1) > threshold)
  {
    if stats.None? || stats.value.transactionStd == 0.0 then (false, 0.0)
    else
      var z := (amount - stats.value.transactionMean) / stats.value.transactionStd;
      (Abs(z) > threshold, z)
  }

  /** The engine's entry point: compute the six-month statistics, then decide. */
  method DetectAnomaly(ts: seq<Transaction>, category: string, amount: real, threshold: real,
                       now: int, userId: int, sqrt: real -> real)
    returns (isAnomaly: bool, zScore: real)
    ensures (isAnomaly, zScore)
         == Decide(Stats(ts, category, AnomalyWindowMonths, now, userId, sqrt), amount, threshold)
    ensures (forall i :: 0 <= i < |ts| ==>
               !Matches(ts[i], category, Cutoff(now, AnomalyWindowMonths), userId))
            ==> !isAnomaly && zScore == 0.0
  {
    var stats := CalculateCategoryStats(ts, category, AnomalyWindowMonths, now, userId, sqrt);
    isAnomaly, zScore := Decide(stats, amount, threshold).0, Decide(stats, amount, threshold).1;
  }

  /** For any non-negative threshold, the flag is exactly `|z| > threshold`, degenerate cases included. */
  lemma FlagIsAbsZAboveThreshold(stats: Option<CategoryStats>, amount: real, threshold: real)
    requires threshold >= 0.0
    ensures Decide(stats, amount, threshold).0 <==> Abs(Decide(stats, amount, threshold).1) > threshold
  {
  }

  /** `|d / s| > t` exactly when `|d| > t * s`, for a positive `s`. */
  lemma AbsQuotientAbove(d: real, s: real, t: real)
    requires s > 0.0
    ensures Abs(d / s) > t <==> Abs(d) > t * s
  {
    var q := d / s;
    assert q * s == d;
    assert Abs(q) * s == Abs(d);
    if Abs(q) > t {
      assert (Abs(q) - t) * s > 0.0;
    } else {
      assert (t - Abs(q)) * s >= 0.0;
    }
  }

  /**
   * With a positive standard deviation the test needs no division: the amount
   * is an anomaly exactly when it lies more than `threshold` deviations from the mean,
   * and z has the sign of `amount - mean`.
   */
  lemma AnomalyIffFarFromMean(stats: CategoryStats, amount: real, threshold: real)
    requires stats.transactionStd > 0.0
    ensures var r := Decide(Some(stats), amount, threshold);
            && (r.0 <==> Abs(amount - stats.transactionMean) > threshold * stats.transactionStd)
            && (r.1 > 0.0 <==> amount > stats.transactionMean)
            && (r.1 < 0.0 <==> amount < stats.transactionMean)
  {
    var d := amount - stats.transactionMean;
    var s := stats.transactionStd;
    AbsQuotientAbove(d, s, threshold);
    var z := d / s;
    assert z * s == d;
    if z > 0.0 {
      assert z * s > 0.0;
    } else if z < 0.0 {
      assert (-z) * s > 0.0;
    }
  }

  /**
   * With an exact square root, a category whose windowed amounts are all equal
   * never flags an anomaly, whatever the amount and threshold.
   */
  lemma UniformHistoryNeverFlags(ts: seq<Transaction>, category: string, amount: real, threshold: real,
                                 now: int, userId: int, sqrt: real -> real)
    requires IsSqrt(sqrt)
    requires var m := Selected(ts, category, Cutoff(now, AnomalyWindowMonths), userId);
             forall i :: 0 <= i < |m| ==> m[i].amount == m[0].amount
    ensures Decide(Stats(ts, category, AnomalyWindowMonths, now, userId, sqrt), amount, threshold)
         == (false, 0.0)
  {
    if Stats(ts, category, AnomalyWindowMonths, now, userId, sqrt).Some? {
      TransactionStdZeroIffUniform(ts, category, AnomalyWindowMonths, now, userId, sqrt);
    }
  }

  /** Transaction mean 30, std 10, amount 500, threshold 2: z is 47 and the amount is an anomaly. */
  lemma DiningOutExample(stats: CategoryStats)
    requires stats.transactionMean == 30.0 && stats.transactionStd == 10.0
    ensures Decide(Some(stats), 500.0, 2.0) == (true, 47.0)
  {
  }
}
