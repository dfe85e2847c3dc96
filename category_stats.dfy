/**
 * `calculate_category_stats`: the statistics of one category over a trailing
 * window, or nothing when the window holds no transaction of that category.
 */
module CategoryStatistics {
  import opened Wrappers
  import opened Records
  import opened Numeric
  import opened Grouping

  /** The statistics record; `mean` to `max` are over the monthly totals. */
  datatype CategoryStats = CategoryStats(
    mean: real,
    stdDev: real,
    variance: real,
    min: real,
    max: real,
    count: nat,
    monthlyTotals: map<MonthKey, real>,
    months: seq<MonthKey>,          // key order of `monthlyTotals`
    transactionMean: real,
    transactionStd: real)

  /** The row filter of the query: this user, this category, on or after the cutoff. */
  predicate Matches(t: Transaction, category: string, cutoff: int, userId: int) {
    t.userId == userId && t.category == category && t.timestamp >= cutoff
  }

  /**
   * The rows the query returns, in snapshot order: every matching row as
   * often as it occurs, and nothing else.
   */
  function Selected(ts: seq<Transaction>, category: string, cutoff: int, userId: int): (r: seq<Transaction>)
    ensures |r| <= |ts|
    ensures forall i :: 0 <= i < |r| ==> r[i] in ts && Matches(r[i], category, cutoff, userId)
    ensures forall i :: 0 <= i < |ts| && Matches(ts[i], category, cutoff, userId) ==> ts[i] in r
  {
    if ts == [] then []
    else
      var p := Selected(ts[..|ts| - 1], category, cutoff, userId);
      var t := ts[|ts| - 1];
      if Matches(t, category, cutoff, userId) then p + [t] else p
  }

  /** Each matching row is selected as many times as it occurs, any other row never. */
  lemma {:induction false} SelectedKeepsDuplicates(ts: seq<Transaction>, category: string, cutoff: int,
                                                   userId: int, x: Transaction)
    ensures multiset(Selected(ts, category, cutoff, userId))[x]
         == if Matches(x, category, cutoff, userId) then multiset(ts)[x] else 0
  {
    if ts != [] {
      SelectedKeepsDuplicates(ts[..|ts| - 1], category, cutoff, userId, x);
      assert ts == ts[..|ts| - 1] + [ts[|ts| - 1]];
    }
  }

  /** A longer window moves the cutoff back, so it selects every row the shorter one does, and as often. */
  lemma WiderWindowKeepsRows(ts: seq<Transaction>, category: string, months1: int, months2: int,
                             now: int, userId: int)
    requires months1 <= months2
    ensures multiset(Selected(ts, category, Cutoff(now, months1), userId))
         <= multiset(Selected(ts, category, Cutoff(now, months2), userId))
  {
    forall x
      ensures multiset(Selected(ts, category, Cutoff(now, months1), userId))[x]
           <= multiset(Selected(ts, category, Cutoff(now, months2), userId))[x]
    {
      SelectedKeepsDuplicates(ts, category, Cutoff(now, months1), userId, x);
      SelectedKeepsDuplicates(ts, category, Cutoff(now, months2), userId, x);
    }
  }

  /** np.std(xs, ddof=1) when there are at least two values, else the engine's 0. */
  function SampleStd(xs: seq<real>, sqrt: real -> real): real
  {
    if |xs| > 1 then sqrt(SampleVariance(xs)) else 0.0
  }

  /** The record for a non-empty selection. */
  function Summarise(matched: seq<Transaction>, sqrt: real -> real): CategoryStats
    requires matched != []
  {
    MonthOrderSpec(matched);
    var values := MonthlyValues(matched);
    var amounts := Amounts(matched);
    CategoryStats(
      mean := Mean(values),
      stdDev := SampleStd(values, sqrt),
      variance := SampleVariance(values),
      min := MinOf(values),
      max := MaxOf(values),
      count := |matched|,
      monthlyTotals := MonthTotals(matched),
      months := MonthOrder(matched),
      transactionMean := Mean(amounts),
      transactionStd := SampleStd(amounts, sqrt))
  }

  /** What `calculate_category_stats(category, months, user_id)` returns at time `now`. */
  function Stats(ts: seq<Transaction>, category: string, months: int, now: int, userId: int,
                 sqrt: real -> real): Option<CategoryStats>
  {
    var matched := Selected(ts, category, Cutoff(now, months), userId);
    if matched == [] then None else Some(Summarise(matched, sqrt))
  }

  /**
   * The engine's procedure: query, give up on an empty result, build the
   * per-month dictionary in a loop, then summarise.
   */
  method CalculateCategoryStats(ts: seq<Transaction>, category: string, months: int, now: int,
                                userId: int, sqrt: real -> real)
    returns (r: Option<CategoryStats>)
    ensures r == Stats(ts, category, months, now, userId, sqrt)
    ensures r.None? <==> forall i :: 0 <= i < |ts| ==> !Matches(ts[i], category, Cutoff(now, months), userId)
  {
    StatsAbsentIffNoMatch(ts, category, months, now, userId, sqrt);
    var matched := Selected(ts, category, Cutoff(now, months), userId);
    if matched == [] {
      return None;
    }
    var totals, order := GroupByMonth(matched);
    MonthOrderSpec(matched);
    var values := ValuesInOrder(totals, order);
    var amounts := Amounts(matched);
    r := Some(CategoryStats(
      mean := Mean(values),
      stdDev := if |values| > 1 then sqrt(SampleVariance(values)) else 0.0,
      variance := if |values| > 1 then SampleVariance(values) else 0.0,
      min := MinOf(values),
      max := MaxOf(values),
      count := |matched|,
      monthlyTotals := totals,
      months := order,
      transactionMean := Mean(amounts),
      transactionStd := if |amounts| > 1 then sqrt(SampleVariance(amounts)) else 0.0));
  }

  /** No statistics exactly when no transaction of the user falls in the category and the window. */
  lemma StatsAbsentIffNoMatch(ts: seq<Transaction>, category: string, months: int, now: int,
                              userId: int, sqrt: real -> real)
    ensures Stats(ts, category, months, now, userId, sqrt).None?
        <==> forall i :: 0 <= i < |ts| ==> !Matches(ts[i], category, Cutoff(now, months), userId)
  {
    var matched := Selected(ts, category, Cutoff(now, months), userId);
    if matched != [] {
      assert matched[0] in ts;
    }
  }

  /**
   * For a non-empty result: `count` is the number of selected rows, the
   * monthly totals hold each month's total and add up to the selected
   * amounts, and there are between 1 and `count` months.
   */
  lemma StatsMonthlyTotals(ts: seq<Transaction>, category: string, months: int, now: int,
                           userId: int, sqrt: real -> real)
    requires Stats(ts, category, months, now, userId, sqrt).Some?
    ensures var s := Stats(ts, category, months, now, userId, sqrt).value;
            var matched := Selected(ts, category, Cutoff(now, months), userId);
            && s.count == |matched|
            && 1 <= |s.months| <= s.count
            && (forall k :: k in s.monthlyTotals <==> HasMonth(matched, k))
            && (forall k :: k in s.monthlyTotals ==> s.monthlyTotals[k] == TotalIn(matched, k))
            && Sum(MonthlyValues(matched)) == Sum(Amounts(matched))
  {
    var matched := Selected(ts, category, Cutoff(now, months), userId);
    MonthOrderSpec(matched);
    MonthTotalsSpec(matched);
    MonthlyTotalsConserve(matched);
  }

  /** Over the monthly totals: min <= mean <= max, and the variance is never negative. */
  lemma StatsOrdered(ts: seq<Transaction>, category: string, months: int, now: int,
                     userId: int, sqrt: real -> real)
    requires Stats(ts, category, months, now, userId, sqrt).Some?
    ensures var s := Stats(ts, category, months, now, userId, sqrt).value;
            s.min <= s.mean <= s.max && s.variance >= 0.0
  {
    var matched := Selected(ts, category, Cutoff(now, months), userId);
    MonthOrderSpec(matched);
    MeanBetweenMinAndMax(MonthlyValues(matched));
    VarianceNonNegative(MonthlyValues(matched));
  }

  /** With a single populated month there is no spread: variance and std_dev are 0, min == mean == max. */
  lemma SingleMonthNoSpread(ts: seq<Transaction>, category: string, months: int, now: int,
                            userId: int, sqrt: real -> real)
    requires Stats(ts, category, months, now, userId, sqrt).Some?
    requires |Stats(ts, category, months, now, userId, sqrt).value.months| == 1
    ensures var s := Stats(ts, category, months, now, userId, sqrt).value;
            s.variance == 0.0 && s.stdDev == 0.0 && s.min == s.mean == s.max
  {
    var matched := Selected(ts, category, Cutoff(now, months), userId);
    var values := MonthlyValues(matched);
    assert |values| == 1;
    assert Sum(values) == values[0] by {
      assert values[..0] == [];
    }
  }

  /** With an exact square root, std_dev is the non-negative root of the variance (both levels). */
  lemma StdDevIsRootOfVariance(ts: seq<Transaction>, category: string, months: int, now: int,
                               userId: int, sqrt: real -> real)
    requires IsSqrt(sqrt)
    requires Stats(ts, category, months, now, userId, sqrt).Some?
    ensures var s := Stats(ts, category, months, now, userId, sqrt).value;
            var matched := Selected(ts, category, Cutoff(now, months), userId);
            && s.stdDev >= 0.0 && Sq(s.stdDev) == s.variance
            && s.transactionStd >= 0.0 && Sq(s.transactionStd) == SampleVariance(Amounts(matched))
  {
    var matched := Selected(ts, category, Cutoff(now, months), userId);
    MonthOrderSpec(matched);
    var values := MonthlyValues(matched);
    var amounts := Amounts(matched);
    VarianceNonNegative(values);
    VarianceNonNegative(amounts);
    assert Sq(0.0) == 0.0;
  }

  /** Every row carries the same amount as the first. */
  predicate UniformAmounts(rows: seq<Transaction>)
    requires rows != []
  {
    forall i :: 0 <= i < |rows| ==> rows[i].amount == rows[0].amount
  }

  /** With an exact square root, the sample std of the amounts of some rows is 0 exactly when they are all equal. */
  lemma AmountsStdZeroIffUniform(matched: seq<Transaction>, sqrt: real -> real)
    requires IsSqrt(sqrt)
    requires matched != []
    ensures SampleStd(Amounts(matched), sqrt) == 0.0 <==> UniformAmounts(matched)
  {
    var amounts := Amounts(matched);
    VarianceZeroIffConstant(amounts);
    VarianceNonNegative(amounts);
    if |amounts| > 1 {
      SqrtZero(sqrt, SampleVariance(amounts));
    }
  }

  /** With an exact square root, transaction_std is 0 exactly when all the selected amounts are equal. */
  lemma TransactionStdZeroIffUniform(ts: seq<Transaction>, category: string, months: int, now: int,
                                     userId: int, sqrt: real -> real)
    requires IsSqrt(sqrt)
    requires Stats(ts, category, months, now, userId, sqrt).Some?
    ensures var s := Stats(ts, category, months, now, userId, sqrt).value;
            var matched := Selected(ts, category, Cutoff(now, months), userId);
            s.transactionStd == 0.0 <==> UniformAmounts(matched)
  {
    var matched := Selected(ts, category, Cutoff(now, months), userId);
    assert Stats(ts, category, months, now, userId, sqrt).value.transactionStd == SampleStd(Amounts(matched), sqrt);
    AmountsStdZeroIffUniform(matched, sqrt);
  }

  /** Monthly totals 100, 120, 140: mean 120, variance 400 (N - 1 = 2), std_dev 20. */
  lemma ThreeMonthExample(sqrt: real -> real)
    requires IsSqrt(sqrt)
    ensures Mean([100.0, 120.0, 140.0]) == 120.0
    ensures SampleVariance([100.0, 120.0, 140.0]) == 400.0
    ensures SampleStd([100.0, 120.0, 140.0], sqrt) == 20.0
  {
    var xs := [100.0, 120.0, 140.0];
    var ys, zs := [100.0, 120.0], [100.0];
    assert xs[..|xs| - 1] == ys && ys[..|ys| - 1] == zs && zs[..|zs| - 1] == [];
    assert Sum(xs) == 360.0 by {
      assert Sum(zs) == 100.0 && Sum(ys) == 220.0;
    }
    assert SumSqDev(xs, 120.0) == 800.0 by {
      assert SumSqDev(zs, 120.0) == 400.0 && SumSqDev(ys, 120.0) == 400.0;
    }
    assert Sq(20.0) == 400.0;
    SqrtOfSquare(sqrt, 20.0);
  }
}
