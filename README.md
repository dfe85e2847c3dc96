# Budget planner statistics engine, in Dafny

This project models the statistics and forecasting engine of a personal
budget planner (`math_engine.py`) and proves properties of it. The engine
turns a user's dated, categorised transactions into:

- per-category statistics over a trailing window of months (`calculate_category_stats`);
- a z-score anomaly flag for a new amount (`detect_anomaly`);
- a Monte Carlo projection of next month's ending balance (`run_monte_carlo_simulation`);
- a health score between 0 and 100 (`calculate_health_score`);
- per-category monthly spending series for a chart (`get_spending_trends`);
- a Student-t confidence interval (`calculate_confidence_interval`).

Modules, one file each:

- `Records`: the rows the engine reads.
  - A transaction carries its user, its timestamp in seconds, its already
    parsed `YYYY-MM` month (`MonthKey`), its category and its amount.
  - The fixed list of six categories.
  - The window cutoff `now - 30 * months` days.
- `Numeric`: the numpy summaries the engine uses (mean, sample variance with
  N - 1, min, max) over exact reals, with their lemmas.
- `Grouping`: the per-month dictionary of `calculate_category_stats`.
  - The totals are a map; the dictionary's key order (first appearance) is a
    separate sequence.
  - `GroupByMonth` is the loop that builds both.
- `CategoryStatistics`: the filter, the statistics record and the method that
  computes it. `None` stands for the engine's `None`.
- `Anomaly`: the z-score decision and the method that computes it from the
  six-month statistics.
- `MonteCarlo`:
  - the fixed-expense total;
  - the choice of sampled categories and their adjusted means;
  - the trial loop and the probability counts;
  - the whole simulation.
- `HealthScore`: the score, accumulated component by component as the engine
  does, and the functions that specify it.
- `Trends`:
  - the month-and-category table;
  - the sort of the month keys;
  - the chart series and the method that builds them.
- `Confidence`: the interval, with its fewer-than-two-values sentinel.

Modelling choices:

- The store's tables are sequences of rows passed in; SQL filters are
  functions over them.
- The caller's identity (`user_id`) and the current time (`now`) are
  parameters.
- Square roots are an injected function `sqrt`. Lemmas that need it to be the
  true square root require `IsSqrt(sqrt)`: for every `x >= 0`, `sqrt(x) >= 0`
  and `sqrt(x) * sqrt(x) == x`.
- The normal samples are an injected function `draw(trial, k)`, a standard
  normal deviate. A sample of N(mean, std) is `mean + std * draw(trial, k)`.
- The Student-t quantile `stats.t.ppf` is an injected function `tQuantile(p, df)`.
- Month keys compare year first, then month. This is the string order of
  `YYYY-MM` keys with four-digit years.
- `run_monte_carlo_simulation` with no trials fails in numpy's percentile of
  an empty array. The model returns the `NoTrials` outcome there.

## Model

| member | source | states |
|---|---|---|
| Numeric.MinOf | math_engine.py:76 | The minimum is one of the values and no value is below it |
| Numeric.MaxOf | math_engine.py:77 | The maximum is one of the values and no value is above it |
| Numeric.MeanBetweenMinAndMax | math_engine.py:68-77 | min <= mean <= max for any non-empty list of values |
| Numeric.MeanAtMost | math_engine.py:212 | A common upper bound of the values bounds their mean |
| Numeric.VarianceNonNegative | math_engine.py:70 | The sample variance (N - 1) is never negative |
| Numeric.VarianceZeroIffConstant | math_engine.py:69-70 | The sample variance is 0 exactly when all values are equal |
| Numeric.SqrtZero | math_engine.py:69 | With the true square root, the root is 0 exactly when its argument is 0 |
| Numeric.SqrtOfSquare | math_engine.py:69 | With the true square root, the root of `a * a` is `a` for `a >= 0` |
| Grouping.MonthTotalsSpec | math_engine.py:54-63 | The monthly dictionary has a key for exactly the months that occur, holding the total of that month's amounts |
| Grouping.MonthOrderSpec | math_engine.py:54-65 | The key order lists every month that occurs once and no other; there are between 1 and `count` keys for a non-empty selection |
| Grouping.MonthlyTotalsConserve | math_engine.py:51-65 | The monthly totals add up to the sum of the selected amounts |
| Grouping.GroupByMonth | math_engine.py:54-63 | The loop builds exactly the specified dictionary and key order |
| CategoryStatistics.Selected | math_engine.py:42-46 | Every returned row is the user's, in the category and on or after the cutoff, and every such row is returned |
| CategoryStatistics.SelectedKeepsDuplicates | math_engine.py:42-46 | The query returns each matching row as many times as it occurs in the table, and no other row |
| CategoryStatistics.WiderWindowKeepsRows | math_engine.py:40-46 | A window of more months (cutoff `30` days per month back) returns every row of a shorter one, as often |
| CategoryStatistics.CalculateCategoryStats | math_engine.py:18-82 | The method returns the specified record, and `None` exactly when no row matches |
| CategoryStatistics.StatsAbsentIffNoMatch | math_engine.py:40-49 | No statistics exactly when no row of the user in the category is in the window |
| CategoryStatistics.StatsMonthlyTotals | math_engine.py:51-79 | `count` is the number of matched rows, 1 <= months <= count, each monthly total is its month's sum, and the totals conserve the amounts |
| CategoryStatistics.StatsOrdered | math_engine.py:68-77 | min <= mean <= max over the monthly totals and variance >= 0 |
| CategoryStatistics.SingleMonthNoSpread | math_engine.py:68-77 | With one populated month, variance == std_dev == 0 and min == mean == max |
| CategoryStatistics.StdDevIsRootOfVariance | math_engine.py:69-81 | With the true square root, std_dev is the non-negative root of the variance, at both the month and the transaction level |
| CategoryStatistics.TransactionStdZeroIffUniform | math_engine.py:80-81 | With the true square root, transaction_std is 0 exactly when all matched amounts are equal |
| CategoryStatistics.ThreeMonthExample | math_engine.py:68-70 | Monthly totals 100, 120, 140 give mean 120, variance 400 and std_dev 20 |
| Anomaly.Decide | math_engine.py:99-108 | Absent statistics or a zero std give `(False, 0.0)`; otherwise `z * std == amount - mean` and the flag is `|z| > threshold` |
| Anomaly.DetectAnomaly | math_engine.py:85-108 | The method returns the decision on the six-month statistics, and `(False, 0.0)` when no row matches |
| Anomaly.FlagIsAbsZAboveThreshold | math_engine.py:99-106 | For a non-negative threshold the flag is `|z| > threshold` in every case |
| Anomaly.AbsQuotientAbove | math_engine.py:103-106 | `|d / s| > t` exactly when `|d| > t * s` for a positive `s` |
| Anomaly.AnomalyIffFarFromMean | math_engine.py:103-106 | With a positive std, the flag holds exactly when the amount is more than `threshold` stds from the mean, and z has the sign of `amount - mean` |
| Anomaly.UniformHistoryNeverFlags | math_engine.py:97-100 | When all windowed amounts of the category are equal, no amount is ever flagged |
| Anomaly.DiningOutExample | math_engine.py:103-108 | Mean 30, std 10, amount 500, threshold 2 give `(True, 47.0)` |
| MonteCarlo.ExpensesOf | math_engine.py:145 | Every kept expense is the user's, and every expense of the user is kept |
| MonteCarlo.ExpensesKeepDuplicates | math_engine.py:145 | Each of the user's expenses is kept as many times as it occurs, and no other |
| MonteCarlo.FixedTotalAppend | math_engine.py:146-149 | The fixed total is additive over lists of expenses |
| MonteCarlo.FixedTotalBounds | math_engine.py:146-149 | With non-negative amounts the total is between the plain sum and 4.33 times it, and equals the plain sum when all expenses are monthly |
| MonteCarlo.SettingsOf | math_engine.py:137-139 | No settings exactly when no row has the user id; otherwise a row of that user |
| MonteCarlo.PlanSound | math_engine.py:152-166 | Every sampled distribution belongs to a listed category with statistics whose mean is positive; its mean is shifted by the adjustment when present and its std_dev is unchanged |
| MonteCarlo.PlanComplete | math_engine.py:155-157 | Every listed category with statistics whose mean is positive is sampled |
| MonteCarlo.DistributionFor | math_engine.py:156-166 | One pass of the category loop yields the specified distribution or none |
| MonteCarlo.BuildPlan | math_engine.py:152-166 | The category loop builds exactly the specified list of distributions |
| MonteCarlo.TrialSpendNonNegative | math_engine.py:172-180 | A trial's clamped spending is never negative |
| MonteCarlo.RunTrials | math_engine.py:169-184 | Exactly `simulations` balances, each `budget - fixed - clamped samples` and so at most `budget - fixed` |
| MonteCarlo.CountDisjoint | math_engine.py:190-192 | Two conditions that never hold together are counted at most `n` times between them |
| MonteCarlo.CountMonotone | math_engine.py:190-191 | A condition implied by another is counted at least as often |
| MonteCarlo.ProbabilitiesBounded | math_engine.py:190-192 | Each probability is in [0, 100], P(> 0) + P(< 0) <= 100, and with a positive goal P(meet goal) <= P(> 0) |
| MonteCarlo.RunMonteCarloSimulation | math_engine.py:111-223 | Missing settings give the not-set-up error, and only they do; with settings, no trials is the empty-sample failure and a positive count always gives a result, whose balances are the specified trials, each at most the budget less the fixed costs, whose mean is their mean and obeys the same bound, and whose probabilities, goal and fixed total are as specified |
| HealthScore.CalculateHealthScore | math_engine.py:226-262 | The accumulated score is in [0, 100] and equals the clamped truncation of the four components |
| HealthScore.BudgetPointsRange | math_engine.py:240-243 | The budget component is 0 over budget, at least 20 within it, exactly 20 with a non-positive budget, and at most 40 for non-negative expenses |
| HealthScore.SavingsPointsRange | math_engine.py:246-250 | The savings component is in [0, 30], and its division only happens with a positive savings goal |
| HealthScore.AnomalyPointsNonIncreasing | math_engine.py:257-260 | The anomaly component is 10, 5 or 0 and never grows with the anomaly count |
| HealthScore.RawScoreAtLeast15 | math_engine.py:236-262 | The raw score is at least 15, so Python's truncation is the floor |
| HealthScore.ScoreRangeForNonNegativeExpenses | math_engine.py:236-262 | With non-negative spending and fixed costs, the score is between 15 and 95 |
| HealthScore.ScoreNonIncreasingInAnomalies | math_engine.py:257-262 | More anomalies never raise the score |
| HealthScore.WorkedExample | math_engine.py:236-262 | Spent 1000 of 2000, fixed 500, goal 300, no anomalies: 80 |
| Trends.Window | math_engine.py:278-284 | Every returned row is the user's and on or after the cutoff, and every such row is returned |
| Trends.WindowKeepsDuplicates | math_engine.py:278-284 | The query returns each row of the window as many times as it occurs, and no other row |
| Trends.TrendTableSpec | math_engine.py:287-302 | The table has a row for exactly the months that occur, and each cell holds that month's spending in that category |
| Trends.CellTotalAbsent | math_engine.py:313 | A month and category without rows has total 0, the zero fill |
| Trends.Insert | math_engine.py:305 | Inserting a new month into an increasing list keeps it increasing and adds exactly that month |
| Trends.SortMonths | math_engine.py:305 | The sorted keys are strictly increasing and hold exactly the keys |
| Trends.IncreasingUnique | math_engine.py:305 | Two increasing lists with the same months are equal: the labels are determined |
| Trends.GroupByMonthAndCategory | math_engine.py:287-302 | The loop builds exactly the specified table and month order |
| Trends.BuildDatasets | math_engine.py:311-313 | One series for each category of the list, and no other key |
| Trends.SpendingTrends | math_engine.py:265-318 | The labels are the window's months in strictly increasing order; each of the six categories has a series as long as the labels whose i-th entry is its spending in month i |
| Confidence.ConfidenceInterval | math_engine.py:321-334 | Fewer than two values give `(0, 0)`; otherwise the interval is centred on the mean |
| Confidence.StandardErrorNonNegative | math_engine.py:331 | With the true square root, the standard error is never negative |
| Confidence.IntervalContainsMean | math_engine.py:330-334 | With a non-negative critical value, lower <= mean <= upper |
| Confidence.ConstantDataDegenerate | math_engine.py:330-334 | Equal values `c` give the zero-width interval `(c, c)` |

## Left out

- Database access, the Flask session default for `user_id`, and the SQL `ORDER BY date`: rows are given as sequences in the order they are passed.
- The model does not enforce ordering by date; no property depends on it.
- Date parsing with `strptime`, and its two formats: a transaction's month is already parsed.
- A transaction's `timestamp` (used by the window filters) and its `month` (used for grouping) are independent fields. The store derives both from one date, but the model does not tie them together, and no property relies on it.
- Random sampling with `np.random.normal`: the standard normal deviates are the injected `draw`.
- `np.percentile`, `np.histogram` and `np.std` of the simulated balances. These are library numerics, and percentile monotonicity is a property of numpy, not of this code.
- Floating point: all arithmetic is on exact reals, so rounding and the `float()` conversions are not modelled.
- Confidence.StandardError: `stats.sem` divides the standard deviation by the root of the sample size; the model takes the root of the variance over the size. The two are equal for an exact square root.
- `stats.t.ppf` is the injected `tQuantile`; nothing is proved about the t distribution itself.
- The other files of the repository are not part of this model:
  - Flask routes, including a second copy of the fixed-total sum in `app.py`;
  - PDF reports, e-mail, demo data seeding, the database viewer and the schema.
- `detect_anomaly` and the simulation always use the default six-month window. The model fixes it as a constant rather than a parameter.
