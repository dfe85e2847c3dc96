/**
 * `calculate_health_score`: a weighted sum of four components, truncated to
 * an integer and clamped to [0, 100].
 */
module HealthScore {
  import opened Numeric

  /** Up to 40 points for staying within budget (ratio 1 when the budget is not positive). */
  function BudgetPoints(totalSpent: real, monthlyBudget: real, fixedTotal: real): real {
    var totalExpenses := totalSpent + fixedTotal;
    if totalExpenses <= monthlyBudget then
      var ratio := if monthlyBudget > 0.0 then totalExpenses / monthlyBudget else 1.0;
      40.0 * (1.0 - ratio * 0.5)
    else 0.0
  }

  /** 30 points when what remains covers the savings goal, a share of them when something remains. */
  function SavingsPoints(totalSpent: real, monthlyBudget: real, fixedTotal: real, savingsGoal: real): real {
    var remaining := monthlyBudget - (totalSpent + fixedTotal);
    if remaining >= savingsGoal then 30.0
    else if remaining > 0.0 then 30.0 * (remaining / savingsGoal)
    else 0.0
  }

  /** The consistency component: a flat 15 points. */
  const ConsistencyPoints: real := 15.0

  /** 10 points without anomalies, 5 for at most two, none beyond. */
  function AnomalyPoints(anomalyCount: int): real {
    if anomalyCount == 0 then 10.0 else if anomalyCount <= 2 then 5.0 else 0.0
  }

  /** The score before truncation. */
  function RawScore(totalSpent: real, monthlyBudget: real, fixedTotal: real, savingsGoal: real,
                    anomalyCount: int): real
  {
    BudgetPoints(totalSpent, monthlyBudget, fixedTotal)
    + SavingsPoints(totalSpent, monthlyBudget, fixedTotal, savingsGoal)
    + ConsistencyPoints
    + AnomalyPoints(anomalyCount)
  }

  /** Python's `int(x)`: truncation toward zero. */
  function Truncate(x: real): int {
    if x >= 0.0 then x.Floor else -((-x).Floor)
  }

  /** `min(100, max(0, n))`. */
  function ClampScore(n: int): int {
    if n < 0 then 0 else if n > 100 then 100 else n
  }

  function Score(totalSpent: real, monthlyBudget: real, fixedTotal: real, savingsGoal: real,
                 anomalyCount: int): int
  {
    ClampScore(Truncate(RawScore(totalSpent, monthlyBudget, fixedTotal, savingsGoal, anomalyCount)))
  }

  /** The engine's procedure, accumulating `score` component by component. */
  method CalculateHealthScore(totalSpent: real, monthlyBudget: real, fixedTotal: real, savingsGoal: real,
                              anomalyCount: int)
    returns (result: int)
    ensures 0 <= result <= 100
    ensures result == Score(totalSpent, monthlyBudget, fixedTotal, savingsGoal, anomalyCount)
  {
    var score := 0.0;
    var totalExpenses := totalSpent + fixedTotal;
    if totalExpenses <= monthlyBudget {
      var ratio := if monthlyBudget > 0.0 then totalExpenses / monthlyBudget else 1.0;
      score := score + 40.0 * (1.0 - ratio * 0.5);
    }
    var remaining := monthlyBudget - totalExpenses;
    if remaining >= savingsGoal {
      score := score + 30.0;
    } else if remaining > 0.0 {
      score := score + 30.0 * (remaining / savingsGoal);
    }
    score := score + 15.0;
    if anomalyCount == 0 {
      score := score + 10.0;
    } else if anomalyCount <= 2 {
      score := score + 5.0;
    }
    result := ClampScore(Truncate(score));
  }

  /**
   * The budget component is 0 over budget and at least 20 within it; it is
   * exactly 20 when the budget is not positive, and at most 40 when the
   * expenses are not negative.
   */
  lemma BudgetPointsRange(totalSpent: real, monthlyBudget: real, fixedTotal: real)
    ensures var b := BudgetPoints(totalSpent, monthlyBudget, fixedTotal);
            var e := totalSpent + fixedTotal;
            && (e > monthlyBudget ==> b == 0.0)
            && (e <= monthlyBudget ==> b >= 20.0)
            && (e <= monthlyBudget && monthlyBudget <= 0.0 ==> b == 20.0)
            && (e >= 0.0 ==> b <= 40.0)
  {
    var e := totalSpent + fixedTotal;
    if e <= monthlyBudget && monthlyBudget > 0.0 {
      var ratio := e / monthlyBudget;
      assert monthlyBudget * ratio == e;
      QuotientBounds(e, monthlyBudget, if e >= 0.0 then 0.0 else ratio, 1.0);
      assert ratio <= 1.0 && (e >= 0.0 ==> ratio >= 0.0);
    }
  }

  /**
   * The savings component lies in [0, 30]; the partial branch divides only
   * by a positive goal, since it needs `0 < remaining < savings_goal`.
   */
  lemma SavingsPointsRange(totalSpent: real, monthlyBudget: real, fixedTotal: real, savingsGoal: real)
    ensures var s := SavingsPoints(totalSpent, monthlyBudget, fixedTotal, savingsGoal);
            var remaining := monthlyBudget - (totalSpent + fixedTotal);
            && 0.0 <= s <= 30.0
            && (0.0 < remaining < savingsGoal ==> savingsGoal > 0.0 && s < 30.0)
            && (remaining <= 0.0 && remaining < savingsGoal ==> s == 0.0)
  {
    var remaining := monthlyBudget - (totalSpent + fixedTotal);
    if 0.0 < remaining < savingsGoal {
      var q := remaining / savingsGoal;
      QuotientBounds(remaining, savingsGoal, 0.0, 1.0);
      assert q * savingsGoal == remaining;
      assert q != 0.0 && q != 1.0;
    }
  }

  /** More anomalies never earn more points. */
  lemma AnomalyPointsNonIncreasing(a: int, b: int)
    requires a <= b && 0 <= a
    ensures AnomalyPoints(a) >= AnomalyPoints(b)
    ensures AnomalyPoints(a) in {0.0, 5.0, 10.0}
  {
  }

  /** The raw score is at least 15, so Python's truncation is the floor. */
  lemma RawScoreAtLeast15(totalSpent: real, monthlyBudget: real, fixedTotal: real, savingsGoal: real,
                          anomalyCount: int)
    ensures RawScore(totalSpent, monthlyBudget, fixedTotal, savingsGoal, anomalyCount) >= 15.0
    ensures Truncate(RawScore(totalSpent, monthlyBudget, fixedTotal, savingsGoal, anomalyCount))
         == RawScore(totalSpent, monthlyBudget, fixedTotal, savingsGoal, anomalyCount).Floor
  {
    BudgetPointsRange(totalSpent, monthlyBudget, fixedTotal);
    SavingsPointsRange(totalSpent, monthlyBudget, fixedTotal, savingsGoal);
  }

  /** With non-negative spending and fixed costs, the score lies in [15, 95]. */
  lemma ScoreRangeForNonNegativeExpenses(totalSpent: real, monthlyBudget: real, fixedTotal: real,
                                         savingsGoal: real, anomalyCount: int)
    requires totalSpent >= 0.0 && fixedTotal >= 0.0
    ensures 15 <= Score(totalSpent, monthlyBudget, fixedTotal, savingsGoal, anomalyCount) <= 95
  {
    BudgetPointsRange(totalSpent, monthlyBudget, fixedTotal);
    SavingsPointsRange(totalSpent, monthlyBudget, fixedTotal, savingsGoal);
    RawScoreAtLeast15(totalSpent, monthlyBudget, fixedTotal, savingsGoal, anomalyCount);
  }

  /** Over the same spending, more anomalies never raise the score. */
  lemma ScoreNonIncreasingInAnomalies(totalSpent: real, monthlyBudget: real, fixedTotal: real,
                                      savingsGoal: real, a: int, b: int)
    requires 0 <= a <= b
    ensures Score(totalSpent, monthlyBudget, fixedTotal, savingsGoal, b)
         <= Score(totalSpent, monthlyBudget, fixedTotal, savingsGoal, a)
  {
    AnomalyPointsNonIncreasing(a, b);
    RawScoreAtLeast15(totalSpent, monthlyBudget, fixedTotal, savingsGoal, a);
    RawScoreAtLeast15(totalSpent, monthlyBudget, fixedTotal, savingsGoal, b);
  }

  /** Spent 1000 of 2000 with 500 fixed, goal 300, no anomalies: 25 + 30 + 15 + 10 = 80. */
  lemma WorkedExample()
    ensures Score(1000.0, 2000.0, 500.0, 300.0, 0) == 80
  {
    assert BudgetPoints(1000.0, 2000.0, 500.0) == 25.0;
    assert RawScore(1000.0, 2000.0, 500.0, 300.0, 0) == 80.0;
  }
}
