/**
 * The deterministic parts of `run_monte_carlo_simulation`. The normal
 * samples come from `draw(trial, k)`, a standard normal deviate for the
 * k-th sampled category of a trial; a sample of N(mean, std) is
 * `mean + std * draw(trial, k)`.
 */
module MonteCarlo {
  import opened Wrappers
  import opened Records
  import opened Numeric
  import opened CategoryStatistics

  /** The window the simulation's statistics use: the default six months. */
  const SimulationWindowMonths: int := 6

  /** The factor that turns a weekly amount into a monthly one. */
  const WeeksPerMonth: real := 4.33

  /** An expense's monthly cost: as is when monthly, times 4.33 otherwise. */
  function MonthlyCost(e: FixedExpense): real {
    if e.frequency == "monthly" then e.amount else e.amount * WeeksPerMonth
  }

  /** The fixed expenses of a user, in snapshot order, each as often as it occurs. */
  function ExpensesOf(es: seq<FixedExpense>, userId: int): (r: seq<FixedExpense>)
    ensures forall i :: 0 <= i < |r| ==> r[i] in es && r[i].userId == userId
    ensures forall i :: 0 <= i < |es| && es[i].userId == userId ==> es[i] in r
  {
    if es == [] then []
    else
      var p := ExpensesOf(es[..|es| - 1], userId);
      if es[|es| - 1].userId == userId then p + [es[|es| - 1]] else p
  }

  /** Each expense of the user is kept as many times as it occurs, any other never. */
  lemma {:induction false} ExpensesKeepDuplicates(es: seq<FixedExpense>, userId: int, e: FixedExpense)
    ensures multiset(ExpensesOf(es, userId))[e] == if e.userId == userId then multiset(es)[e] else 0
  {
    if es != [] {
      ExpensesKeepDuplicates(es[..|es| - 1], userId, e);
      assert es == es[..|es| - 1] + [es[|es| - 1]];
    }
  }

  /** `sum(amount if monthly else amount * 4.33 for e in expenses)`. */
  function FixedTotal(es: seq<FixedExpense>): real
  {
    if es == [] then 0.0 else FixedTotal(es[..|es| - 1]) + MonthlyCost(es[|es| - 1])
  }

  /** The fixed total of two lists of expenses is the sum of their totals. */
  lemma {:induction false} FixedTotalAppend(a: seq<FixedExpense>, b: seq<FixedExpense>)
    ensures FixedTotal(a + b) == FixedTotal(a) + FixedTotal(b)
  {
    if b != [] {
      FixedTotalAppend(a, b[..|b| - 1]);
      assert (a + b)[..|a + b| - 1] == a + b[..|b| - 1];
    } else {
      assert a + b == a;
    }
  }

  /**
   * With non-negative amounts, the fixed total lies between the plain sum of
   * the amounts and 4.33 times it, and equals the plain sum when every expense is monthly.
   */
  lemma {:induction false} FixedTotalBounds(es: seq<FixedExpense>)
    requires forall i :: 0 <= i < |es| ==> es[i].amount >= 0.0
    ensures var plain := Sum(seq(|es|, i requires 0 <= i < |es| => es[i].amount));
            && plain <= FixedTotal(es) <= WeeksPerMonth * plain
            && ((forall i :: 0 <= i < |es| ==> es[i].frequency == "monthly") ==> FixedTotal(es) == plain)
  {
    if es != [] {
      var p := es[..|es| - 1];
      FixedTotalBounds(p);
      var xs := seq(|es|, i requires 0 <= i < |es| => es[i].amount);
      assert xs[..|xs| - 1] == seq(|p|, i requires 0 <= i < |p| => p[i].amount);
    }
  }

  /** The settings row of a user (`fetchone`): the first one with that user id. */
  function SettingsOf(rows: seq<UserSettings>, userId: int): (r: Option<UserSettings>)
    ensures r.None? <==> forall i :: 0 <= i < |rows| ==> rows[i].userId != userId
    ensures r.Some? ==> r.value in rows && r.value.userId == userId
  {
    if rows == [] then None
    else if rows[0].userId == userId then Some(rows[0])
    else SettingsOf(rows[1..], userId)
  }

  /** A category's sampling distribution: N(mean, std_dev). */
  datatype Distribution = Distribution(category: string, mean: real, stdDev: real)

  /** `adjustments[c]` when present, else no shift. */
  function Adjustment(adjustments: map<string, real>, c: string): real {
    if c in adjustments then adjustments[c] else 0.0
  }

  /** The distribution of one category, when its statistics exist and their mean is positive. */
  function PlanFor(c: string, stats: Option<CategoryStats>, adjustments: map<string, real>): Option<Distribution>
  {
    if stats.Some? && stats.value.mean > 0.0
    then Some(Distribution(c, stats.value.mean + Adjustment(adjustments, c), stats.value.stdDev))
    else None
  }

  /** The statistics the simulation looks up for each category: those of the default window. */
  function StatsLookup(ts: seq<Transaction>, now: int, userId: int, sqrt: real -> real)
    : string -> Option<CategoryStats>
  {
    c => Stats(ts, c, SimulationWindowMonths, now, userId, sqrt)
  }

  /** A category is sampled when its statistics exist with a positive mean. */
  predicate Sampled(stats: Option<CategoryStats>) {
    stats.Some? && stats.value.mean > 0.0
  }

  /** The distributions of the categories `cs`, in order, skipping those not sampled. */
  function Plan(cs: seq<string>, lookup: string -> Option<CategoryStats>, adjustments: map<string, real>)
    : seq<Distribution>
  {
    if cs == [] then []
    else
      var p := Plan(cs[..|cs| - 1], lookup, adjustments);
      var c := cs[|cs| - 1];
      match PlanFor(c, lookup(c), adjustments)
      case Some(d) => p + [d]
      case None => p
  }

  /**
   * Every distribution of the plan belongs to a listed category whose
   * statistics exist with a positive mean; its mean is shifted by the
   * category's adjustment, if any, and its std_dev is unchanged.
   */
  lemma {:induction false} PlanSound(cs: seq<string>, lookup: string -> Option<CategoryStats>,
                                     adjustments: map<string, real>)
    ensures var plan := Plan(cs, lookup, adjustments);
            && |plan| <= |cs|
            && (forall j :: 0 <= j < |plan| ==>
                  var s := lookup(plan[j].category);
                  && plan[j].category in cs
                  && Sampled(s)
                  && plan[j].mean == s.value.mean + Adjustment(adjustments, plan[j].category)
                  && plan[j].stdDev == s.value.stdDev)
  {
    if cs != [] {
      PlanSound(cs[..|cs| - 1], lookup, adjustments);
    }
  }

  /** Every listed category whose statistics exist with a positive mean is sampled. */
  lemma {:induction false} PlanComplete(cs: seq<string>, lookup: string -> Option<CategoryStats>,
                                        adjustments: map<string, real>, c: string)
    requires c in cs && Sampled(lookup(c))
    ensures exists j :: 0 <= j < |Plan(cs, lookup, adjustments)| && Plan(cs, lookup, adjustments)[j].category == c
  {
    var p := cs[..|cs| - 1];
    var plan := Plan(cs, lookup, adjustments);
    var prev := Plan(p, lookup, adjustments);
    assert forall j :: 0 <= j < |prev| ==> plan[j] == prev[j];
    if c in p {
      PlanComplete(p, lookup, adjustments, c);
      var j :| 0 <= j < |prev| && prev[j].category == c;
      assert plan[j].category == c;
    } else {
      assert c == cs[|cs| - 1];
      assert plan[|plan| - 1].category == c;
    }
  }

  lemma PlanStep(cs: seq<string>, i: nat, lookup: string -> Option<CategoryStats>,
                 adjustments: map<string, real>)
    requires i < |cs|
    ensures var d := PlanFor(cs[i], lookup(cs[i]), adjustments);
            var prev := Plan(cs[..i], lookup, adjustments);
            Plan(cs[..i + 1], lookup, adjustments) == if d.Some? then prev + [d.value] else prev
  {
    assert cs[..i + 1][..i] == cs[..i];
  }

  /** One pass of the loop over the categories: the statistics of `c`, and its distribution if sampled. */
  method DistributionFor(c: string, ts: seq<Transaction>, now: int, userId: int,
                         adjustments: map<string, real>, sqrt: real -> real)
    returns (d: Option<Distribution>)
    ensures d == PlanFor(c, StatsLookup(ts, now, userId, sqrt)(c), adjustments)
  {
    var stats := CalculateCategoryStats(ts, c, SimulationWindowMonths, now, userId, sqrt);
    if stats.Some? && stats.value.mean > 0.0 {
      var mean := stats.value.mean;
      if c in adjustments {
        mean := mean + adjustments[c];
      }
      return Some(Distribution(c, mean, stats.value.stdDev));
    }
    return None;
  }

  /** The loop over the categories (the six of `Categories`) that fills `category_distributions`. */
  method BuildPlan(categories: seq<string>, ts: seq<Transaction>, now: int, userId: int,
                   adjustments: map<string, real>, sqrt: real -> real)
    returns (plan: seq<Distribution>)
    ensures plan == Plan(categories, StatsLookup(ts, now, userId, sqrt), adjustments)
  {
    var lookup := StatsLookup(ts, now, userId, sqrt);
    plan := [];
    for i := 0 to |categories|
      invariant plan == Plan(categories[..i], lookup, adjustments)
    {
      PlanStep(categories, i, lookup, adjustments);
      var d := DistributionFor(categories[i], ts, now, userId, adjustments, sqrt);
      if d.Some? {
        plan := plan + [d.value];
      }
    }
    assert categories[..|categories|] == categories;
  }

  /** `max(0, x)`: spending cannot be negative. */
  function Clamp(x: real): real { if x > 0.0 then x else 0.0 }

  /** The clamped sample of distribution `k` of the plan in trial `trial`. */
  function SampleOf(plan: seq<Distribution>, draw: (nat, nat) -> real, trial: nat, k: nat): real
    requires k < |plan|
  {
    Clamp(plan[k].mean + plan[k].stdDev * draw(trial, k))
  }

  /** The simulated spending of a trial over the first `n` distributions. */
  function TrialSpend(plan: seq<Distribution>, draw: (nat, nat) -> real, trial: nat, n: nat): real
    requires n <= |plan|
  {
    if n == 0 then 0.0 else TrialSpend(plan, draw, trial, n - 1) + SampleOf(plan, draw, trial, n - 1)
  }

  /** A trial never spends a negative amount. */
  lemma {:induction false} TrialSpendNonNegative(plan: seq<Distribution>, draw: (nat, nat) -> real,
                                                 trial: nat, n: nat)
    requires n <= |plan|
    ensures TrialSpend(plan, draw, trial, n) >= 0.0
  {
    if n > 0 {
      TrialSpendNonNegative(plan, draw, trial, n - 1);
    }
  }

  /** The ending balance of a trial. */
  function Balance(budget: real, fixedTotal: real, plan: seq<Distribution>, draw: (nat, nat) -> real,
                   trial: nat): real
  {
    budget - fixedTotal - TrialSpend(plan, draw, trial, |plan|)
  }

  /**
   * The trial loop: one balance per trial, each the budget less the fixed
   * total less the clamped samples, and so never above `budget - fixedTotal`.
   */
  method RunTrials(simulations: nat, budget: real, fixedTotal: real, plan: seq<Distribution>,
                   draw: (nat, nat) -> real)
    returns (balances: seq<real>)
    ensures |balances| == simulations
    ensures forall i :: 0 <= i < simulations ==> balances[i] == Balance(budget, fixedTotal, plan, draw, i)
    ensures forall i :: 0 <= i < simulations ==> balances[i] <= budget - fixedTotal
  {
    balances := [];
    for trial := 0 to simulations
      invariant |balances| == trial
      invariant forall i :: 0 <= i < trial ==> balances[i] == Balance(budget, fixedTotal, plan, draw, i)
      invariant forall i :: 0 <= i < trial ==> balances[i] <= budget - fixedTotal
    {
      var total := 0.0;
      for k := 0 to |plan|
        invariant total == TrialSpend(plan, draw, trial, k)
      {
        var sampled := plan[k].mean + plan[k].stdDev * draw(trial, k);
        sampled := Clamp(sampled);
        total := total + sampled;
      }
      TrialSpendNonNegative(plan, draw, trial, |plan|);
      balances := balances + [budget - fixedTotal - total];
    }
  }

  /** How many balances satisfy `p`. */
  function CountIf(bs: seq<real>, p: real -> bool): (n: nat)
    ensures n <= |bs|
  {
    if bs == [] then 0 else CountIf(bs[..|bs| - 1], p) + (if p(bs[|bs| - 1]) then 1 else 0)
  }

  /** `np.mean(condition) * 100` over `n` balances. */
  function Percent(count: nat, n: nat): real
    requires n > 0
  {
    count as real / n as real * 100.0
  }

  /** Two conditions that never hold together are never counted more than `|bs|` times between them. */
  lemma {:induction false} CountDisjoint(bs: seq<real>, p: real -> bool, q: real -> bool)
    requires forall x :: !(p(x) && q(x))
    ensures CountIf(bs, p) + CountIf(bs, q) <= |bs|
  {
    if bs != [] {
      CountDisjoint(bs[..|bs| - 1], p, q);
    }
  }

  /** A condition implied by another is counted at least as often. */
  lemma {:induction false} CountMonotone(bs: seq<real>, p: real -> bool, q: real -> bool)
    requires forall x :: p(x) ==> q(x)
    ensures CountIf(bs, p) <= CountIf(bs, q)
  {
    if bs != [] {
      CountMonotone(bs[..|bs| - 1], p, q);
    }
  }

  lemma PercentBounds(count: nat, n: nat)
    requires 0 < n && count <= n
    ensures 0.0 <= Percent(count, n) <= 100.0
  {
    QuotientBounds(count as real, n as real, 0.0, 1.0);
  }

  lemma PercentAdd(a: nat, b: nat, n: nat)
    requires 0 < n
    ensures Percent(a, n) + Percent(b, n) == Percent(a + b, n)
  {
    assert (a + b) as real / n as real == a as real / n as real + b as real / n as real;
  }

  datatype Probabilities = Probabilities(positiveBalance: real, meetSavingsGoal: real, overBudget: real)

  /** P(balance > 0), P(balance >= savings goal), P(balance < 0), as percentages. */
  function ProbabilitiesOf(bs: seq<real>, savingsGoal: real): Probabilities
    requires bs != []
  {
    Probabilities(
      Percent(CountIf(bs, x => x > 0.0), |bs|),
      Percent(CountIf(bs, x => x >= savingsGoal), |bs|),
      Percent(CountIf(bs, x => x < 0.0), |bs|))
  }

  /**
   * Each probability lies in [0, 100]; a balance cannot be both positive and
   * negative, so P(> 0) + P(< 0) <= 100; and with a positive savings goal,
   * meeting it implies a positive balance.
   */
  lemma ProbabilitiesBounded(bs: seq<real>, savingsGoal: real)
    requires bs != []
    ensures var pr := ProbabilitiesOf(bs, savingsGoal);
            && 0.0 <= pr.positiveBalance <= 100.0
            && 0.0 <= pr.meetSavingsGoal <= 100.0
            && 0.0 <= pr.overBudget <= 100.0
            && pr.positiveBalance + pr.overBudget <= 100.0
            && (savingsGoal > 0.0 ==> pr.meetSavingsGoal <= pr.positiveBalance)
  {
    var n := |bs|;
    var pos, meet, neg := CountIf(bs, x => x > 0.0), CountIf(bs, x => x >= savingsGoal), CountIf(bs, x => x < 0.0);
    PercentBounds(pos, n);
    PercentBounds(meet, n);
    PercentBounds(neg, n);
    CountDisjoint(bs, x => x > 0.0, x => x < 0.0);
    PercentBounds(pos + neg, n);
    PercentAdd(pos, neg, n);
    if savingsGoal > 0.0 {
      CountMonotone(bs, x => x >= savingsGoal, x => x > 0.0);
      PercentAdd(meet, pos - meet, n);
      PercentBounds(pos - meet, n);
    }
  }

  datatype SimulationResult = SimulationResult(
    balances: seq<real>,
    mean: real,
    probabilities: Probabilities,
    savingsGoal: real,
    fixedExpenses: real)

  datatype Outcome =
    | UserNotSetUp            // the `{'error': 'User not set up'}` result
    | NoTrials                // no trial ran: numpy's percentile of an empty array raises
    | Done(result: SimulationResult)

  /** `run_monte_carlo_simulation(simulations, adjustments, user_id)` with its randomness supplied by `draw`. */
  method RunMonteCarloSimulation(simulations: int, adjustments: map<string, real>, userId: int,
                                 settings: seq<UserSettings>, expenses: seq<FixedExpense>,
                                 ts: seq<Transaction>, now: int, sqrt: real -> real,
                                 draw: (nat, nat) -> real)
    returns (r: Outcome)
    ensures SettingsOf(settings, userId).None? <==> r == UserNotSetUp
    ensures r == NoTrials <==> SettingsOf(settings, userId).Some? && simulations <= 0
    ensures SettingsOf(settings, userId).Some? && simulations > 0 ==> r.Done?
    ensures r.Done? ==>
      var user := SettingsOf(settings, userId).value;
      var fixed := FixedTotal(ExpensesOf(expenses, userId));
      var plan := Plan(Categories, StatsLookup(ts, now, userId, sqrt), adjustments);
      var res := r.result;
      && simulations > 0
      && |res.balances| == simulations
      && (forall i :: 0 <= i < simulations ==>
            res.balances[i] == Balance(user.monthlyBudget, fixed, plan, draw, i)
            && res.balances[i] <= user.monthlyBudget - fixed)
      && res.mean == Mean(res.balances)
      && res.mean <= user.monthlyBudget - fixed
      && res.probabilities == ProbabilitiesOf(res.balances, user.savingsGoal)
      && res.savingsGoal == user.savingsGoal
      && res.fixedExpenses == fixed
  {
    var user := SettingsOf(settings, userId);
    if user.None? {
      return UserNotSetUp;
    }
    var monthlyBudget := user.value.monthlyBudget;
    var savingsGoal := user.value.savingsGoal;
    var fixedTotal := FixedTotal(ExpensesOf(expenses, userId));
    var plan := BuildPlan(Categories, ts, now, userId, adjustments, sqrt);
    if simulations <= 0 {
      return NoTrials;
    }
    var balances := RunTrials(simulations, monthlyBudget, fixedTotal, plan, draw);
    MeanAtMost(balances, monthlyBudget - fixedTotal);
    r := Done(SimulationResult(
      balances := balances,
      mean := Mean(balances),
      probabilities := ProbabilitiesOf(balances, savingsGoal),
      savingsGoal := savingsGoal,
      fixedExpenses := fixedTotal));
  }
}
