/**
 * The rows the statistics engine reads from its store, as values.
 * Dates are already parsed: a transaction carries its timestamp (seconds)
 * and the calendar month it falls in.
 */
module Records {

  /** A `YYYY-MM` month key, kept as its two numbers. */
  datatype MonthKey = MonthKey(year: int, month: int)

  /** The order of `YYYY-MM` keys: year first, then month (the string order of four-digit years). */
  predicate Before(a: MonthKey, b: MonthKey) {
    a.year < b.year || (a.year == b.year && a.month < b.month)
  }

  datatype Transaction = Transaction(
    userId: int,
    timestamp: int,     // seconds
    month: MonthKey,    // the month `timestamp` falls in
    category: string,
    amount: real)

  datatype FixedExpense = FixedExpense(userId: int, amount: real, frequency: string)

  datatype UserSettings = UserSettings(userId: int, monthlyBudget: real, savingsGoal: real)

  /** The six spending categories the simulation and the trend chart iterate over. */
  const Categories: seq<string> :=
    ["Food & Groceries", "Dining Out", "Entertainment", "Transportation", "Shopping", "Other"]

  const SecondsPerDay: int := 86400

  /** `now - timedelta(days=30 * months)`: a month is always 30 days here. */
  function Cutoff(now: int, months: int): (c: int)
    ensures months >= 0 ==> c <= now
    ensures now - c == months * 30 * SecondsPerDay
  {
    now - 30 * months * SecondsPerDay
  }

  /** The amounts of `ts`, in order. */
  function Amounts(ts: seq<Transaction>): (r: seq<real>)
    ensures |r| == |ts|
    ensures forall i :: 0 <= i < |ts| ==> r[i] == ts[i].amount
  {
    seq(|ts|, i requires 0 <= i < |ts| => ts[i].amount)
  }

  lemma BeforeIsStrictTotalOrder(a: MonthKey, b: MonthKey, c: MonthKey)
    ensures !Before(a, a)
    ensures Before(a, b) ==> !Before(b, a)
    ensures Before(a, b) && Before(b, c) ==> Before(a, c)
    ensures a == b || Before(a, b) || Before(b, a)
  {
  }
}
