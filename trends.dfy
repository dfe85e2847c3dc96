/**
 * `get_spending_trends`: the user's spending over a trailing window, as one
 * series per category, indexed by the months that occur in sorted order.
 */
module Trends {
  import opened Records
  import opened Grouping

  /** The row filter of the query: this user, on or after the cutoff. */
  predicate InWindow(t: Transaction, cutoff: int, userId: int) {
    t.userId == userId && t.timestamp >= cutoff
  }

  /** The rows the query returns, in snapshot order: every row in the window as often as it occurs. */
  function Window(ts: seq<Transaction>, cutoff: int, userId: int): (r: seq<Transaction>)
    ensures |r| <= |ts|
    ensures forall i :: 0 <= i < |r| ==> r[i] in ts && InWindow(r[i], cutoff, userId)
    ensures forall i :: 0 <= i < |ts| && InWindow(ts[i], cutoff, userId) ==> ts[i] in r
  {
    if ts == [] then []
    else
      var p := Window(ts[..|ts| - 1], cutoff, userId);
      var t := ts[|ts| - 1];
      if InWindow(t, cutoff, userId) then p + [t] else p
  }

  /** Each row in the window is returned as many times as it occurs, any other row never. */
  lemma {:induction false} WindowKeepsDuplicates(ts: seq<Transaction>, cutoff: int, userId: int, x: Transaction)
    ensures multiset(Window(ts, cutoff, userId))[x] == if InWindow(x, cutoff, userId) then multiset(ts)[x] else 0
  {
    if ts != [] {
      WindowKeepsDuplicates(ts[..|ts| - 1], cutoff, userId, x);
      assert ts == ts[..|ts| - 1] + [ts[|ts| - 1]];
    }
  }

  /** The nested dictionary `monthly_data[month][category]` after adding every row of `ts`. */
  function TrendTable(ts: seq<Transaction>): map<MonthKey, map<string, real>>
  {
    if ts == [] then map[] else AddRow(TrendTable(ts[..|ts| - 1]), ts[|ts| - 1])
  }

  /** One row added to the table: a new month gets an empty row first, then the cell grows by the amount. */
  function AddRow(m: map<MonthKey, map<string, real>>, t: Transaction): map<MonthKey, map<string, real>>
  {
    var row := if t.month in m then m[t.month] else map[];
    m[t.month := row[t.category := (if t.category in row then row[t.category] else 0.0) + t.amount]]
  }

  /** `monthly_data.get(month, {}).get(category, 0)`. */
  function Cell(table: map<MonthKey, map<string, real>>, k: MonthKey, c: string): real {
    if k in table && c in table[k] then table[k][c] else 0.0
  }

  /** The amounts of the rows of `ts` in month `k` and category `c`, added up. */
  function CellTotal(ts: seq<Transaction>, k: MonthKey, c: string): real
  {
    if ts == [] then 0.0
    else
      var t := ts[|ts| - 1];
      CellTotal(ts[..|ts| - 1], k, c) + (if t.month == k && t.category == c then t.amount else 0.0)
  }

  /** The table has a row for exactly the months that occur, and each cell holds that month's spending in that category. */
  lemma {:induction false} TrendTableSpec(ts: seq<Transaction>)
    ensures forall k :: k in TrendTable(ts) <==> HasMonth(ts, k)
    ensures forall k, c :: Cell(TrendTable(ts), k, c) == CellTotal(ts, k, c)
  {
    if ts != [] {
      TrendTableSpec(ts[..|ts| - 1]);
      forall k
        ensures k in TrendTable(ts) <==> HasMonth(ts, k)
      {
        HasMonthSnoc(ts, k);
      }
    }
  }

  /** A month and category with no rows has the total 0, the series' fill value. */
  lemma {:induction false} CellTotalAbsent(ts: seq<Transaction>, k: MonthKey, c: string)
    requires forall i :: 0 <= i < |ts| && ts[i].month == k ==> ts[i].category != c
    ensures CellTotal(ts, k, c) == 0.0
  {
    if ts != [] {
      CellTotalAbsent(ts[..|ts| - 1], k, c);
    }
  }

  /** Strictly increasing in month order, hence also free of repeats. */
  predicate Increasing(s: seq<MonthKey>) {
    forall i, j :: 0 <= i < j < |s| ==> Before(s[i], s[j])
  }

  /** Inserting a month that is not yet present into an increasing sequence. */
  function Insert(k: MonthKey, s: seq<MonthKey>): (r: seq<MonthKey>)
    requires Increasing(s) && k !in s
    ensures Increasing(r)
    ensures |r| == |s| + 1
    ensures forall x :: x in r <==> x == k || x in s
  {
    if s == [] then [k]
    else if Before(k, s[0]) then
      assert forall j :: 0 < j < |s| ==> Before(s[0], s[j]);
      [k] + s
    else
      var rest := Insert(k, s[1..]);
      assert forall x :: x in s[1..] ==> Before(s[0], x);
      [s[0]] + rest
  }

  /** `sorted(keys)`, for keys without repeats. */
  function SortMonths(ks: seq<MonthKey>): (r: seq<MonthKey>)
    requires Distinct(ks)
    ensures Increasing(r)
    ensures |r| == |ks|
    ensures forall x :: x in r <==> x in ks
  {
    if ks == [] then []
    else
      var p := ks[..|ks| - 1];
      assert forall i, j :: 0 <= i < j < |p| ==> p[i] != p[j];
      assert ks[|ks| - 1] !in p;
      Insert(ks[|ks| - 1], SortMonths(p))
  }

  /** The first element of an increasing sequence comes before every other element. */
  lemma FirstIsLeast(a: seq<MonthKey>, x: MonthKey)
    requires Increasing(a) && x in a
    ensures x == a[0] || Before(a[0], x)
  {
    var i :| 0 <= i < |a| && a[i] == x;
  }

  /** An increasing sequence is determined by its elements: there is only one sorted order. */
  lemma {:induction false} IncreasingUnique(a: seq<MonthKey>, b: seq<MonthKey>)
    requires Increasing(a) && Increasing(b)
    requires forall x :: x in a <==> x in b
    ensures a == b
  {
    assert a != [] ==> a[0] in a;
    assert b != [] ==> b[0] in b;
    if a != [] && b != [] {
      FirstIsLeast(a, b[0]);
      FirstIsLeast(b, a[0]);
      BeforeIsStrictTotalOrder(a[0], b[0], a[0]);
      forall x
        ensures x in a[1..] <==> x in b[1..]
      {
        if x in a[1..] {
          var i :| 1 <= i < |a| && a[i] == x;
          assert Before(a[0], x);
          assert x in a;
          var j :| 0 <= j < |b| && b[j] == x;
          assert j != 0;
          assert b[1..][j - 1] == x;
        }
        if x in b[1..] {
          var j :| 1 <= j < |b| && b[j] == x;
          assert Before(b[0], x);
          assert x in b;
          var i :| 0 <= i < |a| && a[i] == x;
          assert i != 0;
          assert a[1..][i - 1] == x;
        }
      }
      IncreasingUnique(a[1..], b[1..]);
      assert a == [a[0]] + a[1..] && b == [b[0]] + b[1..];
    }
  }

  /** One chart series: the category's spending in each labelled month, 0 where there was none. */
  function Series(table: map<MonthKey, map<string, real>>, labels: seq<MonthKey>, c: string): (r: seq<real>)
    ensures |r| == |labels|
    ensures forall i :: 0 <= i < |labels| ==> r[i] == Cell(table, labels[i], c)
  {
    seq(|labels|, i requires 0 <= i < |labels| => Cell(table, labels[i], c))
  }

  /** The `datasets` loop: one series per category of `categories`. */
  method BuildDatasets(table: map<MonthKey, map<string, real>>, labels: seq<MonthKey>, categories: seq<string>)
    returns (datasets: map<string, seq<real>>)
    ensures datasets.Keys == set c | c in categories
    ensures forall c :: c in datasets ==> datasets[c] == Series(table, labels, c)
  {
    datasets := map[];
    for i := 0 to |categories|
      invariant datasets.Keys == set c | c in categories[..i]
      invariant forall c :: c in datasets ==> datasets[c] == Series(table, labels, c)
    {
      assert categories[..i + 1] == categories[..i] + [categories[i]];
      datasets := datasets[categories[i] := Series(table, labels, categories[i])];
    }
    assert categories[..|categories|] == categories;
  }

  /** The first-appearance order lists each month of `ts` once, and no other. */
  lemma OrderIsMonths(ts: seq<Transaction>)
    ensures Distinct(MonthOrder(ts))
    ensures forall k :: k in MonthOrder(ts) <==> HasMonth(ts, k)
  {
    MonthOrderSpec(ts);
    MonthTotalsSpec(ts);
  }

  /** The table's months are those of the first-appearance order. */
  lemma TableMonthsAreOrder(ts: seq<Transaction>)
    ensures forall k :: k in TrendTable(ts) <==> k in MonthOrder(ts)
  {
    TrendTableSpec(ts);
    MonthOrderSpec(ts);
    MonthTotalsSpec(ts);
  }

  /** The grouping loop: `monthly_data` and the order in which its months were first seen. */
  method GroupByMonthAndCategory(rows: seq<Transaction>)
    returns (table: map<MonthKey, map<string, real>>, keys: seq<MonthKey>)
    ensures table == TrendTable(rows) && keys == MonthOrder(rows)
  {
    table, keys := map[], [];
    for i := 0 to |rows|
      invariant table == TrendTable(rows[..i])
      invariant keys == MonthOrder(rows[..i])
    {
      var t := rows[i];
      assert rows[..i + 1][..i] == rows[..i];
      TableMonthsAreOrder(rows[..i]);
      ghost var before := table;
      if t.month !in table {
        table := table[t.month := map[]];
        keys := keys + [t.month];
      }
      var row := table[t.month];
      table := table[t.month := row[t.category := (if t.category in row then row[t.category] else 0.0) + t.amount]];
      assert table == AddRow(before, t);
    }
    assert rows[..|rows|] == rows;
  }

  /**
   * The engine's procedure. `labels` are the months of the window's rows in
   * increasing order; `datasets` has a series for each of the six
   * categories, whose i-th entry is that category's spending in `labels[i]`.
   */
  method SpendingTrends(ts: seq<Transaction>, months: int, now: int, userId: int)
    returns (labels: seq<MonthKey>, datasets: map<string, seq<real>>)
    ensures Increasing(labels)
    ensures forall k :: k in labels <==> HasMonth(Window(ts, Cutoff(now, months), userId), k)
    ensures datasets.Keys == set c | c in Categories
    ensures forall c :: c in datasets ==> |datasets[c]| == |labels|
    ensures forall c, i :: c in datasets && 0 <= i < |labels| ==>
              datasets[c][i] == CellTotal(Window(ts, Cutoff(now, months), userId), labels[i], c)
  {
    var rows := Window(ts, Cutoff(now, months), userId);
    var table, keys := GroupByMonthAndCategory(rows);
    OrderIsMonths(rows);
    TrendTableSpec(rows);
    labels := SortMonths(keys);
    datasets := BuildDatasets(table, labels, Categories);
  }
}
