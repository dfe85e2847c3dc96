/**
 * The per-month dictionary `calculate_category_stats` builds: each transaction
 * adds its amount to the entry of its month, and a month seen for the first
 * time becomes a new key at the end of the key order.
 */
module Grouping {
  import opened Records
  import opened Numeric

  /** The dictionary after adding every transaction of `ts`, in order. */
  function MonthTotals(ts: seq<Transaction>): map<MonthKey, real>
  {
    if ts == [] then map[]
    else
      var m := MonthTotals(ts[..|ts| - 1]);
      var t := ts[|ts| - 1];
      m[t.month := (if t.month in m then m[t.month] else 0.0) + t.amount]
  }

  /** The key order of that dictionary: the months of `ts` by first appearance. */
  function MonthOrder(ts: seq<Transaction>): seq<MonthKey>
  {
    if ts == [] then []
    else
      var o := MonthOrder(ts[..|ts| - 1]);
      var k := ts[|ts| - 1].month;
      if k in o then o else o + [k]
  }

  /** The amounts of the transactions of `ts` in month `k`, added up. */
  function TotalIn(ts: seq<Transaction>, k: MonthKey): real
  {
    if ts == [] then 0.0
    else TotalIn(ts[..|ts| - 1], k) + (if ts[|ts| - 1].month == k then ts[|ts| - 1].amount else 0.0)
  }

  predicate HasMonth(ts: seq<Transaction>, k: MonthKey) {
    exists i :: 0 <= i < |ts| && ts[i].month == k
  }

  predicate Distinct<T(==)>(s: seq<T>) {
    forall i, j :: 0 <= i < j < |s| ==> s[i] != s[j]
  }

  /** The values of `m` listed in the key order `ks` (`list(d.values())`). */
  function ValuesInOrder(m: map<MonthKey, real>, ks: seq<MonthKey>): (r: seq<real>)
    requires forall i :: 0 <= i < |ks| ==> ks[i] in m
    ensures |r| == |ks|
    ensures forall i :: 0 <= i < |ks| ==> r[i] == m[ks[i]]
  {
    seq(|ks|, i requires 0 <= i < |ks| => m[ks[i]])
  }

  lemma HasMonthSnoc(ts: seq<Transaction>, k: MonthKey)
    requires ts != []
    ensures HasMonth(ts, k) <==> HasMonth(ts[..|ts| - 1], k) || ts[|ts| - 1].month == k
  {
    var p := ts[..|ts| - 1];
    if HasMonth(p, k) {
      var i :| 0 <= i < |p| && p[i].month == k;
      assert ts[i] == p[i];
    }
    if HasMonth(ts, k) && ts[|ts| - 1].month != k {
      var i :| 0 <= i < |ts| && ts[i].month == k;
      assert p[i] == ts[i];
    }
  }

  lemma {:induction false} TotalInAbsent(ts: seq<Transaction>, k: MonthKey)
    requires !HasMonth(ts, k)
    ensures TotalIn(ts, k) == 0.0
  {
    if ts != [] {
      HasMonthSnoc(ts, k);
      TotalInAbsent(ts[..|ts| - 1], k);
    }
  }

  /** The dictionary has a key for exactly the months that occur, holding that month's total. */
  lemma {:induction false} MonthTotalsSpec(ts: seq<Transaction>)
    ensures forall k :: k in MonthTotals(ts) <==> HasMonth(ts, k)
    ensures forall k :: k in MonthTotals(ts) ==> MonthTotals(ts)[k] == TotalIn(ts, k)
  {
    if ts != [] {
      var p := ts[..|ts| - 1];
      MonthTotalsSpec(p);
      forall k
        ensures k in MonthTotals(ts) <==> HasMonth(ts, k)
        ensures k in MonthTotals(ts) ==> MonthTotals(ts)[k] == TotalIn(ts, k)
      {
        HasMonthSnoc(ts, k);
        if k !in MonthTotals(p) {
          TotalInAbsent(p, k);
        }
      }
    }
  }

  /** The key order lists each month that occurs exactly once, and no other. */
  lemma {:induction false} MonthOrderSpec(ts: seq<Transaction>)
    ensures Distinct(MonthOrder(ts))
    ensures forall k :: k in MonthOrder(ts) <==> k in MonthTotals(ts)
    ensures |MonthOrder(ts)| <= |ts|
    ensures ts != [] ==> |MonthOrder(ts)| >= 1
  {
    if ts != [] {
      MonthOrderSpec(ts[..|ts| - 1]);
    }
  }

  /** The monthly values, in key order. */
  function MonthlyValues(ts: seq<Transaction>): (r: seq<real>)
    ensures |r| == |MonthOrder(ts)|
  {
    MonthOrderSpec(ts);
    ValuesInOrder(MonthTotals(ts), MonthOrder(ts))
  }

  /** Adding to an existing key changes only that key's entry of the value list. */
  lemma SumAfterAdd(m: map<MonthKey, real>, m': map<MonthKey, real>, ks: seq<MonthKey>, j: nat, a: real)
    requires forall i :: 0 <= i < |ks| ==> ks[i] in m
    requires Distinct(ks) && j < |ks| && m' == m[ks[j] := m[ks[j]] + a]
    ensures forall i :: 0 <= i < |ks| ==> ks[i] in m'
    ensures Sum(ValuesInOrder(m', ks)) == Sum(ValuesInOrder(m, ks)) + a
  {
    var v := ValuesInOrder(m, ks);
    assert ValuesInOrder(m', ks) == v[j := v[j] + a];
    SumUpdate(v, j, a);
  }

  /** A new key adds its value at the end of the value list. */
  lemma SumAfterNewKey(m: map<MonthKey, real>, m': map<MonthKey, real>, ks: seq<MonthKey>, k: MonthKey, a: real)
    requires forall i :: 0 <= i < |ks| ==> ks[i] in m
    requires k !in ks && m' == m[k := a]
    ensures forall i :: 0 <= i < |ks + [k]| ==> (ks + [k])[i] in m'
    ensures Sum(ValuesInOrder(m', ks + [k])) == Sum(ValuesInOrder(m, ks)) + a
  {
    var v := ValuesInOrder(m, ks);
    assert ValuesInOrder(m', ks + [k]) == v + [a];
    SumSnoc(v, a);
  }

  lemma SumSnoc(xs: seq<real>, x: real)
    ensures Sum(xs + [x]) == Sum(xs) + x
  {
    assert (xs + [x])[..|xs|] == xs;
  }

  /** The step of `MonthlyValuesStep` when the month is already present. */
  lemma StepIntoExistingMonth(ts: seq<Transaction>)
    requires ts != [] && ts[|ts| - 1].month in MonthOrder(ts[..|ts| - 1])
    ensures Sum(MonthlyValues(ts)) == Sum(MonthlyValues(ts[..|ts| - 1])) + ts[|ts| - 1].amount
  {
    var p := ts[..|ts| - 1];
    var t := ts[|ts| - 1];
    MonthOrderSpec(p);
    var m, o := MonthTotals(p), MonthOrder(p);
    var j :| 0 <= j < |o| && o[j] == t.month;
    var m' := m[o[j] := m[o[j]] + t.amount];
    assert MonthOrder(ts) == o;
    assert MonthTotals(ts) == m';
    SumAfterAdd(m, m', o, j, t.amount);
  }

  /** The step of `MonthlyValuesStep` when the month is new. */
  lemma StepIntoNewMonth(ts: seq<Transaction>)
    requires ts != [] && ts[|ts| - 1].month !in MonthOrder(ts[..|ts| - 1])
    ensures Sum(MonthlyValues(ts)) == Sum(MonthlyValues(ts[..|ts| - 1])) + ts[|ts| - 1].amount
  {
    var p := ts[..|ts| - 1];
    var t := ts[|ts| - 1];
    MonthOrderSpec(p);
    var m, o := MonthTotals(p), MonthOrder(p);
    var m' := m[t.month := 0.0 + t.amount];
    assert MonthOrder(ts) == o + [t.month];
    assert MonthTotals(ts) == m';
    SumAfterNewKey(m, m', o, t.month, 0.0 + t.amount);
  }

  /** One more transaction adds its amount to the sum of the monthly values. */
  lemma MonthlyValuesStep(ts: seq<Transaction>)
    requires ts != []
    ensures Sum(MonthlyValues(ts)) == Sum(MonthlyValues(ts[..|ts| - 1])) + ts[|ts| - 1].amount
  {
    if ts[|ts| - 1].month in MonthOrder(ts[..|ts| - 1]) {
      StepIntoExistingMonth(ts);
    } else {
      StepIntoNewMonth(ts);
    }
  }

  /** Grouping by month neither loses nor invents money. */
  lemma {:induction false} MonthlyTotalsConserve(ts: seq<Transaction>)
    ensures Sum(MonthlyValues(ts)) == Sum(Amounts(ts))
  {
    if ts != [] {
      var p := ts[..|ts| - 1];
      var a := ts[|ts| - 1].amount;
      MonthlyTotalsConserve(p);
      MonthlyValuesStep(ts);
      assert Amounts(ts) == Amounts(p) + [a];
      SumSnoc(Amounts(p), a);
    }
  }

  /** `for t in ts: d[k] = d.get(k, 0) + t.amount`, with the dictionary's key order kept beside it. */
  method GroupByMonth(ts: seq<Transaction>) returns (totals: map<MonthKey, real>, order: seq<MonthKey>)
    ensures totals == MonthTotals(ts) && order == MonthOrder(ts)
  {
    totals, order := map[], [];
    for i := 0 to |ts|
      invariant totals == MonthTotals(ts[..i])
      invariant order == MonthOrder(ts[..i])
    {
      var t := ts[i];
      assert ts[..i + 1][..i] == ts[..i];
      MonthOrderSpec(ts[..i]);
      if t.month !in totals {
        order := order + [t.month];
      }
      totals := totals[t.month := (if t.month in totals then totals[t.month] else 0.0) + t.amount];
    }
    assert ts[..|ts|] == ts;
  }
}
