/**
 * The summaries numpy computes for the engine (np.mean, np.var(ddof=1),
 * min, max), over exact reals.
 */
module Numeric {

  function Sum(xs: seq<real>): real
  {
    if xs == [] then 0.0 else Sum(xs[..|xs| - 1]) + xs[|xs| - 1]
  }

  function Mean(xs: seq<real>): real
    requires xs != []
  {
    Sum(xs) / |xs| as real
  }

  function Sq(x: real): real { x * x }

  /** The sum of squared deviations of `xs` from `m`. */
  function SumSqDev(xs: seq<real>, m: real): real
  {
    if xs == [] then 0.0 else SumSqDev(xs[..|xs| - 1], m) + Sq(xs[|xs| - 1] - m)
  }

  /** np.var(xs, ddof=1) when there are at least two values, else the engine's 0. */
  function SampleVariance(xs: seq<real>): real
  {
    if |xs| > 1 then SumSqDev(xs, Mean(xs)) / (|xs| - 1) as real else 0.0
  }

  function MinOf(xs: seq<real>): (r: real)
    requires xs != []
    ensures r in xs
    ensures forall i :: 0 <= i < |xs| ==> r <= xs[i]
  {
    if |xs| == 1 then xs[0]
    else
      var m := MinOf(xs[..|xs| - 1]);
      if xs[|xs| - 1] < m then xs[|xs| - 1] else m
  }

  function MaxOf(xs: seq<real>): (r: real)
    requires xs != []
    ensures r in xs
    ensures forall i :: 0 <= i < |xs| ==> xs[i] <= r
  {
    if |xs| == 1 then xs[0]
    else
      var m := MaxOf(xs[..|xs| - 1]);
      if m < xs[|xs| - 1] then xs[|xs| - 1] else m
  }

  function Abs(x: real): real { if x < 0.0 then -x else x }

  /** `sqrt` is the non-negative square root on the non-negative reals (numpy's, taken as exact). */
  ghost predicate IsSqrt(sqrt: real -> real) {
    forall x: real :: 0.0 <= x ==> 0.0 <= sqrt(x) && Sq(sqrt(x)) == x
  }

  lemma SquarePositive(a: real)
    ensures Sq(a) >= 0.0
    ensures a != 0.0 ==> Sq(a) > 0.0
  {
    if a != 0.0 {
      calc {
        Sq(a);
      ==
        a * a;
      >
        0.0;
      }
    }
  }

  /** With the non-negative root, `sqrt(x) == 0` exactly when `x == 0`. */
  lemma SqrtZero(sqrt: real -> real, x: real)
    requires IsSqrt(sqrt) && 0.0 <= x
    ensures sqrt(x) == 0.0 <==> x == 0.0
  {
    SquarePositive(sqrt(x));
  }

  /** The root of the square of a non-negative number is that number. */
  lemma SqrtOfSquare(sqrt: real -> real, a: real)
    requires IsSqrt(sqrt) && 0.0 <= a
    ensures sqrt(Sq(a)) == a
  {
    SquarePositive(a);
    var s := sqrt(Sq(a));
    assert (s - a) * (s + a) == Sq(s) - Sq(a);
    assert (s - a) * (s + a) == 0.0;
    if s + a != 0.0 {
      calc {
        s - a;
      ==
        (s - a) * (s + a) / (s + a);
      ==
        0.0 / (s + a);
      }
    }
  }

  /** `n * lo <= s` and `s <= n * hi` bound the quotient `s / n`. */
  lemma QuotientBounds(s: real, n: real, lo: real, hi: real)
    requires n > 0.0 && n * lo <= s <= n * hi
    ensures lo <= s / n <= hi
  {
    var q := s / n;
    assert q * n == s;
    assert (q - lo) * n >= 0.0 && (hi - q) * n >= 0.0;
  }

  /** Changing one entry by `d` changes the sum by `d`. */
  lemma {:induction false} SumUpdate(xs: seq<real>, j: nat, d: real)
    requires j < |xs|
    ensures Sum(xs[j := xs[j] + d]) == Sum(xs) + d
  {
    var ys := xs[j := xs[j] + d];
    if j == |xs| - 1 {
      assert ys[..|ys| - 1] == xs[..|xs| - 1];
    } else {
      SumUpdate(xs[..|xs| - 1], j, d);
      assert ys[..|ys| - 1] == xs[..|xs| - 1][j := xs[j] + d];
    }
  }

  lemma {:induction false} SumAppend(xs: seq<real>, ys: seq<real>)
    ensures Sum(xs + ys) == Sum(xs) + Sum(ys)
  {
    if ys != [] {
      SumAppend(xs, ys[..|ys| - 1]);
      assert (xs + ys)[..|xs + ys| - 1] == xs + ys[..|ys| - 1];
    } else {
      assert xs + ys == xs;
    }
  }

  /** Every value between `lo` and `hi` puts the sum between `n * lo` and `n * hi`. */
  lemma {:induction false} SumBounds(xs: seq<real>, lo: real, hi: real)
    requires forall i :: 0 <= i < |xs| ==> lo <= xs[i] <= hi
    ensures |xs| as real * lo <= Sum(xs) <= |xs| as real * hi
  {
    if xs != [] {
      SumBounds(xs[..|xs| - 1], lo, hi);
    }
  }

  /** A common upper bound of the values bounds their mean. */
  lemma MeanAtMost(xs: seq<real>, hi: real)
    requires xs != []
    requires forall i :: 0 <= i < |xs| ==> xs[i] <= hi
    ensures Mean(xs) <= hi
  {
    SumBounds(xs, MinOf(xs), hi);
    QuotientBounds(Sum(xs), |xs| as real, MinOf(xs), hi);
  }

  /** The mean lies between the minimum and the maximum. */
  lemma MeanBetweenMinAndMax(xs: seq<real>)
    requires xs != []
    ensures MinOf(xs) <= Mean(xs) <= MaxOf(xs)
  {
    SumBounds(xs, MinOf(xs), MaxOf(xs));
    QuotientBounds(Sum(xs), |xs| as real, MinOf(xs), MaxOf(xs));
  }

  lemma {:induction false} SumSqDevNonNegative(xs: seq<real>, m: real)
    ensures SumSqDev(xs, m) >= 0.0
  {
    if xs != [] {
      SumSqDevNonNegative(xs[..|xs| - 1], m);
      SquarePositive(xs[|xs| - 1] - m);
    }
  }

  /** The sample variance is never negative. */
  lemma VarianceNonNegative(xs: seq<real>)
    ensures SampleVariance(xs) >= 0.0
  {
    if |xs| > 1 {
      SumSqDevNonNegative(xs, Mean(xs));
    }
  }

  /** One value away from `m` makes the squared deviations positive. */
  lemma {:induction false} SumSqDevPositive(xs: seq<real>, m: real, i: nat)
    requires i < |xs| && xs[i] != m
    ensures SumSqDev(xs, m) > 0.0
  {
    var p := xs[..|xs| - 1];
    var x := xs[|xs| - 1];
    SquarePositive(x - m);
    if i == |xs| - 1 {
      SumSqDevNonNegative(p, m);
    } else {
      SumSqDevPositive(p, m, i);
    }
  }

  lemma {:induction false} SumSqDevConstant(xs: seq<real>, m: real)
    requires forall i :: 0 <= i < |xs| ==> xs[i] == m
    ensures SumSqDev(xs, m) == 0.0
  {
    if xs != [] {
      SumSqDevConstant(xs[..|xs| - 1], m);
      assert Sq(xs[|xs| - 1] - m) == Sq(0.0);
    }
  }

  lemma {:induction false} SumConstant(xs: seq<real>, c: real)
    requires forall i :: 0 <= i < |xs| ==> xs[i] == c
    ensures Sum(xs) == |xs| as real * c
  {
    if xs != [] {
      SumConstant(xs[..|xs| - 1], c);
    }
  }

  /** The sample variance is 0 exactly when all the values are equal. */
  lemma VarianceZeroIffConstant(xs: seq<real>)
    requires xs != []
    ensures SampleVariance(xs) == 0.0 <==> forall i :: 0 <= i < |xs| ==> xs[i] == xs[0]
  {
    if |xs| > 1 {
      if forall i :: 0 <= i < |xs| ==> xs[i] == xs[0] {
        SumConstant(xs, xs[0]);
        assert Mean(xs) == xs[0];
        SumSqDevConstant(xs, xs[0]);
      } else {
        var i :| 0 <= i < |xs| && xs[i] != xs[0];
        var m := Mean(xs);
        var j := if xs[i] != m then i else 0;
        SumSqDevPositive(xs, m, j);
        assert SampleVariance(xs) > 0.0;
      }
    }
  }
}
