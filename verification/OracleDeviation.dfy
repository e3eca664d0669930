/**
 The deviation metric of the price oracles, in exact arithmetic. Reports are unsigned
 fixed-point integers; the unit of the fixed point does not matter, only that it is positive.
 */
module OracleDeviation {

  function Abs(x: real): real {
    if x < 0.0 then -x else x
  }

  function FromFixed(v: nat, unit: real): real
    requires unit > 0.0
  {
    v as real / unit
  }

  function Sum(xs: seq<nat>, unit: real): real
    requires unit > 0.0
  {
    if xs == [] then 0.0 else Sum(xs[..|xs| - 1], unit) + FromFixed(xs[|xs| - 1], unit)
  }

  /** The mean of no reports is 0. */
  function Mean(xs: seq<nat>, unit: real): real
    requires unit > 0.0
  {
    if xs == [] then 0.0 else Sum(xs, unit) / |xs| as real
  }

  method MeanFromFixed(xs: seq<nat>, unit: real) returns (mean: real)
    requires unit > 0.0
    ensures mean == Mean(xs, unit)
  {
    var total := 0.0;
    if |xs| == 0 {
      return 0.0;
    }
    for i := 0 to |xs|
      invariant total == Sum(xs[..i], unit)
    {
      assert xs[..i + 1][..i] == xs[..i];
      total := total + FromFixed(xs[i], unit);
    }
    assert xs[..|xs|] == xs;
    mean := total / |xs| as real;
  }

  function Deviation(x: nat, mean: real, unit: real): real
    requires unit > 0.0 && mean > 0.0
  {
    Abs(FromFixed(x, unit) / mean - 1.0)
  }

  /** The deviations of all reports from a mean; none when the mean is 0, for then there is no quotient. */
  function Deviations(xs: seq<nat>, mean: real, unit: real): (r: seq<real>)
    requires unit > 0.0
    ensures |r| == if mean > 0.0 then |xs| else 0
  {
    if mean > 0.0 then seq(|xs|, i requires 0 <= i < |xs| => Deviation(xs[i], mean, unit)) else []
  }

  /** m is the greatest element; 0 when there is nothing to compare. */
  ghost predicate IsGreatest(m: real, ds: seq<real>) {
    if ds == [] then m == 0.0 else m in ds && forall i :: 0 <= i < |ds| ==> ds[i] <= m
  }

  lemma {:induction false} SumNonNegative(xs: seq<nat>, unit: real)
    requires unit > 0.0
    ensures Sum(xs, unit) >= 0.0
    ensures Sum(xs, unit) == 0.0 ==> forall i :: 0 <= i < |xs| ==> xs[i] == 0
    ensures forall i :: 0 <= i < |xs| ==> FromFixed(xs[i], unit) <= Sum(xs, unit)
  {
    if xs == [] {
    } else {
      SumNonNegative(xs[..|xs| - 1], unit);
      forall v: nat ensures FromFixed(v, unit) >= 0.0 && (FromFixed(v, unit) == 0.0 ==> v == 0) {
        FromFixedSign(v, unit);
      }
    }
  }

  lemma FromFixedSign(v: nat, unit: real)
    requires unit > 0.0
    ensures FromFixed(v, unit) >= 0.0 && (FromFixed(v, unit) == 0.0 ==> v == 0)
  {
    assert FromFixed(v, unit) * unit == v as real;
  }

  /**
   The loop of `ObserveMetrics`. When all reports are 0 the quotient is not a number, and a
   comparison with that is false, so that the maximum stays 0.
   */
  method MaxDeviation(xs: seq<nat>, unit: real) returns (maxDiff: real)
    requires unit > 0.0
    ensures IsGreatest(maxDiff, Deviations(xs, Mean(xs, unit), unit))
  {
    var mean := MeanFromFixed(xs, unit);
    ghost var ds := Deviations(xs, Mean(xs, unit), unit);
    maxDiff := 0.0;
    for i := 0 to |xs|
      invariant mean <= 0.0 ==> maxDiff == 0.0
      invariant mean > 0.0 ==> IsGreatest(maxDiff, ds[..i]) && maxDiff >= 0.0
    {
      if mean > 0.0 {
        var diff := Deviation(xs[i], mean, unit);
        assert ds[..i + 1] == ds[..i] + [diff];
        if diff > maxDiff {
          maxDiff := diff;
        }
      }
    }
    assert mean > 0.0 ==> ds[..|xs|] == ds;
  }

  // ----- What the maximum means

  function Total(xs: seq<nat>): nat {
    if xs == [] then 0 else Total(xs[..|xs| - 1]) + xs[|xs| - 1]
  }

  lemma {:induction false} SumIsTotal(xs: seq<nat>, unit: real)
    requires unit > 0.0
    ensures Sum(xs, unit) * unit == Total(xs) as real
  {
    if xs != [] {
      SumIsTotal(xs[..|xs| - 1], unit);
      assert FromFixed(xs[|xs| - 1], unit) * unit == xs[|xs| - 1] as real;
    }
  }

  lemma MeanIsTotal(xs: seq<nat>, unit: real)
    requires unit > 0.0 && xs != []
    ensures Mean(xs, unit) * (|xs| as real * unit) == Total(xs) as real
    ensures Mean(xs, unit) > 0.0 <==> Total(xs) > 0
  {
    var mean, sum, n := Mean(xs, unit), Sum(xs, unit), |xs| as real;
    SumIsTotal(xs, unit);
    assert sum / n * n == sum;
    assert mean * (n * unit) == (mean * n) * unit;
    PositiveProduct(n, unit);
    PositiveProduct(n * unit, mean);
  }

  lemma QuotientIsShare(x: real, unit: real, mean: real, n: real, total: real)
    requires unit > 0.0 && mean > 0.0 && mean * (n * unit) == total
    ensures x / unit / mean * total == n * x
  {
    var fixed := x / unit;
    assert fixed * unit == x && fixed / mean * mean == fixed;
    assert fixed / mean * (mean * (n * unit)) == (fixed / mean * mean) * (n * unit);
    assert fixed * (n * unit) == n * (fixed * unit);
  }

  /** How far n times the report is from the total. */
  function Gap(x: nat, n: real, total: real): (d: real)
    ensures d >= 0.0 && (d == n * x as real - total || d == total - n * x as real)
  {
    if n * x as real < total then total - n * x as real else n * x as real - total
  }

  lemma AbsIsGap(q: real, x: nat, n: real, total: real)
    requires total > 0.0 && q * total == n * x as real
    ensures Abs(q - 1.0) * total == Gap(x, n, total)
  {
    assert (q - 1.0) * total == n * x as real - total;
    assert (1.0 - q) * total == total - n * x as real;
  }

  /** One deviation: how far the report is from the mean, as a share of the mean. */
  lemma DeviationIs(x: nat, unit: real, mean: real, n: real, total: real)
    requires unit > 0.0 && mean > 0.0 && total > 0.0 && mean * (n * unit) == total
    ensures Deviation(x, mean, unit) * total == Gap(x, n, total)
  {
    QuotientIsShare(x as real, unit, mean, n, total);
    AbsIsGap(FromFixed(x, unit) / mean, x, n, total);
  }

  lemma ProductsCompare(a: real, b: real, total: real)
    requires total > 0.0
    ensures a * total <= b * total <==> a <= b
    ensures a * total == b * total <==> a == b
  {
  }

  lemma OneCompares(x: nat, unit: real, mean: real, n: real, total: real, m: real, bound: real)
    requires unit > 0.0 && mean > 0.0 && total > 0.0 && mean * (n * unit) == total && bound == m * total
    ensures Deviation(x, mean, unit) <= m <==> Gap(x, n, total) <= bound
    ensures Deviation(x, mean, unit) == m <==> Gap(x, n, total) == bound
  {
    DeviationIs(x, unit, mean, n, total);
    ProductsCompare(Deviation(x, mean, unit), m, total);
  }

  function Gaps(xs: seq<nat>, n: real, total: real): (r: seq<real>)
    ensures |r| == |xs|
  {
    seq(|xs|, i requires 0 <= i < |xs| => Gap(xs[i], n, total))
  }

  /** The mean is the n-th part of the total. */
  predicate IsMean(mean: real, n: real, total: real, unit: real) {
    unit > 0.0 && mean > 0.0 && total > 0.0 && mean * (n * unit) == total
  }

  lemma CompareAll(ds: seq<real>, m: real, gaps: seq<real>, bound: real)
    requires |ds| == |gaps| > 0
    requires forall i :: 0 <= i < |ds| ==> (ds[i] <= m <==> gaps[i] <= bound)
    requires forall i :: 0 <= i < |ds| ==> (ds[i] == m <==> gaps[i] == bound)
    ensures IsGreatest(m, ds) <==>
              (forall i :: 0 <= i < |gaps| ==> gaps[i] <= bound) && exists i :: 0 <= i < |gaps| && gaps[i] == bound
  {
    if m in ds {
      var i :| 0 <= i < |ds| && ds[i] == m;
      assert gaps[i] == bound;
    }
    if i :| 0 <= i < |gaps| && gaps[i] == bound {
      assert ds[i] == m;
    }
  }

  lemma PositiveTotal(xs: seq<nat>, unit: real, mean: real, n: real, total: real, m: real, bound: real)
    requires IsMean(mean, n, total, unit) && bound == m * total && xs != []
    ensures IsGreatest(m, Deviations(xs, mean, unit)) <==>
              (forall i :: 0 <= i < |xs| ==> Gap(xs[i], n, total) <= bound) && exists i :: 0 <= i < |xs| && Gap(xs[i], n, total) == bound
  {
    var ds, gaps := Deviations(xs, mean, unit), Gaps(xs, n, total);
    forall i | 0 <= i < |xs| ensures (ds[i] <= m <==> gaps[i] <= bound) && (ds[i] == m <==> gaps[i] == bound) {
      OneCompares(xs[i], unit, mean, n, total, m, bound);
    }
    CompareAll(ds, m, gaps, bound);
    GapsCompare(xs, n, total, bound);
  }

  lemma GapsCompare(xs: seq<nat>, n: real, total: real, bound: real)
    ensures var gaps := Gaps(xs, n, total);
            && ((forall i :: 0 <= i < |gaps| ==> gaps[i] <= bound) <==> forall i :: 0 <= i < |xs| ==> Gap(xs[i], n, total) <= bound)
            && ((exists i :: 0 <= i < |gaps| && gaps[i] == bound) <==> exists i :: 0 <= i < |xs| && Gap(xs[i], n, total) == bound)
  {
    var gaps := Gaps(xs, n, total);
    assert forall i :: 0 <= i < |xs| ==> gaps[i] == Gap(xs[i], n, total);
  }

  /**
   The metric without the mean: for n reports with a positive total, m is the greatest
   |n * x - total| / total of all reports x.
   */
  lemma MaxDeviationMeaning(xs: seq<nat>, unit: real, n: real, total: real, m: real, bound: real)
    requires unit > 0.0 && n == |xs| as real && total == Total(xs) as real && total > 0.0 && bound == m * total
    ensures IsGreatest(m, Deviations(xs, Mean(xs, unit), unit)) <==>
              && (forall i :: 0 <= i < |xs| ==> Gap(xs[i], n, total) <= bound)
              && exists i :: 0 <= i < |xs| && Gap(xs[i], n, total) == bound
  {
    MeanIsTotal(xs, unit);
    PositiveTotal(xs, unit, Mean(xs, unit), n, total, m, bound);
  }

  /** It is 0 if all reports are 0, or if there are none. */
  lemma MaxDeviationOfZeros(xs: seq<nat>, unit: real, m: real)
    requires unit > 0.0 && Total(xs) == 0
    ensures IsGreatest(m, Deviations(xs, Mean(xs, unit), unit)) <==> m == 0.0
  {
    if xs != [] {
      MeanIsTotal(xs, unit);
    }
  }

  lemma {:induction false} SumOfEqual(xs: seq<nat>, unit: real)
    requires unit > 0.0 && xs != [] && forall i :: 0 <= i < |xs| ==> xs[i] == xs[0]
    ensures Sum(xs, unit) == |xs| as real * FromFixed(xs[0], unit)
  {
    if |xs| > 1 {
      var front := xs[..|xs| - 1];
      assert front[0] == xs[0];
      SumOfEqual(front, unit);
      assert |xs| as real == |front| as real + 1.0;
      assert xs[|xs| - 1] == xs[0];
    } else {
      assert xs[..0] == [];
    }
  }

  lemma QuotientOne(x: real, mean: real)
    requires mean > 0.0
    ensures x / mean == 1.0 <==> x == mean
  {
    assert x / mean * mean == x;
  }

  lemma SameFixed(a: nat, b: nat, unit: real)
    requires unit > 0.0
    ensures FromFixed(a, unit) == FromFixed(b, unit) <==> a == b
  {
    assert FromFixed(a, unit) * unit == a as real && FromFixed(b, unit) * unit == b as real;
  }

  lemma EqualReports(xs: seq<nat>, unit: real, i: nat)
    requires unit > 0.0 && Mean(xs, unit) > 0.0 && i < |xs|
    requires forall j :: 0 <= j < |xs| ==> xs[j] == xs[0]
    ensures Deviations(xs, Mean(xs, unit), unit)[i] == 0.0
  {
    SumOfEqual(xs, unit);
    MeanOf(Sum(xs, unit), |xs| as real, FromFixed(xs[0], unit));
    QuotientOne(FromFixed(xs[0], unit), Mean(xs, unit));
  }

  lemma NoDeviation(xs: seq<nat>, unit: real, i: nat, j: nat)
    requires unit > 0.0 && Mean(xs, unit) > 0.0 && i < |xs| && j < |xs|
    requires Deviations(xs, Mean(xs, unit), unit)[i] == 0.0 && Deviations(xs, Mean(xs, unit), unit)[j] == 0.0
    ensures xs[i] == xs[j]
  {
    QuotientOne(FromFixed(xs[i], unit), Mean(xs, unit));
    QuotientOne(FromFixed(xs[j], unit), Mean(xs, unit));
    SameFixed(xs[i], xs[j], unit);
  }

  lemma MeanZero(xs: seq<nat>, unit: real)
    requires unit > 0.0 && Mean(xs, unit) <= 0.0
    ensures forall i :: 0 <= i < |xs| ==> xs[i] == 0
  {
    SumNonNegative(xs, unit);
    if xs != [] {
      var sum, n := Sum(xs, unit), |xs| as real;
      assert sum / n * n == sum;
    }
  }

  lemma DeviationsNonNegative(xs: seq<nat>, unit: real)
    requires unit > 0.0
    ensures forall i :: 0 <= i < |Deviations(xs, Mean(xs, unit), unit)| ==> Deviations(xs, Mean(xs, unit), unit)[i] >= 0.0
  {
  }

  /** No deviation at all exactly if all reports are equal. */
  lemma {:induction false} ZeroExactlyWhenEqual(xs: seq<nat>, unit: real, m: real)
    requires unit > 0.0 && IsGreatest(m, Deviations(xs, Mean(xs, unit), unit))
    ensures m == 0.0 <==> forall i, j :: 0 <= i < j < |xs| ==> xs[i] == xs[j]
  {
    var ds := Deviations(xs, Mean(xs, unit), unit);
    if Mean(xs, unit) <= 0.0 {
      MeanZero(xs, unit);
    } else {
      DeviationsNonNegative(xs, unit);
      if m == 0.0 {
        forall i, j | 0 <= i < j < |xs| ensures xs[i] == xs[j] {
          assert ds[i] <= m && ds[j] <= m;
          NoDeviation(xs, unit, i, j);
        }
      }
      if forall i, j :: 0 <= i < j < |xs| ==> xs[i] == xs[j] {
        forall i | 0 <= i < |xs| ensures ds[i] == 0.0 {
          EqualReports(xs, unit, i);
        }
      }
    }
  }

  lemma MeanOf(sum: real, n: real, x: real)
    requires n > 0.0
    ensures sum / n == x <==> sum == n * x
  {
    assert sum / n * n == sum;
  }

  /** With n reports the deviation is at most n - 1, and at most 1 for a single report. */
  lemma {:induction false} DeviationBounded(xs: seq<nat>, unit: real, m: real)
    requires unit > 0.0 && IsGreatest(m, Deviations(xs, Mean(xs, unit), unit))
    ensures 0.0 <= m <= if |xs| <= 2 then 1.0 else |xs| as real - 1.0
  {
    if Mean(xs, unit) > 0.0 {
      SumNonNegative(xs, unit);
      var i :| 0 <= i < |xs| && Deviations(xs, Mean(xs, unit), unit)[i] == m;
      OneDeviationBounded(xs[i], |xs|, Sum(xs, unit), unit);
    }
  }

  lemma OneDeviationBounded(x: nat, n: nat, sum: real, unit: real)
    requires unit > 0.0 && n > 0 && sum / n as real > 0.0 && FromFixed(x, unit) <= sum
    ensures 0.0 <= Deviation(x, sum / n as real, unit) <= if n <= 2 then 1.0 else n as real - 1.0
  {
    var mean := sum / n as real;
    MeanOf(sum, n as real, mean);
    FromFixedSign(x, unit);
    QuotientBound(FromFixed(x, unit), mean, n as real);
  }

  lemma QuotientBound(x: real, mean: real, n: real)
    requires mean > 0.0 && 0.0 <= x <= n * mean
    ensures 0.0 <= x / mean <= n
  {
    QuotientMonotone(0.0, x, mean);
    QuotientMonotone(x, n * mean, mean);
    MeanOf(n * mean, mean, n);
    MeanOf(0.0, mean, 0.0);
  }

  lemma QuotientMonotone(x: real, y: real, mean: real)
    requires mean > 0.0 && x <= y
    ensures x / mean <= y / mean
  {
  }

  lemma MeanScaled(xs: seq<nat>, unit: real, k: nat)
    requires unit > 0.0
    ensures Mean(Scaled(xs, k), unit) == k as real * Mean(xs, unit)
  {
    var ys := Scaled(xs, k);
    if xs == [] {
      assert ys == [];
    } else {
      var sum, n := Sum(xs, unit), |xs| as real;
      assert Sum(ys, unit) == k as real * sum by {
        SumScaled(xs, unit, k);
      }
      assert Mean(ys, unit) == (k as real * sum) / n;
      QuotientTimes(sum, n, k as real);
    }
  }

  lemma QuotientTimes(x: real, n: real, k: real)
    requires n > 0.0
    ensures (k * x) / n == k * (x / n)
  {
    MeanOf(k * x, n, k * (x / n));
    MeanOf(x, n, x / n);
    assert n * (k * (x / n)) == k * (n * (x / n));
  }

  lemma PositiveProduct(k: real, x: real)
    requires k > 0.0
    ensures k * x > 0.0 <==> x > 0.0
  {
  }

  lemma DeviationScaled(x: nat, mean: real, unit: real, k: nat)
    requires unit > 0.0 && mean > 0.0 && k > 0 && k as real * mean > 0.0
    ensures Deviation(k * x, k as real * mean, unit) == Deviation(x, mean, unit)
  {
    FixedScaled(x, unit, k);
    QuotientScaled(FromFixed(x, unit), mean, k as real);
  }

  lemma DeviationsScaled(xs: seq<nat>, mean: real, scaledMean: real, unit: real, k: nat)
    requires unit > 0.0 && k > 0 && scaledMean == k as real * mean
    ensures Deviations(Scaled(xs, k), scaledMean, unit) == Deviations(xs, mean, unit)
  {
    PositiveProduct(k as real, mean);
    if mean > 0.0 {
      forall i | 0 <= i < |xs| ensures Deviations(Scaled(xs, k), scaledMean, unit)[i] == Deviations(xs, mean, unit)[i] {
        DeviationScaled(xs[i], mean, unit, k);
      }
    }
  }

  lemma ScaledByNatural(xs: seq<nat>, unit: real, k: nat)
    requires unit > 0.0 && k > 0
    ensures Deviations(Scaled(xs, k), Mean(Scaled(xs, k), unit), unit) == Deviations(xs, Mean(xs, unit), unit)
  {
    MeanScaled(xs, unit, k);
    DeviationsScaled(xs, Mean(xs, unit), Mean(Scaled(xs, k), unit), unit, k);
  }

  /**
   Multiplying all reports by a positive factor, whole or fractional, changes nothing: two
   lists of reports whose entries are in the same ratio have the same deviation.
   */
  lemma {:induction false} ScaleInvariant(xs: seq<nat>, ys: seq<nat>, unit: real, p: nat, q: nat, m: real)
    requires unit > 0.0 && p > 0 && q > 0
    requires |xs| == |ys| && forall i :: 0 <= i < |xs| ==> p * xs[i] == q * ys[i]
    ensures IsGreatest(m, Deviations(xs, Mean(xs, unit), unit)) <==> IsGreatest(m, Deviations(ys, Mean(ys, unit), unit))
  {
    assert Scaled(xs, p) == Scaled(ys, q);
    ScaledByNatural(xs, unit, p);
    ScaledByNatural(ys, unit, q);
  }

  function Scaled(xs: seq<nat>, k: nat): seq<nat> {
    seq(|xs|, i requires 0 <= i < |xs| => k * xs[i])
  }

  lemma FixedScaled(v: nat, unit: real, k: nat)
    requires unit > 0.0
    ensures FromFixed(k * v, unit) == k as real * FromFixed(v, unit)
  {
    assert (k * v) as real == k as real * v as real;
    MeanOf((k * v) as real, unit, k as real * FromFixed(v, unit));
    assert unit * FromFixed(v, unit) == v as real;
  }

  lemma QuotientScaled(x: real, mean: real, k: real)
    requires mean > 0.0 && k > 0.0 && k * mean > 0.0
    ensures (k * x) / (k * mean) == x / mean
  {
    var q := x / mean;
    assert q * mean == x;
    MeanOf(k * x, k * mean, q);
    assert (k * mean) * q == k * (mean * q);
  }

  lemma {:induction false} SumScaled(xs: seq<nat>, unit: real, k: nat)
    requires unit > 0.0
    ensures Sum(Scaled(xs, k), unit) == k as real * Sum(xs, unit)
  {
    if xs != [] {
      var front := xs[..|xs| - 1];
      SumScaled(front, unit, k);
      assert Scaled(xs, k)[..|xs| - 1] == Scaled(front, k);
      FixedScaled(xs[|xs| - 1], unit, k);
    } else {
      assert Scaled(xs, k) == [];
    }
  }
}
